/** How many elements of a sequence (of threads, of flags) satisfy a predicate. */
module Tally {

  function Count<T>(p: T -> bool, s: seq<T>): (n: nat)
    ensures n <= |s|
  {
    if s == [] then 0 else (if p(s[0]) then 1 else 0) + Count(p, s[1..])
  }

  function One(b: bool): nat { if b then 1 else 0 }

  lemma {:induction false} CountUpdate<T>(p: T -> bool, s: seq<T>, i: nat, v: T)
    requires i < |s|
    ensures Count(p, s[i := v]) + One(p(s[i])) == Count(p, s) + One(p(v))
  {
    if i == 0 {
      assert s[i := v][1..] == s[1..];
    } else {
      CountUpdate(p, s[1..], i - 1, v);
      assert s[i := v][1..] == s[1..][i - 1 := v];
    }
  }

  lemma {:induction false} CountAppend<T>(p: T -> bool, s: seq<T>, v: T)
    ensures Count(p, s + [v]) == Count(p, s) + One(p(v))
  {
    if s != [] {
      CountAppend(p, s[1..], v);
      assert (s + [v])[1..] == s[1..] + [v];
    }
  }

  lemma {:induction false} CountSome<T>(p: T -> bool, s: seq<T>)
    requires Count(p, s) > 0
    ensures exists i :: 0 <= i < |s| && p(s[i])
  {
    if p(s[0]) {
    } else {
      CountSome(p, s[1..]);
      var i :| 0 <= i < |s[1..]| && p(s[1..][i]);
      assert p(s[i + 1]);
    }
  }

  lemma {:induction false} CountOne<T>(p: T -> bool, s: seq<T>, i: nat)
    requires i < |s| && p(s[i])
    ensures Count(p, s) > 0
  {
    if i > 0 { CountOne(p, s[1..], i - 1); }
  }

  lemma {:induction false} CountNotAll<T>(p: T -> bool, s: seq<T>)
    requires Count(p, s) < |s|
    ensures exists i :: 0 <= i < |s| && !p(s[i])
  {
    if !p(s[0]) {
    } else {
      CountNotAll(p, s[1..]);
      var i :| 0 <= i < |s[1..]| && !p(s[1..][i]);
      assert !p(s[i + 1]);
    }
  }

  lemma {:induction false} CountMissing<T>(p: T -> bool, s: seq<T>, i: nat)
    requires i < |s| && !p(s[i])
    ensures Count(p, s) < |s|
  {
    if i > 0 { CountMissing(p, s[1..], i - 1); }
  }

  lemma {:induction false} CountNone<T>(p: T -> bool, s: seq<T>)
    requires forall i :: 0 <= i < |s| ==> !p(s[i])
    ensures Count(p, s) == 0
  {
    if s != [] { CountNone(p, s[1..]); }
  }

  lemma {:induction false} CountSame<T>(p: T -> bool, s: seq<T>, t: seq<T>)
    requires |s| == |t| && forall i :: 0 <= i < |s| ==> (p(s[i]) <==> p(t[i]))
    ensures Count(p, s) == Count(p, t)
  {
    if s != [] { CountSame(p, s[1..], t[1..]); }
  }

  lemma CountSlice<T>(p: T -> bool, s: seq<T>, j: nat, k: nat)
    requires j < k <= |s|
    ensures Count(p, s[j..k]) == Count(p, s[j..k - 1]) + One(p(s[k - 1]))
  {
    assert s[j..k] == s[j..k - 1] + [s[k - 1]];
    CountAppend(p, s[j..k - 1], s[k - 1]);
  }
}
