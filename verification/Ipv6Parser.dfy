/** ipv6_address::from_string (lib/ipv6_address.cpp:52-267): the loops over the string and the eight parts. */
module Ipv6Parser {
  import opened Ipv6

  /** How the scan goes on after the group g, with `u` left to read. */
  function Onward(g: string, u: string, parts: seq<nat>, gap: Option<nat>): Scan
    requires IsGroup(g)
  {
    var now := parts + [Value(g)];
    if u == "" then ScanFrom(u, now, gap)
    else if |u| == 1 then Fail
    else if u[0] == ':' then
      (if u[1] != ':' then ScanFrom(u[1..], now, gap)
       else if gap.Some? then Fail
       else ScanFrom(u[2..], now, Some(|now|)))
    else if u[0] == '.' then ScanQuad(g, u, parts, gap)
    else Fail
  }

  lemma ScanOnward(t: string, parts: seq<nat>, gap: Option<nat>, n: nat)
    requires t != "" && |parts| < 8 && n == HexRun(t, 4) && n > 0
    ensures IsGroup(t[..n]) && ScanFrom(t, parts, gap) == Onward(t[..n], t[n..], parts, gap)
  {
    hide Value, HexValue, HexRun, ScanQuad;
  }

  /** What is left to read from position pos on. */
  function From(s: string, pos: nat): (r: string)
    requires pos <= |s|
    ensures |r| == |s| - pos
  {
    s[pos..]
  }

  /** The rest of the string after n more characters, by position. */
  lemma RestAt(s: string, pos: nat, n: nat)
    requires pos + n <= |s|
    ensures From(s, pos)[n..] == From(s, pos + n)
    ensures pos + n < |s| ==> From(s, pos)[n] == s[pos + n] == From(s, pos + n)[0]
  {
  }

  /** The digits of a group, at most four. */
  method ReadDigits(s: string, pos: nat, digits: array<nat>) returns (count: nat, ghost g: string)
    requires pos < |s| && digits.Length == 4 && HexValue(s[pos]) >= 0
    modifies digits
    ensures count == HexRun(From(s, pos), 4) && 1 <= count && pos + count <= |s|
    ensures g == From(s, pos)[..count] && forall i :: 0 <= i < count ==> digits[i] == HexValue(g[i])
  {
    ghost var t := From(s, pos);
    RestAt(s, pos, 0);
    hide HexRun, HexValue;
    count := 0;
    var more := true;
    while more
      invariant count <= 4 && pos + count <= |s| && (count == 0 ==> more)
      invariant forall i :: 0 <= i < count ==> HexValue(t[i]) >= 0 && digits[i] == HexValue(t[i])
      invariant more <==> count < 4 && count < |t| && HexValue(t[count]) >= 0
      decreases 4 - count
    {
      RestAt(s, pos, count);
      RestAt(s, pos, count + 1);
      digits[count] := HexValue(s[pos + count]);
      count := count + 1;
      more := count < 4 && pos + count < |s| && HexValue(s[pos + count]) >= 0;
    }
    RunEnds(t, count);
    g := t[..count];
  }

  lemma {:induction false} RunEnds(t: string, n: nat)
    requires n <= 4 && n <= |t| && forall i :: 0 <= i < n ==> HexValue(t[i]) >= 0
    requires n == 4 || n == |t| || HexValue(t[n]) < 0
    ensures HexRun(t, 4) == n
  {
    hide HexRun, HexValue;
    var m := HexRun(t, 4);
  }

  /** The value of the digits of the group g. */
  method Combine(ghost g: string, digits: array<nat>, count: nat) returns (v: nat)
    requires 1 <= count == |g| <= 4 == digits.Length
    requires forall i :: 0 <= i < count ==> HexValue(g[i]) >= 0 && digits[i] == HexValue(g[i])
    ensures v == Value(g)
  {
    v := digits[0];
    assert g[..1][..0] == "" && Value(g[..1]) == v;
    var i := 1;
    while i < count
      invariant 1 <= i <= count && v == Value(g[..i])
    {
      assert g[..i + 1][..i] == g[..i];
      v := v * 16 + digits[i];
      i := i + 1;
    }
    assert g[..count] == g;
  }

  lemma SpreadParts(now: seq<nat>, was: seq<nat>, pre: nat, zeros: nat)
    requires |now| == 8 && pre <= |was| && |was| + zeros == 8
    requires forall k :: 0 <= k < pre ==> now[k] == was[k]
    requires forall k :: pre <= k < pre + zeros ==> now[k] == 0
    requires forall k :: pre + zeros <= k < 8 ==> now[k] == was[k - zeros]
    ensures now == was[..pre] + Zeros(zeros) + was[pre..]
  {
    hide Zeros;
  }

  /** Moves the parts after the gap to the end and fills the gap with zeros. */
  method Spread(parts: array<nat>, count: nat, pre: nat)
    requires parts.Length == 8 && pre <= count < 8
    modifies parts
    ensures parts[..] == old(parts[..count])[..pre] + Zeros(8 - count) + old(parts[..count])[pre..]
  {
    hide Zeros;
    ghost var was := parts[..count];
    var post := count - pre;
    var zeros := 8 - pre - post;
    var i := 0;
    while i < post
      invariant i <= post
      invariant forall k :: 8 - i <= k < 8 ==> parts[k] == was[k - zeros]
      invariant forall k :: 0 <= k < count && k < 8 - i ==> parts[k] == was[k]
    {
      parts[7 - i] := parts[7 - zeros - i];
      i := i + 1;
    }
    i := 0;
    while i < zeros
      invariant i <= zeros
      invariant forall k :: pre <= k < pre + i ==> parts[k] == 0
      invariant forall k :: 0 <= k < pre ==> parts[k] == was[k]
      invariant forall k :: pre + zeros <= k < 8 ==> parts[k] == was[k - zeros]
    {
      parts[pre + i] := 0;
      i := i + 1;
    }
    SpreadParts(parts[..], was, pre, zeros);
  }

  // ---------------------------------------------------------------- dotted decimal

  lemma DigitOfHex(c: char)
    ensures IsDigit(c) <==> 0 <= HexValue(c) <= 9
    ensures IsDigit(c) ==> HexValue(c) == c as int - '0' as int
    ensures HexValue(c) == 0 <==> c == '0'
  {
  }

  /** Whether the digits of the group g are a decimal number below 256, and which. */
  method FirstNumber(ghost g: string, digits: array<nat>, count: nat) returns (v: Option<nat>)
    requires 1 <= count == |g| <= 4 == digits.Length
    requires forall i :: 0 <= i < count ==> HexValue(g[i]) >= 0 && digits[i] == HexValue(g[i])
    ensures v == if IsNumber(g) then Some(Decimal(g)) else None
  {
    forall i | 0 <= i < count
      ensures (IsDigit(g[i]) <==> digits[i] <= 9) && (IsDigit(g[i]) ==> digits[i] == g[i] as int - '0' as int)
      ensures digits[i] == 0 <==> g[i] == '0'
    {
      DigitOfHex(g[i]);
    }
    hide HexValue;
    if count > 3 || (count > 1 && digits[0] == 0) {
      return None;
    }
    if digits[0] > 9 || (count > 1 && digits[1] > 9) || (count == 3 && digits[2] > 9) {
      return None;
    }
    assert AreDigits(g);
    var d := digits[0];
    assert g[..1][..0] == "" && Decimal(g[..1]) == d;
    var i := 1;
    while i < count
      invariant 1 <= i <= count && d == Decimal(g[..i])
    {
      assert g[..i + 1][..i] == g[..i];
      d := d * 10 + digits[i];
      i := i + 1;
    }
    assert g[..count] == g;
    if d > 255 {
      return None;
    }
    return Some(d);
  }

  lemma {:induction false} DigitsEnd(t: string, n: nat)
    requires n <= 3 && n <= |t| && forall i :: 0 <= i < n ==> IsDigit(t[i])
    requires n == 3 || n == |t| || !IsDigit(t[n])
    ensures DigitRun(t, 3) == n
  {
    hide DigitRun, IsDigit;
    var m := DigitRun(t, 3);
  }

  /** A number after a dot. */
  method NextNumber(s: string, pos: nat) returns (v: Option<nat>, q: nat)
    requires pos <= |s|
    ensures var t := From(s, pos); var g := t[..DigitRun(t, 3)];
      v == (if IsNumber(g) then Some(Decimal(g)) else None) && q == pos + |g|
  {
    ghost var t := From(s, pos);
    if pos == |s| || !IsDigit(s[pos]) {
      RestAt(s, pos, 0);
      return None, pos;
    }
    RestAt(s, pos, 0);
    hide DigitRun, IsDigit;
    var hasLeadingZero := s[pos] == '0';
    var d := DigitValue(s[pos]);
    assert t[..1][..0] == "" && Decimal(t[..1]) == d;
    var count := 1;
    while count < 3 && pos + count < |s| && IsDigit(s[pos + count])
      invariant 1 <= count <= 3 && pos + count <= |s|
      invariant forall i :: 0 <= i < count ==> IsDigit(t[i])
      invariant d == Decimal(t[..count])
    {
      RestAt(s, pos, count);
      assert t[..count + 1][..count] == t[..count];
      d := d * 10 + DigitValue(s[pos + count]);
      count := count + 1;
    }
    RestAt(s, pos, count);
    DigitsEnd(t, count);
    q := pos + count;
    if d > 255 {
      return None, q;
    }
    if count > 1 && hasLeadingZero {
      return None, q;
    }
    return Some(d), q;
  }

  function DigitValue(c: char): (d: nat)
    requires IsDigit(c)
    ensures d == c as int - '0' as int && d <= 9
  {
    c as int - '0' as int
  }

  /** Numbers that have been read, and how the reading goes on. */
  function Prepend(got: seq<nat>, r: Numbers): Numbers {
    match r
    case Read(rest, values) => Read(rest, got + values)
    case other => other
  }

  lemma ReadOne(u: string, k: nat)
    requires k > 0 && u != "" && u[0] == '.'
    ensures var v := u[1..]; var g := v[..DigitRun(v, 3)];
      ReadNumbers(u, k) == if IsNumber(g) then Prepend([Decimal(g)], ReadNumbers(v[|g|..], k - 1)) else Malformed
  {
    hide IsNumber, Decimal, DigitRun;
  }

  lemma NoDot(s: string, pos: nat, k: nat)
    requires pos <= |s| && k > 0
    ensures pos == |s| ==> ReadNumbers(From(s, pos), k) == Beyond
    ensures pos < |s| && s[pos] != '.' ==> ReadNumbers(From(s, pos), k) == Malformed
  {
    RestAt(s, pos, 0);
    hide From, IsNumber, Decimal, DigitRun;
  }

  lemma AtDot(s: string, pos: nat, k: nat)
    requires pos < |s| && k > 0 && s[pos] == '.'
    ensures var t := From(s, pos + 1); var g := t[..DigitRun(t, 3)];
      ReadNumbers(From(s, pos), k)
        == if IsNumber(g) then Prepend([Decimal(g)], ReadNumbers(From(s, pos + 1 + |g|), k - 1)) else Malformed
  {
    hide From, ReadNumbers, IsNumber, Decimal, DigitRun, Prepend;
    RestAt(s, pos, 0);
    ReadOne(From(s, pos), k);
    RestAt(s, pos, 1);
    RestAt(s, pos + 1, DigitRun(From(s, pos + 1), 3));
  }

  lemma PrependMore(got: seq<nat>, d: nat, r: Numbers)
    ensures Prepend(got, Prepend([d], r)) == Prepend(got + [d], r)
  {
    if r.Read? { Associate(got, [d], r.values); }
  }

  /** from_string ends when the numbers do not go on as `r` says, at the end of the string or because something
      else stands there; otherwise they went as `ok` says. */
  ghost predicate Went(stop: Option<Parsed>, r: Numbers, ok: Numbers) {
    match stop
    case None => r == ok
    case Some(p) => (p == Overrun && r == Beyond) || (p == Invalid && r == Malformed)
  }

  /** One more number, with the dot before it. */
  method NumberAfterDot(s: string, pos: nat, ghost k: nat) returns (stop: Option<Parsed>, d: nat, q: nat)
    requires pos <= |s| && k > 0
    ensures q <= |s| && Went(stop, ReadNumbers(From(s, pos), k), Prepend([d], ReadNumbers(From(s, q), k - 1)))
  {
    hide From, ReadNumbers, IsNumber, Decimal, DigitRun, Prepend;
    NoDot(s, pos, k);
    if pos < |s| && s[pos] == '.' { AtDot(s, pos, k); }
    stop, d, q := None, 0, pos;
    if pos == |s| {
      stop := Some(Overrun);     // s[pos] is read
    } else if s[pos] != '.' {
      stop := Some(Invalid);
    } else {
      var v;
      v, q := NextNumber(s, pos + 1);
      if v.None? {
        stop := Some(Invalid);
      } else {
        d := v.value;
      }
    }
  }

  /** The three numbers after the first one. */
  method ReadRest(s: string, pos: nat, bytes: array<nat>) returns (stop: Option<Parsed>, next: nat)
    requires pos <= |s| && bytes.Length == 4
    modifies bytes
    ensures bytes[0] == old(bytes[0]) && next <= |s|
    ensures Went(stop, ReadNumbers(From(s, pos), 3), Read(From(s, next), bytes[1..]))
  {
    hide From, ReadNumbers, Prepend, Went;
    stop, next := None, pos;
    var i := 1;
    ghost var all, got := ReadNumbers(From(s, pos), 3), [];
    NothingBefore(all);
    while i < 4
      invariant 1 <= i <= 4 && next <= |s| && bytes[0] == old(bytes[0]) && stop.None?
      invariant |got| == i - 1 && forall k :: 0 <= k < i - 1 ==> got[k] == bytes[k + 1]
      invariant all == Prepend(got, ReadNumbers(From(s, next), 4 - i))
    {
      ghost var r := ReadNumbers(From(s, next), 4 - i);
      var d;
      stop, d, next := NumberAfterDot(s, next, 4 - i);
      WentOn(stop, got, d, r, ReadNumbers(From(s, next), 3 - i));
      if stop.Some? {
        return;
      }
      bytes[i] := d;
      got := got + [d];
      i := i + 1;
    }
    NothingLeft(got, From(s, next));
    assert got == bytes[1..];
    StillWent(all);
  }

  lemma StillWent(r: Numbers)
    ensures Went(None, r, r)
  {
  }

  lemma WentOn(stop: Option<Parsed>, got: seq<nat>, d: nat, r: Numbers, further: Numbers)
    requires Went(stop, r, Prepend([d], further))
    ensures stop.None? ==> Prepend(got, r) == Prepend(got + [d], further)
    ensures stop.Some? ==> forall ok :: Went(stop, Prepend(got, r), ok)
  {
    PrependMore(got, d, further);
  }

  lemma NothingLeft(got: seq<nat>, u: string)
    ensures Prepend(got, ReadNumbers(u, 0)) == Read(u, got)
  {
    assert got + [] == got;
  }

  lemma NothingBefore(r: Numbers)
    ensures Prepend([], r) == r
  {
    if r.Read? { assert [] + r.values == r.values; }
  }

  /** What from_string does when a scan ends as r says. */
  ghost predicate Ends(stop: Option<Parsed>, r: Scan) { stop.Some? && !r.Stop? && stop.value == Finish(r) }

  lemma QuadEnds(stop: Option<Parsed>, g: string, u: string, rest: string, bytes: seq<nat>, parts: seq<nat>, gap: Option<nat>)
    requires IsNumber(g) && |parts| <= 6 && |bytes| == 4 && bytes[0] == Decimal(g)
    requires Went(stop, ReadNumbers(u, 3), Read(rest, bytes[1..]))
    ensures var r := ScanQuad(g, u, parts, gap);
      if stop.Some? then Ends(stop, r) else r == Stop(rest, parts + QuadParts(bytes), gap)
  {
    hide IsNumber, Decimal, ReadNumbers;
    assert bytes == [bytes[0]] + bytes[1..];
  }

  /** The dotted-decimal branch, from the first dot on. */
  method ReadQuad(s: string, pos: nat, ghost g: string, digits: array<nat>, n: nat, parts: array<nat>, count: nat,
                  ghost gap: Option<nat>)
    returns (stop: Option<Parsed>, next: nat)
    requires pos <= |s| && 1 <= n == |g| <= 4 == digits.Length
    requires forall i :: 0 <= i < n ==> HexValue(g[i]) >= 0 && digits[i] == HexValue(g[i])
    requires count < 8 == parts.Length && digits != parts
    modifies parts
    ensures next <= |s|
    ensures var r := ScanQuad(g, From(s, pos), old(parts[..count]), gap);
      if stop.Some? then Ends(stop, r) else count + 2 <= 8 && r == Stop(From(s, next), parts[..count + 2], gap)
  {
    hide From;
    ghost var before := parts[..count];
    stop, next := None, pos;
    var first := FirstNumber(g, digits, n);
    hide IsNumber, Decimal, ReadNumbers, HexValue, QuadParts;
    if count > 6 || first.None? {
      return Some(Invalid), next;
    }
    hide ScanQuad;
    var bytes := new nat[4];
    bytes[0] := first.value;
    stop, next := ReadRest(s, pos, bytes);
    QuadEnds(stop, g, From(s, pos), From(s, next), bytes[..], before, gap);
    if stop.None? {
      StoreQuad(bytes, parts, count);
    }
  }

  method StoreQuad(bytes: array<nat>, parts: array<nat>, count: nat)
    requires bytes.Length == 4 && count <= 6 && parts.Length == 8 && bytes != parts
    modifies parts
    ensures parts[..count + 2] == old(parts[..count]) + QuadParts(bytes[..])
  {
    parts[count] := 256 * bytes[0] + bytes[1];
    parts[count + 1] := 256 * bytes[2] + bytes[3];
  }

  // ---------------------------------------------------------------- the main loop

  /** The separator after the group g, at position q if the string goes on.  `stop` is Some when from_string
      returns at once. */
  method Separator(s: string, q: nat, ghost g: string, ghost parts: seq<nat>, count: nat, gap: Option<nat>)
    returns (stop: Option<Parsed>, dot: bool, next: nat, newGap: Option<nat>)
    requires q <= |s| && IsGroup(g) && |parts| == count && (gap.Some? ==> gap.value <= count)
    ensures q <= next <= |s| && (newGap.Some? ==> newGap.value <= count + 1)
    ensures var r := Onward(g, From(s, q), parts, gap);
      if stop.Some? then Ends(stop, r)
      else if dot then r == ScanQuad(g, From(s, q), parts, gap) && newGap == gap
      else r == ScanFrom(From(s, next), parts + [Value(g)], newGap)
  {
    hide From, ScanFrom, ScanQuad, Value, HexValue;
    stop, dot, next, newGap := None, false, q, gap;
    RestAt(s, q, 0);
    if next < |s| {
      if next + 1 == |s| {
        return Some(Invalid), dot, next, newGap;
      }
      RestAt(s, q, 1);
      if s[next] == ':' {
        next := next + 1;
        if s[next] == ':' {
          if gap.Some? {
            return Some(Invalid), dot, next, newGap;
          }
          RestAt(s, q, 2);
          newGap, next := Some(count + 1), next + 1;
        }
      } else if s[next] == '.' {
        dot := true;
      } else {
        return Some(Invalid), dot, next, newGap;
      }
    }
  }

  /** One turn of the main loop: a group and the separator after it, or the rest of the string when that is in
      dotted decimal notation. */
  method ReadGroup(s: string, pos: nat, parts: array<nat>, ghost before: seq<nat>, count: nat, gap: Option<nat>)
    returns (stop: Option<Parsed>, last: bool, next: nat, newCount: nat, newGap: Option<nat>)
    requires pos < |s| && count < 8 == parts.Length && (gap.Some? ==> gap.value <= count)
    requires before == parts[..count]
    modifies parts
    ensures next <= |s| && (newGap.Some? ==> newGap.value <= newCount)
    ensures var r := ScanFrom(From(s, pos), before, gap);
      if stop.Some? then Ends(stop, r)
      else count < newCount <= 8 && Onto(last, r, From(s, next), parts[..newCount], newGap)
  {
    hide From, ScanFrom, Onward, Ends, Onto, Value, HexRun, HexValue;
    if HexValue(s[pos]) < 0 {
      NoDigit(s, pos, before, gap);
      stop, last, next, newCount, newGap := Some(Invalid), false, pos, count, gap;
      return;
    }
    var digits := new nat[4];
    var n, g := ReadDigits(s, pos, digits);
    GroupAt(s, pos, before, gap, n);
    stop, last, next, newCount, newGap := FinishGroup(s, pos + n, g, digits, n, parts, before, count, gap);
  }

  lemma GroupAt(s: string, pos: nat, parts: seq<nat>, gap: Option<nat>, n: nat)
    requires pos < |s| && |parts| < 8 && n == HexRun(From(s, pos), 4) && n > 0
    ensures pos + n <= |s| && IsGroup(From(s, pos)[..n])
    ensures ScanFrom(From(s, pos), parts, gap) == Onward(From(s, pos)[..n], From(s, pos + n), parts, gap)
  {
    hide From, ScanFrom, Onward, HexRun;
    ScanOnward(From(s, pos), parts, gap, n);
    RestAt(s, pos, n);
  }

  /** How the main loop goes on after a turn. */
  ghost predicate Onto(last: bool, r: Scan, rest: string, parts: seq<nat>, gap: Option<nat>) {
    r == if last then Stop(rest, parts, gap) else ScanFrom(rest, parts, gap)
  }

  /** The end of a turn, from the position q after the group g. */
  method FinishGroup(s: string, q: nat, ghost g: string, digits: array<nat>, n: nat, parts: array<nat>,
                     ghost before: seq<nat>, count: nat, gap: Option<nat>)
    returns (stop: Option<Parsed>, last: bool, next: nat, newCount: nat, newGap: Option<nat>)
    requires q <= |s| && 1 <= n == |g| <= 4 == digits.Length && IsGroup(g)
    requires forall i :: 0 <= i < n ==> HexValue(g[i]) >= 0 && digits[i] == HexValue(g[i])
    requires count < 8 == parts.Length && digits != parts && (gap.Some? ==> gap.value <= count)
    requires before == parts[..count]
    modifies parts
    ensures next <= |s| && (newGap.Some? ==> newGap.value <= newCount)
    ensures var r := Onward(g, From(s, q), before, gap);
      if stop.Some? then Ends(stop, r)
      else count < newCount <= 8 && Onto(last, r, From(s, next), parts[..newCount], newGap)
  {
    var v := Combine(g, digits, n);
    hide From, ScanFrom, Onward, Ends, Value, ScanQuad, HexValue;
    newCount := count + 1;
    stop, last, next, newGap := Separator(s, q, g, before, count, gap);
    if stop.Some? {
      return;
    }
    if last {
      newCount := count + 2;
      stop, next := ReadQuad(s, q, g, digits, n, parts, count, gap);
    } else {
      parts[count] := v;
      assert parts[..count + 1] == before + [v];
    }
  }

  lemma NoDigit(s: string, pos: nat, parts: seq<nat>, gap: Option<nat>)
    requires pos < |s| && |parts| < 8 && HexValue(s[pos]) < 0
    ensures Ends(Some(Invalid), ScanFrom(From(s, pos), parts, gap))
  {
    RestAt(s, pos, 0);
    hide HexValue;
  }

  /** from_string: an address exactly for its text forms. */
  method FromString(s: string) returns (r: Parsed)
    ensures r == Parse(s)
    ensures forall a :: r == Address(a) <==> TextForm(s, a)
  {
    forall a ensures Parse(s) == Address(a) <==> TextForm(s, a) { ParseExact(s, a); }
    hide TextForm;
    r := ReadAll(s);
  }

  method ReadAll(s: string) returns (r: Parsed)
    ensures r == Parse(s)
  {
    if |s| == 0 || |s| > MAX_LENGTH {
      return Invalid;
    }
    var gap: Option<nat> := None;
    var pos: nat := 0;
    if |s| >= 2 && s[0] == ':' && s[1] == ':' {
      gap, pos := Some(0), 2;
    }
    assert From(s, 0) == s;
    assert Parse(s) == Finish(ScanFrom(From(s, pos), [], gap));
    hide Parse, From, ScanFrom, Finish, Ends;
    var parts := new nat[8](_ => 0);
    var stop, next, count, newGap := MainLoop(s, pos, gap, parts);
    EndsHere(stop, ScanFrom(From(s, pos), [], gap));
    if stop.Some? {
      return stop.value;
    }
    r := FinishParts(From(s, next), next < |s|, parts, count, newGap);
  }

  lemma EndsHere(stop: Option<Parsed>, r: Scan)
    ensures Ends(stop, r) ==> stop.Some? && stop.value == Finish(r)
  {
  }

  lemma LoopEnds(last: bool, r: Scan, rest: string, parts: seq<nat>, gap: Option<nat>)
    requires Onto(last, r, rest, parts, gap) && (last || rest == "" || |parts| >= 8)
    ensures r == Stop(rest, parts, gap)
  {
  }

  lemma LoopStarts(r: Scan, rest: string, parts: seq<nat>, gap: Option<nat>)
    requires r == ScanFrom(rest, parts, gap)
    ensures Onto(false, r, rest, parts, gap)
  {
  }

  method MainLoop(s: string, start: nat, first: Option<nat>, parts: array<nat>)
    returns (stop: Option<Parsed>, pos: nat, count: nat, gap: Option<nat>)
    requires start <= |s| && parts.Length == 8 && (first.Some? ==> first.value == 0)
    modifies parts
    ensures pos <= |s| && (gap.Some? ==> gap.value <= count)
    ensures var r := ScanFrom(From(s, start), [], first);
      if stop.Some? then Ends(stop, r) else count <= 8 && r == Stop(From(s, pos), parts[..count], gap)
  {
    hide From, ScanFrom, Ends, Onto;
    stop, pos, count, gap := None, start, 0, first;
    ghost var r := ScanFrom(From(s, start), [], first);
    assert parts[..0] == [];
    LoopStarts(r, From(s, start), [], first);
    var last := false;
    while !last && pos < |s| && count < 8
      invariant stop.None? && count <= 8 && pos <= |s| && (gap.Some? ==> gap.value <= count)
      invariant Onto(last, r, From(s, pos), parts[..count], gap)
      decreases 8 - count, !last
    {
      NotYet(r, From(s, pos), parts[..count], gap);
      stop, last, pos, count, gap := ReadGroup(s, pos, parts, parts[..count], count, gap);
      if stop.Some? {
        return;
      }
    }
    LoopEnds(last, r, From(s, pos), parts[..count], gap);
  }

  lemma NotYet(r: Scan, rest: string, parts: seq<nat>, gap: Option<nat>)
    requires Onto(false, r, rest, parts, gap)
    ensures r == ScanFrom(rest, parts, gap)
  {
  }

  /** Everything must have been read, and the parts spread around the "::" if there is one. */
  method FinishParts(ghost rest: string, more: bool, parts: array<nat>, count: nat, gap: Option<nat>) returns (r: Parsed)
    requires (more <==> rest != "") && count <= 8 == parts.Length && (gap.Some? ==> gap.value <= count)
    modifies parts
    ensures r == Finish(Stop(rest, old(parts[..count]), gap))
  {
    if more {
      return Invalid;
    }
    if count < 8 {
      if gap.None? {
        return Invalid;
      }
      Spread(parts, count, gap.value);
    } else if gap.Some? {
      return Invalid;
    }
    return Address(parts[..]);
  }
}
