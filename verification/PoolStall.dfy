/** For any pool of two or more workers, a run that ends with every thread asleep and an operation still
    queued; hence the exact pool size for which nothing is ever stranded. */
module PoolStall {
  import opened Pool
  import D = Deque
  import G = GlobalQueue
  import Waiters
  import PoolProofs

  ghost predicate Steps(s: State, acts: seq<Action>, t: State)
    decreases |acts|
  {
    if acts == [] then s == t else Enabled(s, acts[0]) && Steps(Apply(s, acts[0]), acts[1..], t)
  }

  lemma {:induction false} StepsJoin(s: State, a: seq<Action>, m: State, b: seq<Action>, t: State)
    requires Steps(s, a, m) && Steps(m, b, t)
    ensures Steps(s, a + b, t)
    decreases |a|
  {
    hide Enabled, Apply;
    if a == [] {
      assert a + b == b;
    } else {
      StepsJoin(Apply(s, a[0]), a[1..], m, b, t);
      assert (a + b)[1..] == a[1..] + b && (a + b)[0] == a[0];
    }
  }

  lemma {:induction false} StepsMakeRun(s: State, acts: seq<Action>, t: State) returns (trace: seq<State>)
    requires Steps(s, acts, t)
    ensures |trace| == |acts| + 1 && trace[0] == s && trace[|acts|] == t
    ensures forall k :: 0 <= k < |acts| ==> Enabled(trace[k], acts[k]) && trace[k + 1] == Apply(trace[k], acts[k])
    decreases |acts|
  {
    hide Enabled, Apply;
    if acts == [] {
      trace := [s];
    } else {
      var rest := StepsMakeRun(Apply(s, acts[0]), acts[1..], t);
      trace := [s] + rest;
      forall k | 0 <= k < |acts| ensures Enabled(trace[k], acts[k]) && trace[k + 1] == Apply(trace[k], acts[k]) {
        if k > 0 { assert trace[k] == rest[k - 1] && acts[k] == acts[1..][k - 1]; }
      }
    }
  }

  lemma Do(s: State, acts: seq<Action>, m: State, a: Action, t: State) returns (more: seq<Action>)
    requires Steps(s, acts, m) && Enabled(m, a) && t == Apply(m, a)
    ensures more == acts + [a] && Steps(s, more, t)
  {
    hide Enabled, Apply;
    assert [a][1..] == [];
    assert Steps(Apply(m, a), [], t);
    assert Steps(m, [a], t);
    StepsJoin(s, acts, m, [a], t);
    more := acts + [a];
  }

  lemma Join(s: State, a: seq<Action>, m: State, b: seq<Action>, t: State) returns (more: seq<Action>)
    requires Steps(s, a, m) && Steps(m, b, t)
    ensures Steps(s, more, t)
  {
    StepsJoin(s, a, m, b, t);
    more := a + b;
  }

  // ---------------------------------------------------------------- recurring stretches

  lemma Start(s: State) returns (acts: seq<Action>)
    ensures Steps(s, acts, s)
  {
    acts := [];
  }

  predicate Empty(d: D.State) { d.holder.Free? && d.head == d.tail && |d.buf| > 0 }

  predicate NothingGlobal(g: G.State) { g.tail == [] && g.head == [] && g.mutex.Unlocked? }

  /** Nothing in the global queue, and from deque i on nothing for worker w to find. */
  ghost predicate NothingFrom(s: State, w: nat, i: nat) {
    && Sized(s) && w < |s.workers| && NothingGlobal(s.global)
    && forall j :: i <= j < |s.deques| && j != w ==> Empty(s.deques[j])
  }

  /** tryGetRemote finds the global queue empty. */
  lemma MissesGlobal(s: State, w: nat) returns (acts: seq<Action>)
    requires Sized(s) && w < |s.workers| && NothingGlobal(s.global)
    requires s.workers[w].Getting? && s.workers[w].get == FromGlobal
    ensures Steps(s, acts, Put(s, w, StealFrom(|s.workers|, w, s.workers[w].mode, 0, false, false)))
  {
    hide Steps, StealFrom;
    var go, g := ByWorker(w, Go), s.global;
    acts := Start(s);
    var s1 := s.(global := g.(mutex := G.HeldBy(w, G.Entered)));
    assert Apply(s, go) == s1 by { assert Apply(s, go).workers == s.workers; }
    acts := Do(s, acts, s, go, s1);
    var s2 := s.(global := g.(mutex := G.HeldBy(w, G.SawNoHead)));
    assert Apply(s1, go) == s2 by { assert Apply(s1, go).workers == s.workers; }
    acts := Do(s, acts, s1, go, s2);
    acts := Do(s, acts, s2, go, Put(s, w, StealFrom(|s.workers|, w, s.workers[w].mode, 0, false, false)));
  }

  /** try_steal finds deque v empty. */
  lemma StealsNothing(s: State, w: nat, v: nat) returns (acts: seq<Action>)
    requires Sized(s) && w < |s.workers| && v < |s.deques| && Empty(s.deques[v])
    requires s.workers[w].Getting? && s.workers[w].get == StealAt(v, false, false)
    ensures Steps(s, acts, Put(s, w, StealFrom(|s.workers|, w, s.workers[w].mode, v + 1, false, false)))
  {
    hide Steps, StealFrom;
    var go, mode := ByWorker(w, Go), s.workers[w].mode;
    var d := s.deques[v];
    acts := Start(s);
    var s1 := Put(PutDeque(s, v, d.(holder := D.ByThief(w, D.Entered))), w, Getting(mode, Stealing(v, false, false)));
    acts := Do(s, acts, s, go, s1);
    var s2 := PutDeque(s1, v, d.(holder := D.ByThief(w, D.TailSeen(d.tail))));
    assert Apply(s1, go) == s2 by { assert Apply(s1, go).workers == s1.workers; }
    acts := Do(s, acts, s1, go, s2);
    var s3 := Put(s, w, StealFrom(|s.workers|, w, mode, v + 1, false, false));
    assert Apply(s2, go) == s3 by { assert Apply(s2, go).deques == s.deques; }
    acts := Do(s, acts, s2, go, s3);
  }

  /** The search goes through all the deques from i on. */
  lemma {:induction false} SearchesInVain(s: State, w: nat, mode: Mode, i: nat) returns (acts: seq<Action>)
    requires NothingFrom(s, w, i) && s.workers[w] == StealFrom(|s.workers|, w, mode, i, false, false)
    ensures Steps(s, acts, Put(s, w, AfterNone(mode)))
    decreases |s.workers| - i
  {
    hide Steps, AfterNone;
    var n, v := |s.workers|, Other(w, i);
    if v < n {
      acts := StealsNothing(s, w, v);
      var m := Put(s, w, StealFrom(n, w, mode, v + 1, false, false));
      var b := SearchesInVain(m, w, mode, v + 1);
      assert Put(m, w, AfterNone(mode)) == Put(s, w, AfterNone(mode));
      acts := Join(s, acts, m, b, Put(s, w, AfterNone(mode)));
    } else {
      acts := Start(s);
      assert Put(s, w, AfterNone(mode)) == s;
    }
  }

  lemma GetsNothing(s: State, w: nat, mode: Mode) returns (acts: seq<Action>)
    requires NothingFrom(s, w, 0) && s.workers[w] == Getting(mode, FromGlobal)
    ensures Steps(s, acts, Put(s, w, AfterNone(mode)))
  {
    hide Steps, AfterNone, StealFrom;
    acts := MissesGlobal(s, w);
    var m := Put(s, w, StealFrom(|s.workers|, w, mode, 0, false, false));
    var b := SearchesInVain(m, w, mode, 0);
    assert Put(m, w, AfterNone(mode)) == Put(s, w, AfterNone(mode));
    acts := Join(s, acts, m, b, Put(s, w, AfterNone(mode)));
  }

  /** Seeing its own deque as empty, a worker turns to the others. */
  lemma PopsNothing(s: State, w: nat) returns (acts: seq<Action>)
    requires Sized(s) && w < |s.workers| && s.workers[w].Top?
    requires var d := s.deques[w]; d.owner.Idle? && |d.buf| > 0 && d.head <= d.tail
    ensures var d := s.deques[w];
      Steps(s, acts, Put(PutDeque(s, w, d.(missed := d.q != [])), w, Getting(AfterPop, FromGlobal)))
  {
    hide Steps;
    var d := s.deques[w];
    acts := Start(s);
    acts := Do(s, acts, s, ByWorker(w, Go),
      Put(PutDeque(s, w, d.(missed := d.q != [])), w, Getting(AfterPop, FromGlobal)));
  }

  /** A worker that has run out of work ends up spinning. */
  lemma RunsOut(s: State, w: nat) returns (acts: seq<Action>)
    requires NothingFrom(s, w, 0) && s.workers[w].Top?
    requires var d := s.deques[w]; d.owner.Idle? && |d.buf| > 0 && d.head <= d.tail
    ensures var d := s.deques[w];
      Steps(s, acts, Put(PutDeque(s, w, d.(missed := d.q != [])), w, Spin))
  {
    hide Steps;
    acts := PopsNothing(s, w);
    var e := PutDeque(s, w, s.deques[w].(missed := s.deques[w].q != []));
    var m := Put(e, w, Getting(AfterPop, FromGlobal));
    var b := GetsNothing(m, w, AfterPop);
    assert Put(m, w, Spin) == Put(e, w, Spin);
    acts := Join(s, acts, m, b, Put(e, w, Spin));
  }

  /** Raising a flag that was down, and counting oneself. */
  lemma Announces(s: State, w: nat) returns (acts: seq<Action>)
    requires Sized(s) && w < |s.workers| && s.workers[w].Spin? && !s.flags[w]
    ensures Steps(s, acts, Put(s.(flags := s.flags[w := true], count := s.count + 1), w, Checking(LookTail)))
  {
    hide Steps;
    var m := Put(s.(flags := s.flags[w := true]), w, Notified);
    acts := Start(s);
    acts := Do(s, acts, s, ByWorker(w, Rest), m);
    acts := Do(s, acts, m, ByWorker(w, Go),
      Put(s.(flags := s.flags[w := true], count := s.count + 1), w, Checking(LookTail)));
  }

  /** has_any_queued_work_for finds the global queue empty. */
  lemma ChecksGlobal(s: State, w: nat) returns (acts: seq<Action>)
    requires Sized(s) && w < |s.workers| && NothingGlobal(s.global) && s.workers[w] == Checking(LookTail)
    ensures Steps(s, acts, Put(s, w, CheckFrom(|s.workers|, w, 0)))
  {
    hide Steps, CheckFrom;
    var go := ByWorker(w, Go);
    acts := Start(s);
    var s1 := Put(s, w, Checking(LookHead));
    acts := Do(s, acts, s, go, s1);
    acts := Do(s, acts, s1, go, Put(s, w, CheckFrom(|s.workers|, w, 0)));
  }

  /** What the look into deque v tells. */
  lemma Looks(s: State, w: nat, v: nat) returns (acts: seq<Action>)
    requires Sized(s) && w < |s.workers| && v < |s.deques| && s.workers[w] == Checking(LookAt(v))
    requires s.deques[v].holder.Free? && |s.deques[v].buf| > 0
    ensures Steps(s, acts, Put(s, w,
      if s.deques[v].head > s.deques[v].tail then Getting(Sleepy, FromGlobal) else CheckFrom(|s.workers|, w, v + 1)))
  {
    hide Steps, CheckFrom;
    var go, d := ByWorker(w, Go), s.deques[v];
    acts := Start(s);
    var s1 := Put(PutDeque(s, v, d.(holder := D.ByThief(w, D.Entered))), w, Checking(LookingIn(v)));
    acts := Do(s, acts, s, go, s1);
    var s2 := PutDeque(s1, v, d.(holder := D.ByThief(w, D.TailSeen(d.tail))));
    acts := Do(s, acts, s1, go, s2);
    var s3 := Put(s, w, if d.head > d.tail then Getting(Sleepy, FromGlobal) else CheckFrom(|s.workers|, w, v + 1));
    assert Apply(s2, go) == s3 by { assert Apply(s2, go).deques == s.deques; }
    acts := Do(s, acts, s2, go, s3);
  }

  lemma {:induction false} LooksInVain(s: State, w: nat, i: nat) returns (acts: seq<Action>)
    requires NothingFrom(s, w, i) && s.workers[w] == CheckFrom(|s.workers|, w, i)
    ensures Steps(s, acts, Put(s, w, AtWait))
    decreases |s.workers| - i
  {
    hide Steps;
    var n, v := |s.workers|, Other(w, i);
    if v < n {
      acts := Looks(s, w, v);
      var m := Put(s, w, CheckFrom(n, w, v + 1));
      var b := LooksInVain(m, w, v + 1);
      assert Put(m, w, AtWait) == Put(s, w, AtWait);
      acts := Join(s, acts, m, b, Put(s, w, AtWait));
    } else {
      acts := Start(s);
      assert Put(s, w, AtWait) == s;
    }
  }

  /** has_any_queued_work_for finds nothing. */
  lemma ChecksNothing(s: State, w: nat) returns (acts: seq<Action>)
    requires NothingFrom(s, w, 0) && s.workers[w] == Checking(LookTail)
    ensures Steps(s, acts, Put(s, w, AtWait))
  {
    hide Steps, CheckFrom;
    acts := ChecksGlobal(s, w);
    var m := Put(s, w, CheckFrom(|s.workers|, w, 0));
    var b := LooksInVain(m, w, 0);
    assert Put(m, w, AtWait) == Put(s, w, AtWait);
    acts := Join(s, acts, m, b, Put(s, w, AtWait));
  }

  /** Spinning with the flag down, a worker announces itself, finds nothing and blocks. */
  lemma Sleeps(s: State, w: nat) returns (acts: seq<Action>)
    requires NothingFrom(s, w, 0) && s.workers[w].Spin? && !s.flags[w]
    ensures Steps(s, acts, Put(s.(flags := s.flags[w := true], count := s.count + 1), w, AtWait))
  {
    hide Steps;
    var e := s.(flags := s.flags[w := true], count := s.count + 1);
    var m := Put(e, w, Checking(LookTail));
    acts := Announces(s, w);
    var b := ChecksNothing(m, w);
    assert Put(m, w, AtWait) == Put(e, w, AtWait);
    acts := Join(s, acts, m, b, Put(e, w, AtWait));
  }

  /** A client pushes an operation and claims a wake-up, but has not yet looked for a flag. */
  lemma ClientClaims(s: State, op: Op) returns (acts: seq<Action>, t: State)
    requires NothingGlobal(s.global) && s.count > 0
    ensures Steps(s, acts, t)
    ensures t == s.(global := s.global.(tail := [op], pushed := s.global.pushed + [op]), count := s.count - 1,
      clients := s.clients + [ClientWaking(Scan(0))])
  {
    hide Steps;
    var c, g := |s.clients|, s.global.(tail := [op], pushed := s.global.pushed + [op]);
    acts := Start(s);
    var s1 := s.(clients := s.clients + [Pushing(op)]);
    acts := Do(s, acts, s, NewClient(op), s1);
    var s2 := s.(global := g, clients := s.clients + [ClientWaking(ReadCount)]);
    assert Apply(s1, ByClient(c)) == s2 by { assert s1.clients[c := ClientWaking(ReadCount)] == s2.clients; }
    acts := Do(s, acts, s1, ByClient(c), s2);
    var s3 := s2.(clients := s.clients + [ClientWaking(Claim(s.count))]);
    assert Apply(s2, ByClient(c)) == s3 by { assert s2.clients[c := ClientWaking(Claim(s.count))] == s3.clients; }
    acts := Do(s, acts, s2, ByClient(c), s3);
    t := s2.(count := s.count - 1, clients := s.clients + [ClientWaking(Scan(0))]);
    assert Apply(s3, ByClient(c)) == t by { assert s3.clients[c := ClientWaking(Scan(0))] == t.clients; }
    acts := Do(s, acts, s3, ByClient(c), t);
  }

  /** The only operation of the global queue. */
  lemma GetsTheOnly(s: State, w: nat, mode: Mode, op: Op) returns (acts: seq<Action>, g: G.State)
    requires Sized(s) && w < |s.workers| && s.workers[w] == Getting(mode, FromGlobal)
    requires s.global.tail == [op] && s.global.head == [] && s.global.mutex.Unlocked?
    ensures Steps(s, acts, Put(s.(global := g), w, AfterOp(mode, op))) && NothingGlobal(g)
  {
    hide Steps, AfterOp;
    var go := ByWorker(w, Go);
    acts := Start(s);
    var s1 := s.(global := s.global.(mutex := G.HeldBy(w, G.Entered)));
    assert Apply(s, go) == s1 by { assert Apply(s, go).workers == s.workers; }
    acts := Do(s, acts, s, go, s1);
    var s2 := s.(global := s.global.(mutex := G.HeldBy(w, G.SawNoHead)));
    assert Apply(s1, go) == s2 by { assert Apply(s1, go).workers == s.workers; }
    acts := Do(s, acts, s1, go, s2);
    var s3 := s.(global := s.global.(mutex := G.HeldBy(w, G.SawTail)));
    assert Apply(s2, go) == s3 by { assert Apply(s2, go).workers == s.workers; }
    acts := Do(s, acts, s2, go, s3);
    var b;
    b, g := TakesTheOnly(s3, w, mode, op);
    acts := Join(s, acts, s3, b, Put(s.(global := g), w, AfterOp(mode, op)));
  }

  lemma TakesTheOnly(s: State, w: nat, mode: Mode, op: Op) returns (acts: seq<Action>, g: G.State)
    requires Sized(s) && w < |s.workers| && s.workers[w] == Getting(mode, FromGlobal)
    requires s.global.tail == [op] && s.global.head == [] && s.global.mutex == G.HeldBy(w, G.SawTail)
    ensures Steps(s, acts, Put(s.(global := g), w, AfterOp(mode, op))) && NothingGlobal(g)
  {
    hide Steps, AfterOp;
    var go := ByWorker(w, Go);
    acts := Start(s);
    var s1 := s.(global := s.global.(tail := [], mutex := G.HeldBy(w, G.Have([op]))));
    assert Waiters.Reverse([op]) == [op];
    assert Apply(s, go) == s1 by { assert Apply(s, go).workers == s.workers; }
    acts := Do(s, acts, s, go, s1);
    g := G.Apply(s1.global, G.StoreHead);
    acts := Do(s, acts, s1, go, Put(s.(global := g), w, AfterOp(mode, op)));
  }

  // ---------------------------------------------------------------- before the run proper

  /** Workers 2 to k - 1 sleep; the others have not begun. */
  ghost predicate Before(s: State, n: nat, k: nat, count: int) {
    && Sized(s) && 2 <= k <= n == |s.workers| && NothingGlobal(s.global) && s.count == count
    && (forall w :: 0 <= w < n ==> D.Init(s.deques[w]) && !s.events[w] && s.flags[w] == (2 <= w < k))
    && (forall w :: 0 <= w < n ==> s.workers[w] == if 2 <= w < k then AtWait else Top)
  }

  lemma OneSleeps(s: State, n: nat, k: nat) returns (acts: seq<Action>, t: State)
    requires Before(s, n, k, k - 2) && k < n
    ensures Steps(s, acts, t) && Before(t, n, k + 1, k - 1) && t.clients == s.clients
  {
    hide Steps;
    acts := RunsOut(s, k);
    var m := Put(s, k, Spin);
    assert s.deques[k := s.deques[k].(missed := s.deques[k].q != [])] == s.deques;
    var b := Sleeps(m, k);
    t := Put(s.(flags := s.flags[k := true], count := s.count + 1), k, AtWait);
    assert Put(m.(flags := s.flags[k := true], count := s.count + 1), k, AtWait) == t;
    acts := Join(s, acts, m, b, t);
  }

  lemma {:induction false} AllSleep(s: State, n: nat, k: nat) returns (acts: seq<Action>, t: State)
    requires k <= n && Before(s, n, k, k - 2)
    ensures Steps(s, acts, t) && Before(t, n, n, n - 2) && t.clients == s.clients
    decreases n - k
  {
    hide Steps, Before;
    if k == n {
      t := s;
      acts := Start(s);
    } else {
      var m, b;
      acts, m := OneSleeps(s, n, k);
      b, t := AllSleep(m, n, k + 1);
      acts := Join(s, acts, m, b, t);
    }
  }

  /** Every client has a claimed wake-up and is about to look at flag 0, or is done, from j on. */
  predicate Parked(clients: seq<Client>, j: nat) {
    && j <= |clients|
    && forall c :: 0 <= c < |clients| ==> clients[c] == if c < j then ClientWaking(Scan(0)) else Done
  }

  /** A worker resumes the operation in its hand, which does nothing. */
  lemma RunsToEnd(s: State, w: nat) returns (acts: seq<Action>)
    requires Sized(s) && w < |s.workers| && s.workers[w].Starting?
    ensures Steps(s, acts, Put(s.(resumed := s.resumed + [s.workers[w].op]), w, Top))
  {
    hide Steps;
    var m := Put(s.(resumed := s.resumed + [s.workers[w].op]), w, Running);
    acts := Start(s);
    acts := Do(s, acts, s, ByWorker(w, Go), m);
    acts := Do(s, acts, m, ByWorker(w, Finish), Put(s.(resumed := s.resumed + [s.workers[w].op]), w, Top));
  }

  /** Worker 0 runs the operation of a client that has claimed the wake-up of another worker. */
  lemma OneClaims(s: State, n: nat) returns (acts: seq<Action>, t: State)
    requires s.count > 0 && Before(s, n, n, s.count) && Parked(s.clients, |s.clients|)
    ensures Steps(s, acts, t) && Before(t, n, n, s.count - 1) && Parked(t.clients, |t.clients|)
  {
    hide Steps;
    var s1, g, b;
    acts, s1 := ClientClaims(s, 1);
    b := PopsNothing(s1, 0);
    var s2 := Put(s1, 0, Getting(AfterPop, FromGlobal));
    assert s1.deques[0 := s1.deques[0].(missed := s1.deques[0].q != [])] == s1.deques;
    acts := Join(s, acts, s1, b, s2);
    b, g := GetsTheOnly(s2, 0, AfterPop, 1);
    var s3 := Put(s2.(global := g), 0, Starting(1));
    acts := Join(s, acts, s2, b, s3);
    b := RunsToEnd(s3, 0);
    t := s1.(global := g, resumed := s1.resumed + [1]);
    assert Put(s3.(resumed := s1.resumed + [1]), 0, Top) == t;
    acts := Join(s, acts, s3, b, t);
  }

  lemma {:induction false} AllClaim(s: State, n: nat) returns (acts: seq<Action>, t: State)
    requires Before(s, n, n, s.count) && Parked(s.clients, |s.clients|)
    ensures Steps(s, acts, t) && Before(t, n, n, 0) && Parked(t.clients, |t.clients|)
    decreases s.count
  {
    hide Steps, Parked;
    if s.count == 0 {
      t := s;
      acts := Start(s);
    } else {
      var m, b;
      acts, m := OneClaims(s, n);
      b, t := AllClaim(m, n);
      acts := Join(s, acts, m, b, t);
    }
  }

  // ---------------------------------------------------------------- the run

  /** Between two stretches: workers a and b are 0 and 1, the others sleep. */
  ghost predicate Stage(s: State, n: nat, a: Worker, b: Worker, flag0: bool, flag1: bool, event0: bool) {
    && Sized(s) && n == |s.workers| >= 2 && NothingGlobal(s.global)
    && s.workers[0] == a && s.workers[1] == b && s.flags[0] == flag0 && s.flags[1] == flag1 && s.events[0] == event0
    && (forall w :: 1 <= w < n ==> Empty(s.deques[w]) && !s.events[w])
    && (forall w :: 2 <= w < n ==> s.workers[w] == AtWait)
  }

  /** Deque 0 as the owner and the thief leave it between two stretches. */
  ghost predicate Deque0(s: State, head: int, tail: int, holder: D.Holder, q: seq<Op>) {
    |s.deques| > 0 &&
    var d := s.deques[0];
    |d.buf| == 256 && d.head == head && d.tail == tail && d.holder == holder && d.owner.Idle? && d.q == q
  }

  const LOSES := Getting(Sleepy, Stealing(0, false, false))   // worker 1, once it is in the deque of worker 0

  /** Workers 0 and 1 run out of work; worker 0 raises its flag. */
  lemma Part1(s: State, n: nat) returns (acts: seq<Action>, t: State)
    requires Before(s, n, n, 0)
    ensures Steps(s, acts, t) && t.clients == s.clients && t.count == 1
    ensures Stage(t, n, Checking(LookTail), Spin, true, false, false) && Deque0(t, 0, 0, D.Free, [])
  {
    hide Steps;
    acts := RunsOut(s, 0);
    var m := Put(s, 0, Spin);
    assert s.deques[0 := s.deques[0].(missed := s.deques[0].q != [])] == s.deques;
    var b := RunsOut(m, 1);
    var r := Put(m, 1, Spin);
    assert m.deques[1 := m.deques[1].(missed := m.deques[1].q != [])] == m.deques;
    acts := Join(s, acts, m, b, r);
    var c := Announces(r, 0);
    t := Put(r.(flags := r.flags[0 := true], count := 1), 0, Checking(LookTail));
    acts := Join(s, acts, r, c, t);
  }

  /** With the counter at zero, a worker runs the operation in its hand and leaves its flag as it is. */
  lemma Clears(s: State, w: nat) returns (acts: seq<Action>)
    requires Sized(s) && w < |s.workers| && s.workers[w].Clearing? && s.workers[w].clear.CountFirst? && s.count == 0
    ensures Steps(s, acts, Put(s.(resumed := s.resumed + [s.workers[w].op]), w, Running))
  {
    hide Steps;
    var go, op := ByWorker(w, Go), s.workers[w].op;
    acts := Start(s);
    var m := Put(s, w, Starting(op));
    acts := Do(s, acts, s, go, m);
    acts := Do(s, acts, m, go, Put(s.(resumed := s.resumed + [op]), w, Running));
  }

  /** A client pushes operation 1 and claims worker 0's count.  Worker 0 finds the operation; its count is
      gone, so it runs the operation with its flag still raised. */
  lemma Part2(s: State, n: nat) returns (acts: seq<Action>, t: State)
    requires Stage(s, n, Checking(LookTail), Spin, true, false, false) && Deque0(s, 0, 0, D.Free, []) && s.count == 1
    ensures Steps(s, acts, t) && t.clients == s.clients + [ClientWaking(Scan(0))] && t.count == 0
    ensures Stage(t, n, Running, Spin, true, false, false) && Deque0(t, 0, 0, D.Free, [])
  {
    hide Steps, AwakeCan, AwakeStep, GetCan, GetStep, ClearCan, ClearStep;
    var s1, g, b;
    var go := ByWorker(0, Go);
    acts, s1 := ClientClaims(s, 1);
    var s2 := Put(s1, 0, Getting(Sleepy, FromGlobal));
    acts := Do(s, acts, s1, go, s2);
    b, g := GetsTheOnly(s2, 0, Sleepy, 1);
    var s3 := Put(s2.(global := g), 0, Clearing(1, CountFirst));
    acts := Join(s, acts, s2, b, s3);
    b := Clears(s3, 0);
    t := Put(s1.(global := g, resumed := s1.resumed + [1]), 0, Running);
    assert Put(s3.(resumed := s1.resumed + [1]), 0, Running) == t;
    acts := Join(s, acts, s3, b, t);
  }

  /** Worker 0's coroutine schedules op: it goes into deque 0. */
  lemma Schedules(s: State, op: Op) returns (acts: seq<Action>, d: D.State)
    requires Sized(s) && |s.workers| > 0 && s.workers[0].Running?
    requires var d := s.deques[0]; |d.buf| == 256 && d.owner.Idle? && d.head - d.tail < 255
    ensures Steps(s, acts, Put(PutDeque(s, 0, d), 0, Waking(ReadCount)))
    ensures |d.buf| == 256 && d.owner.Idle? && d.head == s.deques[0].head + 1 && d.tail == s.deques[0].tail
    ensures d.holder == s.deques[0].holder && d.q == s.deques[0].q + [op]
  {
    hide Steps, GetCan, GetStep, ClearCan, ClearStep, SleepCan, SleepStep;
    var e := s.deques[0];
    acts := Start(s);
    var d1 := D.OwnerStep(e, D.Enqueue(op));
    var s1 := Put(PutDeque(s, 0, d1), 0, Enqueuing);
    acts := Do(s, acts, s, ByWorker(0, Schedule(op)), s1);
    var d2 := D.OwnerStep(d1, D.StoreSlot);
    var s2 := PutDeque(s1, 0, d2);
    assert Put(PutDeque(s1, 0, d2), 0, Enqueuing) == s2;
    acts := Do(s, acts, s1, ByWorker(0, Own(D.StoreSlot)), s2);
    d := D.OwnerStep(d2, D.Publish);
    var t := Put(PutDeque(s, 0, d), 0, Waking(ReadCount));
    assert Put(PutDeque(s2, 0, d), 0, Waking(ReadCount)) == t;
    acts := Do(s, acts, s2, ByWorker(0, Own(D.Publish)), t);
  }

  /** Operation 2 is scheduled while the counter is zero: nobody is woken. */
  lemma Part3(s: State, n: nat) returns (acts: seq<Action>, t: State)
    requires Stage(s, n, Running, Spin, true, false, false) && Deque0(s, 0, 0, D.Free, []) && s.count == 0
    ensures Steps(s, acts, t) && t.clients == s.clients && t.count == 0
    ensures Stage(t, n, Running, Spin, true, false, false) && Deque0(t, 1, 0, D.Free, [2])
  {
    hide Steps;
    var d;
    acts, d := Schedules(s, 2);
    var m := Put(PutDeque(s, 0, d), 0, Waking(ReadCount));
    t := PutDeque(s, 0, d);
    assert Put(m, 0, Running) == t;
    acts := Do(s, acts, m, ByWorker(0, Go), t);
  }

  /** Worker 1 announces itself, sees operation 2 in deque 0 and goes for it. */
  lemma Part4(s: State, n: nat) returns (acts: seq<Action>, t: State)
    requires Stage(s, n, Running, Spin, true, false, false) && Deque0(s, 1, 0, D.Free, [2]) && s.count == 0
    ensures Steps(s, acts, t) && t.clients == s.clients && t.count == 1
    ensures Stage(t, n, Running, Getting(Sleepy, StealAt(0, false, false)), true, true, false) && Deque0(t, 1, 0, D.Free, [2])
  {
    hide Steps, Enabled, Apply;
    acts := Announces(s, 1);
    var e := s.(flags := s.flags[1 := true], count := 1);
    var s1 := Put(e, 1, Checking(LookTail));
    var b := ChecksGlobal(s1, 1);
    var s2 := Put(e, 1, Checking(LookAt(0)));
    assert Put(s1, 1, CheckFrom(n, 1, 0)) == s2;
    acts := Join(s, acts, s1, b, s2);
    b := Looks(s2, 1, 0);
    var s3 := Put(e, 1, Getting(Sleepy, FromGlobal));
    assert Put(s2, 1, Getting(Sleepy, FromGlobal)) == s3;
    acts := Join(s, acts, s2, b, s3);
    b := MissesGlobal(s3, 1);
    t := Put(e, 1, Getting(Sleepy, StealAt(0, false, false)));
    assert Put(s3, 1, StealFrom(n, 1, Sleepy, 0, false, false)) == t;
    acts := Join(s, acts, s3, b, t);
  }

  /** Worker 1 locks deque 0 and sees operation 2 there. */
  lemma Part5(s: State, n: nat) returns (acts: seq<Action>, t: State)
    requires Stage(s, n, Running, Getting(Sleepy, StealAt(0, false, false)), true, true, false)
    requires Deque0(s, 1, 0, D.Free, [2])
    ensures Steps(s, acts, t) && t.clients == s.clients && t.count == s.count
    ensures Stage(t, n, Running, LOSES, true, true, false) && Deque0(t, 1, 0, D.ByThief(1, D.Aiming(0)), [2])
  {
    hide Steps, AwakeCan, AwakeStep, ClearCan, ClearStep, SleepCan, SleepStep;
    var go, d, p := ByWorker(1, Go), s.deques[0], LOSES;
    acts := Start(s);
    var s1 := Put(PutDeque(s, 0, d.(holder := D.ByThief(1, D.Entered))), 1, p);
    acts := Do(s, acts, s, go, s1);
    var d2 := d.(holder := D.ByThief(1, D.TailSeen(0)));
    var s2 := Put(PutDeque(s, 0, d2), 1, p);
    assert Put(PutDeque(s1, 0, d2), 1, p) == s2;
    acts := Do(s, acts, s1, go, s2);
    var d3 := d.(holder := D.ByThief(1, D.Aiming(0)));
    t := Put(PutDeque(s, 0, d3), 1, p);
    assert Put(PutDeque(s2, 0, d3), 1, p) == t;
    acts := Do(s, acts, s2, go, t);
  }

  /** Worker 0 goes for the operation too: it lowers head. */
  lemma Part6(s: State, n: nat) returns (acts: seq<Action>, t: State)
    requires Stage(s, n, Running, LOSES, true, true, false) && Deque0(s, 1, 0, D.ByThief(1, D.Aiming(0)), [2])
    ensures Steps(s, acts, t)
    ensures t == Put(PutDeque(s, 0, s.deques[0].(head := 0, owner := D.PopStored(0), log := s.deques[0].log + [D.Lower])), 0, Popping)
  {
    hide Steps, GetCan, GetStep, ClearCan, ClearStep, SleepCan, SleepStep;
    var go, d := ByWorker(0, Go), s.deques[0];
    acts := Start(s);
    var s0 := Put(s, 0, Top);
    acts := Do(s, acts, s, ByWorker(0, Finish), s0);
    var d1 := d.(owner := D.PopAim(0));
    var s1 := Put(PutDeque(s, 0, d1), 0, Popping);
    assert Put(PutDeque(s0, 0, d1), 0, Popping) == s1;
    acts := Do(s, acts, s0, go, s1);
    var d2 := d.(head := 0, owner := D.PopStored(0), log := d.log + [D.Lower]);
    t := Put(PutDeque(s, 0, d2), 0, Popping);
    assert Put(PutDeque(s1, 0, d2), 0, Popping) == t;
    acts := Do(s, acts, s1, go, t);
  }

  /** Worker 0 wins it and runs it; worker 1 has moved tail and has still to move it back. */
  lemma Part7(s: State, n: nat) returns (acts: seq<Action>, t: State)
    requires Stage(s, n, Running, LOSES, true, true, false) && Deque0(s, 1, 0, D.ByThief(1, D.Aiming(0)), [2])
    ensures Steps(s, acts, t) && t.clients == s.clients && t.count == s.count
    ensures Stage(t, n, Running, LOSES, true, true, false) && Deque0(t, 0, 1, D.ByThief(1, D.Lost(0)), [])
  {
    hide Steps, Enabled, Apply;
    var m, b;
    acts, m := Part6(s, n);
    b := OwnerWins(m);
    var d := D.OwnerStep(m.deques[0], D.LookTail);
    var s1 := Put(PutDeque(m, 0, d), 0, Popping);
    acts := Join(s, acts, m, b, s1);
    b := ThiefLoses(s1);
    var d1 := d.(tail := 1, holder := D.ByThief(1, D.Lost(0)));
    var s2 := PutDeque(s1, 0, d1);
    acts := Join(s, acts, s1, b, s2);
    b, t := OwnerReads(s2);
    acts := Join(s, acts, s2, b, t);
  }

  lemma OwnerWins(s: State) returns (acts: seq<Action>)
    requires Sized(s) && |s.workers| > 0 && s.workers[0].Popping? && s.deques[0].owner.PopStored?
    requires D.OwnerCan(s.deques[0], D.LookTail)
    ensures Steps(s, acts, Put(PutDeque(s, 0, D.OwnerStep(s.deques[0], D.LookTail)), 0, Popping))
  {
    hide Steps, D.OwnerStep, D.OwnerCan, GetCan, GetStep, ClearCan, ClearStep, SleepCan, SleepStep;
    acts := Start(s);
    acts := Do(s, acts, s, ByWorker(0, Go), Put(PutDeque(s, 0, D.OwnerStep(s.deques[0], D.LookTail)), 0, Popping));
  }

  lemma OwnerReads(s: State) returns (acts: seq<Action>, t: State)
    requires Sized(s) && |s.workers| > 0 && s.workers[0].Popping? && s.deques[0].owner.PopWon?
    requires D.OwnerCan(s.deques[0], D.ReadPopped) && |s.deques[0].buf| > 0
    ensures Steps(s, acts, t) && t == Put(PutDeque(s, 0, D.OwnerStep(s.deques[0], D.ReadPopped)), 0, Running).(resumed := t.resumed)
  {
    hide Steps, D.OwnerStep, D.OwnerCan, GetCan, GetStep, ClearCan, ClearStep, SleepCan, SleepStep, D.At;
    var go, d := ByWorker(0, Go), s.deques[0];
    var op := D.At(d.buf, d.owner.newHead);
    var e := PutDeque(s, 0, D.OwnerStep(d, D.ReadPopped));
    var m := Put(e, 0, Starting(op));
    acts := Start(s);
    acts := Do(s, acts, s, go, m);
    t := Put(e.(resumed := s.resumed + [op]), 0, Running);
    assert Put(m.(resumed := s.resumed + [op]), 0, Running) == t;
    acts := Do(s, acts, m, go, t);
  }

  lemma ThiefLoses(s: State) returns (acts: seq<Action>)
    requires Sized(s) && |s.workers| > 1 && s.workers[1] == LOSES && |s.deques[0].buf| > 0
    requires s.deques[0].holder == D.ByThief(1, D.Aiming(0)) && s.deques[0].head == 0
    requires s.deques[0].owner.PopWon? && s.deques[0].q == []
    ensures Steps(s, acts, PutDeque(s, 0, s.deques[0].(tail := 1, holder := D.ByThief(1, D.Lost(0)))))
  {
    hide Steps, AwakeCan, AwakeStep, ClearCan, ClearStep, SleepCan, SleepStep;
    var go, d := ByWorker(1, Go), s.deques[0];
    acts := Start(s);
    var d1 := d.(tail := 1, holder := D.ByThief(1, D.Advanced(0)));
    var s1 := PutDeque(s, 0, d1);
    assert Put(s1, 1, LOSES) == s1;
    acts := Do(s, acts, s, go, s1);
    var d2 := d.(tail := 1, holder := D.ByThief(1, D.Lost(0)));
    var s2 := PutDeque(s, 0, d2);
    assert Put(PutDeque(s1, 0, d2), 1, LOSES) == s2;
    acts := Do(s, acts, s1, go, s2);
  }

  /** wake_one_thread by worker 0 while its own flag, the first one looked at, is raised. */
  lemma WakesItself(s: State) returns (acts: seq<Action>)
    requires Sized(s) && |s.workers| > 0 && s.workers[0] == Waking(ReadCount) && s.flags[0] && s.count > 0
    ensures Steps(s, acts,
      Put(s.(count := s.count - 1, flags := s.flags[0 := false], events := s.events[0 := true]), 0, Running))
  {
    hide Steps, GetCan, GetStep, ClearCan, ClearStep, SleepCan, SleepStep, D.OwnerCan, D.OwnerStep, PopAct;
    var go, c := ByWorker(0, Go), s.count;
    acts := Start(s);
    var s1 := Put(s, 0, Waking(Claim(c)));
    acts := Do(s, acts, s, go, s1);
    var s2 := Put(s.(count := c - 1), 0, Waking(Scan(0)));
    acts := Do(s, acts, s1, go, s2);
    var s3 := Put(s.(count := c - 1), 0, Waking(Take(0)));
    acts := Do(s, acts, s2, go, s3);
    var b := SignalsItself(s3);
    var t := Put(s.(count := c - 1, flags := s.flags[0 := false], events := s.events[0 := true]), 0, Running);
    assert Put(s3.(flags := s.flags[0 := false], events := s.events[0 := true]), 0, Running) == t;
    acts := Join(s, acts, s3, b, t);
  }

  lemma SignalsItself(s: State) returns (acts: seq<Action>)
    requires Sized(s) && |s.workers| > 0 && s.workers[0] == Waking(Take(0)) && s.flags[0]
    ensures Steps(s, acts, Put(s.(flags := s.flags[0 := false], events := s.events[0 := true]), 0, Running))
  {
    hide Steps, GetCan, GetStep, ClearCan, ClearStep, SleepCan, SleepStep, D.OwnerCan, D.OwnerStep, PopAct;
    var go := ByWorker(0, Go);
    acts := Start(s);
    var s1 := Put(s.(flags := s.flags[0 := false]), 0, Waking(Signal(0)));
    acts := Do(s, acts, s, go, s1);
    acts := Do(s, acts, s1, go, Put(s.(flags := s.flags[0 := false], events := s.events[0 := true]), 0, Running));
  }

  /** Operation 2 schedules operation 3; the wake-up for it lowers worker 0's own flag. */
  lemma Part8(s: State, n: nat) returns (acts: seq<Action>, t: State)
    requires Stage(s, n, Running, LOSES, true, true, false) && Deque0(s, 0, 1, D.ByThief(1, D.Lost(0)), []) && s.count > 0
    ensures Steps(s, acts, t) && t.clients == s.clients
    ensures Stage(t, n, Top, LOSES, false, true, true) && Deque0(t, 1, 1, D.ByThief(1, D.Lost(0)), [3])
  {
    hide Steps;
    var d;
    acts, d := Schedules(s, 3);
    var m := Put(PutDeque(s, 0, d), 0, Waking(ReadCount));
    var b := WakesItself(m);
    var r := Put(m.(count := s.count - 1, flags := s.flags[0 := false], events := s.events[0 := true]), 0, Running);
    acts := Join(s, acts, m, b, r);
    t := Put(r, 0, Top);
    acts := Do(s, acts, r, ByWorker(0, Finish), t);
  }

  /** Worker 0 takes its deque for empty, announces itself and goes to wait for the event that it has set itself. */
  lemma Part9(s: State, n: nat) returns (acts: seq<Action>, t: State)
    requires Stage(s, n, Top, LOSES, false, true, true) && Deque0(s, 1, 1, D.ByThief(1, D.Lost(0)), [3])
    ensures Steps(s, acts, t) && t.clients == s.clients
    ensures Stage(t, n, AtWait, LOSES, true, true, true) && Deque0(t, 1, 1, D.ByThief(1, D.Lost(0)), [3])
  {
    hide Steps, Enabled, Apply;
    acts := RunsOut(s, 0);
    var e := PutDeque(s, 0, s.deques[0].(missed := s.deques[0].q != []));
    var m := Put(e, 0, Spin);
    var b := Sleeps(m, 0);
    t := Put(m.(flags := s.flags[0 := true], count := s.count + 1), 0, AtWait);
    acts := Join(s, acts, m, b, t);
  }

  /** So it goes round once more. */
  lemma Part10(s: State, n: nat) returns (acts: seq<Action>, t: State)
    requires Stage(s, n, AtWait, LOSES, true, true, true) && Deque0(s, 1, 1, D.ByThief(1, D.Lost(0)), [3])
    ensures Steps(s, acts, t) && t.clients == s.clients
    ensures Stage(t, n, AtWait, LOSES, true, true, false) && Deque0(t, 1, 1, D.ByThief(1, D.Lost(0)), [3])
  {
    hide Steps;
    var e := s.(events := s.events[0 := false]);
    var s1 := Put(e, 0, Spin);
    acts := Start(s);
    acts := Do(s, acts, s, ByWorker(0, Go), s1);
    var s2 := Put(e, 0, Checking(LookTail));
    assert s.flags[0 := true] == s.flags;
    acts := Do(s, acts, s1, ByWorker(0, Rest), s2);
    var b := ChecksNothing(s2, 0);
    t := Put(e, 0, AtWait);
    assert Put(s2, 0, AtWait) == t;
    acts := Join(s, acts, s2, b, t);
  }

  /** A client's claim lowers worker 0's flag again, and sets its event. */
  lemma ClientFinishes(s: State, n: nat, j: nat) returns (acts: seq<Action>, t: State)
    requires Stage(s, n, AtWait, LOSES, true, true, false) && Parked(s.clients, j + 1)
    ensures Steps(s, acts, t) && t.deques == s.deques && Parked(t.clients, j)
    ensures Stage(t, n, AtWait, LOSES, false, true, true)
  {
    hide Steps;
    acts := Start(s);
    var s1 := s.(clients := s.clients[j := ClientWaking(Take(0))]);
    acts := Do(s, acts, s, ByClient(j), s1);
    var s2 := s.(flags := s.flags[0 := false], clients := s.clients[j := ClientWaking(Signal(0))]);
    assert s1.clients[j := ClientWaking(Signal(0))] == s2.clients;
    acts := Do(s, acts, s1, ByClient(j), s2);
    t := s2.(events := s.events[0 := true], clients := s.clients[j := Done]);
    assert s2.clients[j := Done] == t.clients;
    acts := Do(s, acts, s2, ByClient(j), t);
  }

  /** Worker 0 wakes, finds nothing, announces itself and blocks. */
  lemma Part11(s: State, n: nat) returns (acts: seq<Action>, t: State)
    requires Stage(s, n, AtWait, LOSES, false, true, true) && Deque0(s, 1, 1, D.ByThief(1, D.Lost(0)), [3])
    ensures Steps(s, acts, t) && t.clients == s.clients
    ensures Stage(t, n, AtWait, LOSES, true, true, false) && Deque0(t, 1, 1, D.ByThief(1, D.Lost(0)), [3])
  {
    hide Steps;
    var e := s.(events := s.events[0 := false]);
    var s1 := Put(e, 0, Spin);
    acts := Start(s);
    acts := Do(s, acts, s, ByWorker(0, Go), s1);
    var b := Sleeps(s1, 0);
    t := Put(e.(flags := s.flags[0 := true], count := s.count + 1), 0, AtWait);
    assert Put(s1.(flags := s.flags[0 := true], count := s.count + 1), 0, AtWait) == t;
    acts := Join(s, acts, s1, b, t);
  }

  /** Every pending wake-up is spent on worker 0 in this way. */
  lemma {:induction false} AllFinish(s: State, n: nat, j: nat) returns (acts: seq<Action>, t: State)
    requires Stage(s, n, AtWait, LOSES, true, true, false) && Deque0(s, 1, 1, D.ByThief(1, D.Lost(0)), [3])
    requires Parked(s.clients, j)
    ensures Steps(s, acts, t) && Parked(t.clients, 0)
    ensures Stage(t, n, AtWait, LOSES, true, true, false) && Deque0(t, 1, 1, D.ByThief(1, D.Lost(0)), [3])
    decreases j
  {
    hide Steps, Stage, Parked;
    if j == 0 {
      t := s;
      acts := Start(s);
    } else {
      var m, r, b;
      acts, m := ClientFinishes(s, n, j - 1);
      b, r := Part11(m, n);
      acts := Join(s, acts, m, b, r);
      b, t := AllFinish(r, n, j - 1);
      acts := Join(s, acts, r, b, t);
    }
  }

  /** At last worker 1 moves tail back, and blocks. */
  lemma Part12(s: State, n: nat) returns (acts: seq<Action>, t: State)
    requires Stage(s, n, AtWait, LOSES, true, true, false) && Deque0(s, 1, 1, D.ByThief(1, D.Lost(0)), [3])
    ensures Steps(s, acts, t) && t.clients == s.clients
    ensures Stage(t, n, AtWait, AtWait, true, true, false) && Deque0(t, 1, 0, D.Free, [3])
  {
    hide Steps;
    acts := Start(s);
    var e := PutDeque(s, 0, s.deques[0].(tail := 0, holder := D.Free));
    var m := Put(e, 1, StealFrom(n, 1, Sleepy, 1, false, false));
    acts := Do(s, acts, s, ByWorker(1, Go), m);
    var b := SearchesInVain(m, 1, Sleepy, 1);
    t := Put(e, 1, AtWait);
    assert Put(m, 1, AtWait) == t;
    acts := Join(s, acts, m, b, t);
  }

  lemma FirstPart(s: State, n: nat) returns (acts: seq<Action>, t: State)
    requires Init(s) && n == |s.workers| >= 2
    ensures Steps(s, acts, t) && Parked(t.clients, |t.clients|) && t.count == 0
    ensures Stage(t, n, Running, Spin, true, false, false) && Deque0(t, 0, 0, D.Free, [])
  {
    hide Steps, Stage, Deque0, Enabled, Apply;
    var m, b;
    assert Before(s, n, 2, 0);
    acts, m := AllSleep(s, n, 2);
    b, t := AllClaim(m, n);
    acts := Join(s, acts, m, b, t);
    m := t;
    b, t := Part1(m, n);
    acts := Join(s, acts, m, b, t);
    m := t;
    b, t := Part2(m, n);
    acts := Join(s, acts, m, b, t);
  }

  lemma SecondPart(s: State, n: nat) returns (acts: seq<Action>, t: State)
    requires Stage(s, n, Running, Spin, true, false, false) && Deque0(s, 0, 0, D.Free, []) && s.count == 0
    ensures Steps(s, acts, t) && t.clients == s.clients && t.count == 1
    ensures Stage(t, n, Running, LOSES, true, true, false) && Deque0(t, 0, 1, D.ByThief(1, D.Lost(0)), [])
  {
    hide Steps, Stage, Deque0;
    var m, b;
    acts, m := Part3(s, n);
    b, t := Part4(m, n);
    acts := Join(s, acts, m, b, t);
    m := t;
    b, t := Part5(m, n);
    acts := Join(s, acts, m, b, t);
    m := t;
    b, t := Part7(m, n);
    acts := Join(s, acts, m, b, t);
  }

  lemma ThirdPart(s: State, n: nat) returns (acts: seq<Action>, t: State)
    requires Stage(s, n, Running, LOSES, true, true, false) && Deque0(s, 0, 1, D.ByThief(1, D.Lost(0)), []) && s.count == 1
    requires Parked(s.clients, |s.clients|)
    ensures Steps(s, acts, t) && Parked(t.clients, 0)
    ensures Stage(t, n, AtWait, AtWait, true, true, false) && Deque0(t, 1, 0, D.Free, [3])
  {
    hide Steps, Stage, Deque0, Parked;
    var m, b;
    acts, m := Part8(s, n);
    b, t := Part9(m, n);
    acts := Join(s, acts, m, b, t);
    m := t;
    b, t := Part10(m, n);
    acts := Join(s, acts, m, b, t);
    m := t;
    b, t := AllFinish(m, n, |m.clients|);
    acts := Join(s, acts, m, b, t);
    m := t;
    b, t := Part12(m, n);
    acts := Join(s, acts, m, b, t);
  }

  /** A run of any pool of two or more workers that ends with every worker blocked, every event unset and no
      wake-up left to do, while operation 3 sits in worker 0's deque. */
  lemma LocalOperationStranded(s: State) returns (trace: seq<State>, acts: seq<Action>)
    requires Init(s) && |s.workers| >= 2
    ensures Run(trace, acts) && trace[0] == s
    ensures var t := trace[|acts|];
      Asleep(t) && |t.deques| > 0 && t.deques[0].q == [3] && forall c :: 0 <= c < |t.clients| ==> t.clients[c].Done?
  {
    hide Steps, Enabled, Apply;
    var n := |s.workers|;
    var m, t, b;
    acts, m := FirstPart(s, n);
    b, t := SecondPart(m, n);
    acts := Join(s, acts, m, b, t);
    m := t;
    b, t := ThirdPart(m, n);
    acts := Join(s, acts, m, b, t);
    trace := StepsMakeRun(s, acts, t);
  }

  // ---------------------------------------------------------------- when nothing is ever stranded

  /** No operation is queued anywhere. */
  ghost predicate NoneQueued(s: State) {
    && s.global.tail == [] && G.Pending(s.global) == []
    && forall w :: 0 <= w < |s.deques| ==> s.deques[w].q == []
  }

  /** Whenever a pool of n workers is all asleep, no operation is queued. */
  ghost predicate NeverStrands(n: nat) {
    forall trace: seq<State>, acts: seq<Action> ::
      Run(trace, acts) && |trace[0].workers| == n && Asleep(trace[|acts|]) ==> NoneQueued(trace[|acts|])
  }

  /** The promise that a queued operation always has someone awake for it holds for one size of pool only. */
  lemma NeverStrandsExact(n: nat)
    requires n >= 1
    ensures NeverStrands(n) <==> n == 1
  {
    hide Enabled, Apply;
    if n == 1 {
      forall trace: seq<State>, acts: seq<Action> | Run(trace, acts) && |trace[0].workers| == n && Asleep(trace[|acts|])
        ensures NoneQueued(trace[|acts|])
      {
        PoolProofs.NothingStranded(trace, acts, |acts|);
      }
    } else {
      var d := D.State(seq(D.INITIAL_SIZE, _ => 0), 0, 0, D.Free, D.Idle, [], [], [], false);
      var s := State(seq(n, _ => d), G.State([], [], G.Unlocked, [], []), seq(n, _ => false), seq(n, _ => false), 0,
        seq(n, _ => Top), [], []);
      var trace, acts := LocalOperationStranded(s);
      assert !NoneQueued(trace[|acts|]);
    }
  }
}
