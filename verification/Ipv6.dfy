/** ipv6_address::from_string (lib/ipv6_address.cpp:52-267): the text forms of RFC 4291 section 2.2, what the
    parser computes, and that the two agree. */
module Ipv6 {

  datatype Option<T> = None | Some(value: T)

  /** What from_string makes of a string.  Overrun: it reads the character after the last one of the string. */
  datatype Parsed = Address(parts: seq<nat>) | Invalid | Overrun

  // ---------------------------------------------------------------- digits

  /** The value of a hexadecimal digit, or -1. */
  function HexValue(c: char): (v: int)
    ensures -1 <= v < 16
  {
    if '0' <= c <= '9' then c as int - '0' as int
    else if 'a' <= c <= 'f' then c as int - 'a' as int + 10
    else if 'A' <= c <= 'F' then c as int - 'A' as int + 10
    else -1
  }

  function HexChar(v: nat): (c: char)
    requires v < 16
    ensures HexValue(c) == v && !('A' <= c <= 'F') && c != ':' && c != '.'
  {
    if v < 10 then ('0' as int + v) as char else ('a' as int + v - 10) as char
  }

  // ---------------------------------------------------------------- the grammar

  predicate IsGroup(g: string) { 1 <= |g| <= 4 && forall i :: 0 <= i < |g| ==> HexValue(g[i]) >= 0 }

  function Value(g: string): nat
    requires forall i :: 0 <= i < |g| ==> HexValue(g[i]) >= 0
  {
    if g == "" then 0 else Value(g[..|g| - 1]) * 16 + HexValue(g[|g| - 1])
  }

  predicate AreGroups(gs: seq<string>) { forall i :: 0 <= i < |gs| ==> IsGroup(gs[i]) }

  function Join(gs: seq<string>): string {
    if gs == [] then "" else if |gs| == 1 then gs[0] else gs[0] + (":" + Join(gs[1..]))
  }

  /** The groups of pre joined by ":", then "::", then the groups of post joined by ":". */
  function Short(pre: seq<string>, post: seq<string>): string {
    if pre == [] then "::" + Join(post)
    else if |pre| == 1 then pre[0] + ("::" + Join(post))
    else pre[0] + (":" + Short(pre[1..], post))
  }

  function Values(gs: seq<string>): (r: seq<nat>)
    requires AreGroups(gs)
    ensures |r| == |gs|
  {
    if gs == [] then [] else [Value(gs[0])] + Values(gs[1..])
  }

  function Zeros(n: nat): (r: seq<nat>)
    ensures |r| == n && forall i :: 0 <= i < n ==> r[i] == 0
  {
    if n == 0 then [] else [0] + Zeros(n - 1)
  }

  predicate IsDigit(c: char) { '0' <= c <= '9' }

  predicate AreDigits(g: string) { forall i :: 0 <= i < |g| ==> IsDigit(g[i]) }

  function Decimal(g: string): nat
    requires AreDigits(g)
  {
    if g == "" then 0 else Decimal(g[..|g| - 1]) * 10 + (g[|g| - 1] as int - '0' as int)
  }

  /** A number of dotted decimal notation: one byte, without a zero in front of other digits. */
  predicate IsNumber(g: string) {
    1 <= |g| <= 3 && AreDigits(g) && (|g| > 1 ==> g[0] != '0') && Decimal(g) < 256
  }

  predicate AreNumbers(ns: seq<string>) { forall i :: 0 <= i < |ns| ==> IsNumber(ns[i]) }

  /** A dot in front of each of them. */
  function DotTail(ns: seq<string>): string {
    if ns == [] then "" else "." + (ns[0] + DotTail(ns[1..]))
  }

  /** Numbers joined by dots. */
  function Dots(ns: seq<string>): string
    requires ns != []
  {
    ns[0] + DotTail(ns[1..])
  }

  function Decimals(ns: seq<string>): (r: seq<nat>)
    requires AreNumbers(ns)
    ensures |r| == |ns|
  {
    if ns == [] then [] else [Decimal(ns[0])] + Decimals(ns[1..])
  }

  /** Four bytes make two parts. */
  function QuadParts(v: seq<nat>): (r: seq<nat>)
    requires |v| == 4
    ensures |r| == 2
  {
    [256 * v[0] + v[1], 256 * v[2] + v[3]]
  }

  /** s spells the eight parts a as groups of one to four hexadecimal digits: all eight of them, ... */
  ghost predicate FullForm(s: string, a: seq<nat>, gs: seq<string>) {
    AreGroups(gs) && |gs| == 8 && s == Join(gs) && a == Values(gs)
  }

  /** ... or fewer, with one "::" for a run of zero parts. */
  ghost predicate ShortForm(s: string, a: seq<nat>, pre: seq<string>, post: seq<string>) {
    && AreGroups(pre) && AreGroups(post) && |pre| + |post| <= 7
    && s == Short(pre, post)
    && a == Values(pre) + Zeros(8 - |pre| - |post|) + Values(post)
  }

  /** Either may spell its last two parts as four decimal bytes. */
  ghost predicate FullQuadForm(s: string, a: seq<nat>, gs: seq<string>, ns: seq<string>) {
    && AreGroups(gs) && AreNumbers(ns) && |gs| == 6 && |ns| == 4
    && s == Join(gs + [Dots(ns)]) && a == Values(gs) + QuadParts(Decimals(ns))
  }

  ghost predicate ShortQuadForm(s: string, a: seq<nat>, pre: seq<string>, post: seq<string>, ns: seq<string>) {
    && AreGroups(pre) && AreGroups(post) && AreNumbers(ns) && |pre| + |post| <= 5 && |ns| == 4
    && s == Short(pre, post + [Dots(ns)])
    && a == Values(pre) + Zeros(6 - |pre| - |post|) + (Values(post) + QuadParts(Decimals(ns)))
  }

  ghost predicate TextForm(s: string, a: seq<nat>) {
    || (exists gs :: FullForm(s, a, gs))
    || (exists pre, post :: ShortForm(s, a, pre, post))
    || (exists gs, ns :: FullQuadForm(s, a, gs, ns))
    || (exists pre, post, ns :: ShortQuadForm(s, a, pre, post, ns))
  }

  /** At most six groups, with a "::" or without one, and then dotted decimal notation that ends with the string
      after its second or third number. */
  ghost predicate CutShort(s: string, pre: seq<string>, post: seq<string>, gap: bool, ns: seq<string>) {
    && AreGroups(pre) && AreGroups(post) && |pre| + |post| <= 6
    && AreNumbers(ns) && 2 <= |ns| <= 3 && |s| <= MAX_LENGTH
    && s == (if gap then Short(pre, post + [Dots(ns)]) else Join(pre + [Dots(ns)]))
    && (!gap ==> post == [])
  }

  // ---------------------------------------------------------------- what the parser computes

  function HexRun(t: string, max: nat): (n: nat)
    ensures n <= max && n <= |t| && forall i :: 0 <= i < n ==> HexValue(t[i]) >= 0
    ensures n < max && n < |t| ==> HexValue(t[n]) < 0
  {
    if max == 0 || t == "" || HexValue(t[0]) < 0 then 0 else 1 + HexRun(t[1..], max - 1)
  }

  function DigitRun(t: string, max: nat): (n: nat)
    ensures n <= max && n <= |t| && forall i :: 0 <= i < n ==> IsDigit(t[i])
    ensures n < max && n < |t| ==> !IsDigit(t[n])
  {
    if max == 0 || t == "" || !IsDigit(t[0]) then 0 else 1 + DigitRun(t[1..], max - 1)
  }

  datatype Numbers = Read(rest: string, values: seq<nat>) | Malformed | Beyond

  /** Reads k more numbers, with a dot before each.  The test for the dot is made also at the end of the string. */
  function ReadNumbers(u: string, k: nat): (r: Numbers)
    ensures r.Read? ==> |r.values| == k && |r.rest| <= |u|
    decreases k
  {
    if k == 0 then Read(u, [])
    else if u == "" then Beyond
    else if u[0] != '.' then Malformed
    else
      var v := u[1..];
      var n := DigitRun(v, 3);
      if !IsNumber(v[..n]) then Malformed
      else match ReadNumbers(v[n..], k - 1)
        case Read(rest, values) => Read(rest, [Decimal(v[..n])] + values)
        case other => other
  }

  /** The state of the main loop when it ends: what it has not read, the parts, and where "::" stood.  Past: it
      has read past the end of the string. */
  datatype Scan = Stop(rest: string, parts: seq<nat>, gap: Option<nat>) | Fail | Past

  /** The dotted-decimal branch: g is the group before the first dot, u what follows it. */
  function ScanQuad(g: string, u: string, parts: seq<nat>, gap: Option<nat>): (r: Scan)
    ensures r.Stop? ==> |r.parts| <= 8
  {
    if |parts| > 6 || !IsNumber(g) then Fail
    else match ReadNumbers(u, 3)
      case Malformed => Fail
      case Beyond => Past
      case Read(rest, values) => Stop(rest, parts + QuadParts([Decimal(g)] + values), gap)
  }

  /** The main loop from where `t` is left to read. */
  function ScanFrom(t: string, parts: seq<nat>, gap: Option<nat>): (r: Scan)
    ensures |parts| <= 8 && r.Stop? ==> |r.parts| <= 8
    decreases |t|
  {
    if t == "" || |parts| >= 8 then Stop(t, parts, gap)
    else
      var n := HexRun(t, 4);
      if n == 0 then Fail
      else
        var u, now := t[n..], parts + [Value(t[..n])];
        if u == "" then ScanFrom(u, now, gap)
        else if |u| == 1 then Fail
        else if u[0] == ':' then
          if u[1] != ':' then ScanFrom(u[1..], now, gap)
          else if gap.Some? then Fail
          else ScanFrom(u[2..], now, Some(|now|))
        else if u[0] == '.' then ScanQuad(t[..n], u, parts, gap)
        else Fail
  }

  function Finish(r: Scan): Parsed {
    match r
    case Fail => Invalid
    case Past => Overrun
    case Stop(rest, parts, gap) =>
      if rest != "" then Invalid
      else if |parts| < 8 then
        if gap.Some? && gap.value <= |parts| then
          Address(parts[..gap.value] + Zeros(8 - |parts|) + parts[gap.value..])
        else Invalid
      else if gap.Some? then Invalid
      else Address(parts)
  }

  const MAX_LENGTH: nat := 45

  function Parse(s: string): Parsed {
    if s == "" || |s| > MAX_LENGTH then Invalid
    else if |s| >= 2 && s[0] == ':' && s[1] == ':' then Finish(ScanFrom(s[2..], [], Some(0)))
    else Finish(ScanFrom(s, [], None))
  }

  // ---------------------------------------------------------------- joining and scanning

  lemma {:induction false} HexRunOfGroup(g: string, t: string)
    requires IsGroup(g) && (t == "" || HexValue(t[0]) < 0)
    ensures HexRun(g + t, 4) == |g|
  {
    var n := HexRun(g + t, 4);
    assert forall i :: 0 <= i < |g| ==> (g + t)[i] == g[i];
    assert t != "" ==> (g + t)[|g|] == t[0];
  }

  lemma JoinStart(gs: seq<string>)
    requires AreGroups(gs) && gs != []
    ensures Join(gs) != "" && HexValue(Join(gs)[0]) >= 0
  {
    assert IsGroup(gs[0]);
  }

  /** One turn of the main loop, on a group and what follows it. */
  lemma ScanGroup(g: string, u: string, parts: seq<nat>, gap: Option<nat>)
    requires IsGroup(g) && |parts| < 8 && (u == "" || HexValue(u[0]) < 0)
    ensures var r, now := ScanFrom(g + u, parts, gap), parts + [Value(g)];
      && (u == "" ==> r == Stop("", now, gap))
      && (|u| >= 2 && u[0] == ':' && u[1] != ':' ==> r == ScanFrom(u[1..], now, gap))
      && (|u| >= 2 && u[0] == ':' && u[1] == ':' && gap.None? ==> r == ScanFrom(u[2..], now, Some(|now|)))
  {
    HexRunOfGroup(g, u);
    assert (g + u)[|g|..] == u && (g + u)[..|g|] == g;
  }

  lemma Associate(a: seq<nat>, b: seq<nat>, c: seq<nat>)
    ensures (a + b) + c == a + (b + c)
  {
  }

  /** The first group, set apart. */
  lemma ValuesApart(gs: seq<string>, parts: seq<nat>)
    requires AreGroups(gs) && gs != []
    ensures IsGroup(gs[0]) && AreGroups(gs[1..])
    ensures (parts + [Value(gs[0])]) + Values(gs[1..]) == parts + Values(gs)
    ensures |gs| == 1 ==> Values(gs) == [Value(gs[0])]
  {
    Associate(parts, [Value(gs[0])], Values(gs[1..]));
    if |gs| == 1 { OneValue(gs); }
    hide Value, HexValue;
  }

  lemma OneValue(gs: seq<string>)
    requires AreGroups(gs) && |gs| == 1
    ensures Values(gs) == [Value(gs[0])]
  {
    assert Values(gs[1..]) == [];
    hide Value;
  }

  lemma NoGroups(parts: seq<nat>)
    ensures Join([]) == "" && parts + Values([]) == parts
  {
  }

  lemma Prefixed(c: string, t: string)
    ensures (c + t)[|c|..] == t && |c + t| == |c| + |t|
    ensures forall i :: 0 <= i < |c| ==> (c + t)[i] == c[i]
    ensures t != "" ==> (c + t)[|c|] == t[0]
  {
  }

  /** Groups joined by colons are read one by one. */
  lemma {:induction false} ScanGroups(gs: seq<string>, parts: seq<nat>, gap: Option<nat>)
    requires AreGroups(gs) && |parts| + |gs| <= 8
    ensures ScanFrom(Join(gs), parts, gap) == Stop("", parts + Values(gs), gap)
  {
    if gs == [] {
      NoGroups(parts);
    } else {
      ValuesApart(gs, parts);
      var g, rest := gs[0], gs[1..];
      if |gs| == 1 {
        assert Join(gs) == g + "";
        hide Join, Values, ScanFrom;
        ScanGroup(g, "", parts, gap);
      } else {
        JoinStart(rest);
        ScanGroups(rest, parts + [Value(g)], gap);
        ScanColon(g, Join(rest), parts, gap);
        hide Values, ScanFrom, Value;
      }
    }
  }

  lemma ScanColon(g: string, t: string, parts: seq<nat>, gap: Option<nat>)
    requires IsGroup(g) && |parts| < 8 && t != "" && HexValue(t[0]) >= 0
    ensures ScanFrom(g + (":" + t), parts, gap) == ScanFrom(t, parts + [Value(g)], gap)
  {
    hide ScanFrom, Value;
    Prefixed(":", t);
    ScanGroup(g, ":" + t, parts, gap);
  }

  lemma ScanDouble(g: string, t: string, parts: seq<nat>)
    requires IsGroup(g) && |parts| < 8
    ensures ScanFrom(g + ("::" + t), parts, None) == ScanFrom(t, parts + [Value(g)], Some(|parts| + 1))
  {
    hide ScanFrom, Value;
    Prefixed("::", t);
    ScanGroup(g, "::" + t, parts, None);
  }

  lemma ShortStart(pre: seq<string>, post: seq<string>)
    requires AreGroups(pre) && pre != []
    ensures Short(pre, post) != "" && HexValue(Short(pre, post)[0]) >= 0
  {
    assert IsGroup(pre[0]);
  }

  /** Groups up to the "::" are read one by one, whatever follows. */
  lemma {:induction false} ScanGap(pre: seq<string>, post: seq<string>, parts: seq<nat>)
    requires AreGroups(pre) && pre != [] && |parts| + |pre| <= 8
    ensures ScanFrom(Short(pre, post), parts, None)
         == ScanFrom(Join(post), parts + Values(pre), Some(|parts| + |pre|))
  {
    hide ScanFrom, Short, Join, Values, Value, HexValue;
    ValuesApart(pre, parts);
    ShortApart(pre, post);
    var g, rest := pre[0], pre[1..];
    if |pre| == 1 {
      ScanDouble(g, Join(post), parts);
    } else {
      ShortStart(rest, post);
      ScanGap(rest, post, parts + [Value(g)]);
      ScanColon(g, Short(rest, post), parts, None);
    }
  }

  /** Groups up to the "::", then the rest. */
  lemma ScanToGap(pre: seq<string>, post: seq<string>, parts: seq<nat>)
    requires AreGroups(pre) && AreGroups(post) && pre != [] && |parts| + |pre| + |post| <= 8
    ensures ScanFrom(Short(pre, post), parts, None)
         == Stop("", (parts + Values(pre)) + Values(post), Some(|parts| + |pre|))
  {
    hide ScanFrom, Short, Join, Values;
    ScanGap(pre, post, parts);
    ScanGroups(post, parts + Values(pre), Some(|parts| + |pre|));
  }

  lemma ShortApart(pre: seq<string>, post: seq<string>)
    requires pre != []
    ensures |pre| == 1 ==> Short(pre, post) == pre[0] + ("::" + Join(post))
    ensures |pre| > 1 ==> Short(pre, post) == pre[0] + (":" + Short(pre[1..], post))
  {
  }

  // ---------------------------------------------------------------- dotted decimal

  lemma {:induction false} DigitRunOfNumber(g: string, t: string)
    requires IsNumber(g) && (t == "" || !IsDigit(t[0]))
    ensures DigitRun(g + t, 3) == |g|
  {
    hide Decimal;
    var n := DigitRun(g + t, 3);
    assert forall i :: 0 <= i < |g| ==> (g + t)[i] == g[i];
    assert t != "" ==> (g + t)[|g|] == t[0];
  }

  lemma TailStart(ns: seq<string>)
    ensures DotTail(ns) == "" <==> ns == []
    ensures ns != [] ==> DotTail(ns)[0] == '.'
  {
  }

  lemma OneNumber(g: string, t: string, k: nat)
    requires IsNumber(g) && k > 0 && (t == "" || t[0] == '.')
    ensures ReadNumbers("." + (g + t), k) == match ReadNumbers(t, k - 1)
      case Read(rest, values) => Read(rest, [Decimal(g)] + values)
      case other => other
  {
    var u := "." + (g + t);
    Prefixed(".", g + t);
    assert u[1..] == g + t;
    DigitRunOfNumber(g, t);
    Prefixed(g, t);
    assert (g + t)[..|g|] == g;
    hide Decimal, IsNumber;
  }

  /** What reading k numbers makes of those that are there. */
  function NumbersThere(ns: seq<string>, k: nat): Numbers
    requires AreNumbers(ns) && |ns| <= k
  {
    if |ns| == k then Read("", Decimals(ns)) else Beyond
  }

  lemma {:induction false} NumbersAreRead(ns: seq<string>, k: nat)
    requires AreNumbers(ns) && |ns| <= k
    ensures ReadNumbers(DotTail(ns), k) == NumbersThere(ns, k)
  {
    hide Decimal, IsNumber;
    if ns == [] {
      NoneThere("", k);
    } else {
      TailStart(ns[1..]);
      hide ReadNumbers, NumbersThere, DotTail;
      NumbersAreRead(ns[1..], k - 1);
      OneNumber(ns[0], DotTail(ns[1..]), k);
      MoreThere(ns[0], ns[1..], k);
      assert [ns[0]] + ns[1..] == ns;
    }
  }

  /** What the scan makes of dotted decimal notation of two to four numbers. */
  function QuadScan(ns: seq<string>, parts: seq<nat>, gap: Option<nat>): (r: Scan)
    requires AreNumbers(ns)
  {
    if |ns| == 4 then Stop("", parts + QuadParts(Decimals(ns)), gap) else Past
  }

  lemma NumberIsGroup(g: string)
    requires IsNumber(g)
    ensures IsGroup(g)
  {
  }

  lemma ScanDot(g: string, u: string, parts: seq<nat>, gap: Option<nat>)
    requires IsGroup(g) && |parts| < 8 && |u| > 1 && u[0] == '.'
    ensures ScanFrom(g + u, parts, gap) == ScanQuad(g, u, parts, gap)
  {
    HexRunOfGroup(g, u);
    Prefixed(g, u);
    assert (g + u)[..|g|] == g;
    hide IsGroup, HexRun, ScanQuad, Value;
  }

  lemma ScanDots(ns: seq<string>, parts: seq<nat>, gap: Option<nat>)
    requires AreNumbers(ns) && 2 <= |ns| <= 4 && |parts| <= 6
    ensures Dots(ns) != "" && HexValue(Dots(ns)[0]) >= 0
    ensures ScanFrom(Dots(ns), parts, gap) == QuadScan(ns, parts, gap)
  {
    var g, u := ns[0], DotTail(ns[1..]);
    NumberIsGroup(g);
    assert HexValue(g[0]) >= 0;
    Prefixed(g, u);
    TailStart(ns[1..]);
    assert |u| > 1 by { assert IsNumber(ns[1]); }
    hide Decimal, IsGroup, HexValue, ScanFrom, DotTail, ReadNumbers;
    NumbersAreRead(ns[1..], 3);
    ScanDot(g, u, parts, gap);
    hide IsNumber;
  }

  /** Groups, then dotted decimal notation. */
  lemma {:induction false} ScanMixed(gs: seq<string>, ns: seq<string>, parts: seq<nat>, gap: Option<nat>)
    requires AreGroups(gs) && AreNumbers(ns) && 2 <= |ns| <= 4 && |parts| + |gs| <= 6
    ensures Join(gs + [Dots(ns)]) != "" && HexValue(Join(gs + [Dots(ns)])[0]) >= 0
    ensures ScanFrom(Join(gs + [Dots(ns)]), parts, gap) == QuadScan(ns, parts + Values(gs), gap)
  {
    ScanDots(ns, parts, gap);
    hide ScanFrom, Dots, QuadScan, Value, HexValue, IsNumber;
    if gs == [] {
      NoGroups(parts);
      assert gs + [Dots(ns)] == [Dots(ns)];
    } else {
      var g, rest := gs[0], gs[1..];
      JoinApart(gs, Dots(ns));
      ValuesApart(gs, parts);
      hide Join, Values;
      ScanMixed(rest, ns, parts + [Value(g)], gap);
      ScanColon(g, Join(rest + [Dots(ns)]), parts, gap);
    }
  }

  lemma JoinApart(gs: seq<string>, last: string)
    requires AreGroups(gs) && gs != []
    ensures Join(gs + [last]) == gs[0] + (":" + Join(gs[1..] + [last]))
    ensures HexValue(Join(gs + [last])[0]) >= 0
  {
    assert (gs + [last])[1..] == gs[1..] + [last] && (gs + [last])[0] == gs[0];
    assert IsGroup(gs[0]);
  }

  // ---------------------------------------------------------------- whatever the scan accepts is a text form

  predicate Ended(r: Scan) { r.Past? || (r.Stop? && r.rest == "") }

  /** The dotted decimal notation at the end, if there is any. */
  function Tail(ns: seq<string>): seq<string> { if ns == [] then [] else [Dots(ns)] }

  function Outcome(ns: seq<string>, now: seq<nat>, gap: Option<nat>): Scan
    requires AreNumbers(ns)
  {
    if ns == [] then Stop("", now, gap) else QuadScan(ns, now, gap)
  }

  /** What a scan that comes to the end of the string has read: groups `pre`, then perhaps a "::" and groups
      `post`, then perhaps numbers. */
  ghost predicate Reads(t: string, parts: seq<nat>, gap: Option<nat>, r: Scan,
                        pre: seq<string>, post: seq<string>, double: bool, ns: seq<string>) {
    && AreGroups(pre) && AreGroups(post) && AreNumbers(ns)
    && (ns != [] ==> 2 <= |ns| <= 4 && |parts| + |pre| + |post| <= 6)
    && r == Outcome(ns, parts + Values(pre) + Values(post), if double then Some(|parts| + |pre|) else gap)
    && (if double then gap.None? && pre != [] && t == Short(pre, post + Tail(ns))
        else post == [] && t == Join(pre + Tail(ns)))
  }

  lemma ReadsLast(g: string, parts: seq<nat>, gap: Option<nat>)
    requires IsGroup(g)
    ensures Reads(g, parts, gap, Stop("", parts + [Value(g)], gap), [g], [], false, [])
  {
    assert AreGroups([g]);
    ValuesApart([g], parts);
    assert parts + Values([g]) + [] == parts + Values([g]);
    assert [g] + Tail([]) == [g];
  }

  lemma ReadsNothing(parts: seq<nat>, gap: Option<nat>)
    ensures Reads("", parts, gap, Stop("", parts, gap), [], [], false, [])
  {
    NoGroups(parts);
    assert parts + Values([]) + Values([]) == parts && [] + Tail([]) == [];
  }

  lemma ReadsQuad(ns: seq<string>, parts: seq<nat>, gap: Option<nat>)
    requires AreNumbers(ns) && 2 <= |ns| <= 4 && |parts| <= 6
    ensures Reads(Dots(ns), parts, gap, QuadScan(ns, parts, gap), [], [], false, ns)
  {
    assert parts + Values([]) + Values([]) == parts;
    assert [] + Tail(ns) == [Dots(ns)];
    hide Dots;
  }

  lemma ReadsMore(g: string, t: string, parts: seq<nat>, gap: Option<nat>, r: Scan,
                  pre: seq<string>, post: seq<string>, double: bool, ns: seq<string>)
    requires IsGroup(g) && t != "" && Reads(t, parts + [Value(g)], gap, r, pre, post, double, ns)
    ensures Reads(g + (":" + t), parts, gap, r, [g] + pre, post, double, ns)
  {
    var gs := [g] + pre;
    assert gs[0] == g && gs[1..] == pre;
    assert AreGroups(gs);
    ValuesApart(gs, parts);
    hide Values, Outcome, Tail;
    if double {
      ShortApart(gs, post + Tail(ns));
    } else {
      var tail := Tail(ns);
      assert gs + tail == [g] + (pre + tail);
      assert pre + tail != [];
      JoinFirst(g, pre + tail);
    }
  }

  lemma JoinFirst(g: string, rest: seq<string>)
    requires rest != []
    ensures Join([g] + rest) == g + (":" + Join(rest))
  {
    assert ([g] + rest)[1..] == rest;
  }

  lemma ReadsGap(g: string, t: string, parts: seq<nat>, r: Scan, pre: seq<string>, ns: seq<string>)
    requires IsGroup(g) && Reads(t, parts + [Value(g)], Some(|parts| + 1), r, pre, [], false, ns)
    ensures Reads(g + ("::" + t), parts, None, r, [g], pre, true, ns)
  {
    assert AreGroups([g]);
    ValuesApart([g], parts);
    NoGroups(parts + [Value(g)] + Values(pre));
    hide Join, Values, Outcome, Tail;
    ShortApart([g], pre + Tail(ns));
  }

  /** How reading numbers went on. */
  lemma NumberBegan(u: string, k: nat) returns (g: string, t: string)
    requires ReadNumbers(u, k) != Malformed && k > 0 && u != ""
    ensures IsNumber(g) && u == "." + (g + t)
    ensures ReadNumbers(u, k) == match ReadNumbers(t, k - 1)
      case Read(rest, values) => Read(rest, [Decimal(g)] + values)
      case other => other
  {
    var v := u[1..];
    var n := DigitRun(v, 3);
    g, t := v[..n], v[n..];
    hide Decimal, IsNumber, DigitRun;
    Halves(u, 1);
    Halves(v, n);
  }

  /** Numbers read to the end of the string are what the string consists of. */
  lemma {:induction false} NumbersSound(u: string, k: nat) returns (ns: seq<string>)
    requires ReadNumbers(u, k).Beyond? || (ReadNumbers(u, k).Read? && ReadNumbers(u, k).rest == "")
    ensures AreNumbers(ns) && |ns| <= k && u == DotTail(ns) && ReadNumbers(u, k) == NumbersThere(ns, k)
    decreases k
  {
    hide Decimal, IsNumber;
    if k == 0 || u == "" {
      ns := [];
      NoneThere(u, k);
    } else {
      hide ReadNumbers, NumbersThere, DotTail;
      var g, t := NumberBegan(u, k);
      var rest := NumbersSound(t, k - 1);
      ns := [g] + rest;
      MoreThere(g, rest, k);
    }
  }

  lemma NoneThere(u: string, k: nat)
    requires u == "" || (k == 0 && ReadNumbers(u, k) == Read("", []))
    ensures u == DotTail([]) && ReadNumbers(u, k) == NumbersThere([], k)
  {
  }

  lemma MoreThere(g: string, rest: seq<string>, k: nat)
    requires IsNumber(g) && AreNumbers(rest) && |rest| < k
    ensures AreNumbers([g] + rest) && DotTail([g] + rest) == "." + (g + DotTail(rest))
    ensures NumbersThere([g] + rest, k) == match NumbersThere(rest, k - 1)
      case Read(t, values) => Read(t, [Decimal(g)] + values)
      case other => other
  {
    hide Decimal, IsNumber;
    var ns := [g] + rest;
    assert ns[1..] == rest && ns[0] == g;
  }

  /** A turn of the main loop: the last group, a group and ":", a group and "::", or dotted decimal notation. */
  datatype Turn = Last | Colon | Double | Quad

  ghost predicate Began(turn: Turn, t: string, parts: seq<nat>, gap: Option<nat>, g: string, u: string, ns: seq<string>)
    requires IsGroup(g) && AreNumbers(ns)
  {
    var r, now := ScanFrom(t, parts, gap), parts + [Value(g)];
    match turn
    case Last => t == g && r == Stop("", now, gap)
    case Colon => t == g + (":" + u) && u != "" && r == ScanFrom(u, now, gap)
    case Double => t == g + ("::" + u) && gap.None? && r == ScanFrom(u, now, Some(|now|))
    case Quad => 2 <= |ns| <= 4 && |parts| <= 6 && t == Dots(ns) && r == QuadScan(ns, parts, gap)
  }

  /** How a scan that comes to the end of the string began. */
  lemma ScanBegan(t: string, parts: seq<nat>, gap: Option<nat>)
    returns (turn: Turn, g: string, u: string, ns: seq<string>)
    requires Ended(ScanFrom(t, parts, gap)) && t != "" && |parts| < 8
    ensures IsGroup(g) && |u| < |t| && AreNumbers(ns)
    ensures (turn.Last? || turn.Quad? ==> u == "") && (!turn.Quad? ==> ns == [])
    ensures Began(turn, t, parts, gap, g, u, ns)
  {
    hide Value, HexValue;
    var n := HexRun(t, 4);
    g, ns := t[..n], [];
    assert IsGroup(g);
    Halves(t, n);
    if n < |t| && t[n] == '.' {
      turn, u := Quad, "";
      ScanTurn(t, parts, gap, n);
      hide ScanFrom, IsGroup, HexRun, Value;
      ns := QuadBegan(g, t[n..], parts, gap);
    } else {
      turn, u := ScanWent(t, parts, gap, n);
    }
  }

  lemma ScanTurn(t: string, parts: seq<nat>, gap: Option<nat>, n: nat)
    requires t != "" && |parts| < 8 && n == HexRun(t, 4) && n > 0 && n < |t| && t[n] == '.'
    ensures ScanFrom(t, parts, gap) == if |t| == n + 1 then Fail else ScanQuad(t[..n], t[n..], parts, gap)
  {
    hide Value, HexValue, HexRun, ScanQuad;
  }

  lemma QuadBegan(g: string, u: string, parts: seq<nat>, gap: Option<nat>) returns (ns: seq<string>)
    requires u != "" && Ended(ScanQuad(g, u, parts, gap))
    ensures AreNumbers(ns) && 2 <= |ns| <= 4 && |parts| <= 6 && g + u == Dots(ns)
    ensures ScanQuad(g, u, parts, gap) == QuadScan(ns, parts, gap)
  {
    var rest := NumbersSound(u, 3);
    hide ReadNumbers, Decimal, IsNumber;
    ns := [g] + rest;
    assert ns[1..] == rest && ns[0] == g;
    TailStart(rest);
  }

  lemma ScanWent(t: string, parts: seq<nat>, gap: Option<nat>, n: nat) returns (turn: Turn, u: string)
    requires Ended(ScanFrom(t, parts, gap)) && t != "" && |parts| < 8 && n == HexRun(t, 4) > 0
    requires n < |t| ==> t[n] != '.'
    ensures |u| < |t| && (turn.Last? ==> u == "")
    ensures var r, now, v := ScanFrom(t, parts, gap), parts + [Value(t[..n])], t[n..];
      match turn
      case Last => v == "" && r == Stop("", now, gap)
      case Colon => v == ":" + u && u != "" && r == ScanFrom(u, now, gap)
      case Double => v == "::" + u && gap.None? && r == ScanFrom(u, now, Some(|now|))
      case Quad => false
  {
    var v := t[n..];
    hide Value, HexValue, HexRun, ScanQuad;
    if v == "" {
      turn, u := Last, "";
    } else if v[1] != ':' {
      turn, u := Colon, v[1..];
      Halves(v, 1);
    } else {
      turn, u := Double, v[2..];
      Halves(v, 2);
    }
  }

  lemma Halves(t: string, n: nat)
    requires n <= |t|
    ensures t == t[..n] + t[n..]
    ensures n == 1 ==> t == [t[0]] + t[1..]
    ensures n == 2 ==> t == [t[0], t[1]] + t[2..]
  {
  }

  lemma GoesOn(turn: Turn, t: string, parts: seq<nat>, gap: Option<nat>, g: string, u: string)
    requires IsGroup(g) && Began(turn, t, parts, gap, g, u, []) && (turn.Colon? || turn.Double?)
    ensures ScanFrom(t, parts, gap)
         == ScanFrom(u, parts + [Value(g)], if turn.Double? then Some(|parts| + 1) else gap)
  {
    hide ScanFrom, Value;
  }

  lemma AfterLast(t: string, parts: seq<nat>, gap: Option<nat>, g: string)
    requires IsGroup(g) && Began(Last, t, parts, gap, g, "", [])
    ensures Reads(t, parts, gap, ScanFrom(t, parts, gap), [g], [], false, [])
  {
    hide ScanFrom, Value, Reads, IsGroup;
    ReadsLast(g, parts, gap);
  }

  lemma AfterColon(t: string, parts: seq<nat>, gap: Option<nat>, g: string, u: string,
                   pre: seq<string>, post: seq<string>, double: bool, ns: seq<string>)
    requires IsGroup(g) && Began(Colon, t, parts, gap, g, u, [])
    requires Reads(u, parts + [Value(g)], gap, ScanFrom(t, parts, gap), pre, post, double, ns)
    ensures Reads(t, parts, gap, ScanFrom(t, parts, gap), [g] + pre, post, double, ns)
  {
    hide ScanFrom, Value, Reads, IsGroup;
    ReadsMore(g, u, parts, gap, ScanFrom(t, parts, gap), pre, post, double, ns);
  }

  lemma AfterDouble(t: string, parts: seq<nat>, gap: Option<nat>, g: string, u: string,
                    pre: seq<string>, post: seq<string>, double: bool, ns: seq<string>)
    requires IsGroup(g) && Began(Double, t, parts, gap, g, u, [])
    requires Reads(u, parts + [Value(g)], Some(|parts| + 1), ScanFrom(t, parts, gap), pre, post, double, ns)
    ensures Reads(t, parts, gap, ScanFrom(t, parts, gap), [g], pre, true, ns)
  {
    assert t == g + ("::" + u) && gap == None by { hide ScanFrom, Value, Reads, IsGroup; }
    hide Began, ScanFrom, Value, Reads;
    DoubleReads(g, u, parts, ScanFrom(t, parts, gap), pre, post, double, ns);
  }

  lemma DoubleReads(g: string, u: string, parts: seq<nat>, r: Scan,
                    pre: seq<string>, post: seq<string>, double: bool, ns: seq<string>)
    requires IsGroup(g) && Reads(u, parts + [Value(g)], Some(|parts| + 1), r, pre, post, double, ns)
    ensures Reads(g + ("::" + u), parts, None, r, [g], pre, true, ns)
  {
    var now := parts + [Value(g)];
    hide Value, Reads;
    OneDouble(u, now, |parts| + 1, r, pre, post, double, ns);
    ReadsGap(g, u, parts, r, pre, ns);
  }

  lemma AfterQuad(t: string, parts: seq<nat>, gap: Option<nat>, g: string, ns: seq<string>)
    requires IsGroup(g) && AreNumbers(ns) && Began(Quad, t, parts, gap, g, "", ns)
    ensures Reads(t, parts, gap, ScanFrom(t, parts, gap), [], [], false, ns)
  {
    hide ScanFrom, Value, Reads, IsGroup, IsNumber, QuadScan, Dots;
    ReadsQuad(ns, parts, gap);
  }

  /** Whatever the scan reads to the end is groups, perhaps with a "::" among them, and perhaps numbers. */
  lemma {:induction false} ScanSound(t: string, parts: seq<nat>, gap: Option<nat>)
    returns (pre: seq<string>, post: seq<string>, double: bool, ns: seq<string>)
    requires Ended(ScanFrom(t, parts, gap))
    ensures Reads(t, parts, gap, ScanFrom(t, parts, gap), pre, post, double, ns)
    decreases |t|
  {
    pre, post, double, ns := [], [], false, [];
    if t == "" || |parts| >= 8 {
      ReadsNothing(parts, gap);
    } else {
      hide ScanFrom, Reads, Began, IsNumber;
      var turn, g, u, qs := ScanBegan(t, parts, gap);
      assert IsGroup(g);
      var now := parts + [Value(g)];
      hide IsGroup, Value;
      match turn {
        case Last =>
          AfterLast(t, parts, gap, g);
          pre := [g];
        case Colon =>
          GoesOn(turn, t, parts, gap, g, u);
          pre, post, double, ns := ScanSound(u, now, gap);
          AfterColon(t, parts, gap, g, u, pre, post, double, ns);
          pre := [g] + pre;
        case Double =>
          GoesOn(turn, t, parts, gap, g, u);
          pre, post, double, ns := ScanSound(u, now, Some(|now|));
          AfterDouble(t, parts, gap, g, u, pre, post, double, ns);
          pre, post, double := [g], pre, true;
        case Quad =>
          AfterQuad(t, parts, gap, g, qs);
          ns := qs;
      }
    }
  }

  lemma OneDouble(t: string, parts: seq<nat>, at: nat, r: Scan, pre: seq<string>, post: seq<string>, double: bool, ns: seq<string>)
    requires Reads(t, parts, Some(at), r, pre, post, double, ns)
    ensures !double && post == []
  {
  }

  // ---------------------------------------------------------------- the parser accepts exactly the text forms

  lemma {:induction false} JoinLength(gs: seq<string>)
    requires AreGroups(gs)
    ensures gs != [] ==> 1 <= |Join(gs)| < 5 * |gs|
  {
    if gs != [] {
      assert IsGroup(gs[0]);
      JoinLength(gs[1..]);
    }
  }

  lemma {:induction false} ShortLength(pre: seq<string>, post: seq<string>)
    requires AreGroups(pre) && AreGroups(post)
    ensures 2 <= |Short(pre, post)| <= 5 * (|pre| + |post|) + 2
  {
    JoinLength(post);
    if pre != [] {
      assert IsGroup(pre[0]);
      ShortLength(pre[1..], post);
    }
  }

  lemma FullAccepted(s: string, a: seq<nat>, gs: seq<string>)
    requires FullForm(s, a, gs)
    ensures Parse(s) == Address(a)
  {
    assert HexValue(':') == -1;
    hide ScanFrom, Values, Join, IsGroup, HexValue, Parse;
    assert ScanFrom(s, [], None) == Stop("", a, None) by {
      ScanGroups(gs, [], None);
      assert [] + Values(gs) == Values(gs);
    }
    assert s != "" && s[0] != ':' && |s| < 40 by {
      JoinStart(gs);
      JoinLength(gs);
    }
    hide FullForm;
    WholeScan(s, a);
  }

  lemma WholeScan(s: string, a: seq<nat>)
    requires s != "" && s[0] != ':' && |s| <= MAX_LENGTH && |a| == 8 && ScanFrom(s, [], None) == Stop("", a, None)
    ensures Parse(s) == Address(a)
  {
    hide ScanFrom;
  }

  lemma FinishGap(x: seq<nat>, y: seq<nat>)
    requires |x| + |y| <= 7
    ensures Finish(Stop("", x + y, Some(|x|))) == Address(x + Zeros(8 - |x| - |y|) + y)
  {
    assert (x + y)[..|x|] == x && (x + y)[|x|..] == y;
    hide Zeros;
  }

  lemma ShortAccepted(s: string, a: seq<nat>, pre: seq<string>, post: seq<string>)
    requires ShortForm(s, a, pre, post)
    ensures Parse(s) == Address(a)
  {
    ShortLength(pre, post);
    FinishGap(Values(pre), Values(post));
    if pre == [] {
      assert s == "::" + Join(post) && Values(pre) == [];
      assert s[2..] == Join(post) && s[0] == ':' && s[1] == ':' by { Prefixed("::", Join(post)); }
      hide ScanFrom, Join, Values, Finish, Short;
      ScanGroups(post, [], Some(0));
    } else {
      assert HexValue(':') == -1;
      ShortStart(pre, post);
      assert [] + Values(pre) == Values(pre);
      hide ScanFrom, Values, Join, Short, Finish, HexValue;
      ScanToGap(pre, post, []);
    }
  }

  // Dotted decimal notation

  lemma {:induction false} DotsLength(ns: seq<string>)
    requires AreNumbers(ns)
    ensures |DotTail(ns)| <= 4 * |ns|
    ensures ns != [] ==> |Dots(ns)| < 4 * |ns|
  {
    if ns != [] {
      assert IsNumber(ns[0]);
      hide IsNumber;
      DotsLength(ns[1..]);
    }
  }

  lemma {:induction false} JoinLastLength(gs: seq<string>, last: string)
    requires AreGroups(gs)
    ensures |Join(gs + [last])| <= 5 * |gs| + |last|
  {
    if gs == [] {
      assert gs + [last] == [last];
    } else {
      assert IsGroup(gs[0]);
      JoinApart(gs, last);
      hide Join;
      JoinLastLength(gs[1..], last);
    }
  }

  lemma {:induction false} ShortLastLength(pre: seq<string>, post: seq<string>, last: string)
    requires AreGroups(pre) && AreGroups(post)
    ensures |Short(pre, post + [last])| <= 5 * (|pre| + |post|) + 2 + |last|
  {
    JoinLastLength(post, last);
    hide Join;
    if pre != [] {
      assert IsGroup(pre[0]);
      ShortLastLength(pre[1..], post, last);
    }
  }

  lemma ParseDoubleFirst(t: string)
    requires |t| + 2 <= MAX_LENGTH
    ensures Parse("::" + t) == Finish(ScanFrom(t, [], Some(0)))
  {
    Prefixed("::", t);
    hide ScanFrom, Finish;
  }

  lemma ParseGroupFirst(s: string)
    requires s != "" && HexValue(s[0]) >= 0 && |s| <= MAX_LENGTH
    ensures Parse(s) == Finish(ScanFrom(s, [], None))
  {
    assert HexValue(':') == -1;
    hide ScanFrom, Finish, HexValue;
  }

  /** The scan of groups, "::" and numbers. */
  lemma ScanShortQuad(pre: seq<string>, post: seq<string>, ns: seq<string>)
    requires AreGroups(pre) && AreGroups(post) && AreNumbers(ns) && 2 <= |ns| <= 4 && |pre| + |post| <= 6
    requires |Short(pre, post + [Dots(ns)])| <= MAX_LENGTH
    ensures Parse(Short(pre, post + [Dots(ns)])) == Finish(QuadScan(ns, Values(pre) + Values(post), Some(|pre|)))
  {
    var rest := post + [Dots(ns)];
    hide ScanFrom, Parse, Join, Values, Finish, QuadScan, Dots, HexValue, IsNumber;
    if pre == [] {
      NoGroups(Values(post));
      assert Values(pre) + Values(post) == [] + Values(post) by { NoGroups([]); }
      ParseDoubleFirst(Join(rest));
      ScanMixed(post, ns, [], Some(0));
    } else {
      ShortStart(pre, rest);
      assert [] + Values(pre) == Values(pre);
      hide Short;
      ParseGroupFirst(Short(pre, rest));
      ScanGap(pre, rest, []);
      ScanMixed(post, ns, Values(pre), Some(|pre|));
    }
  }

  lemma ScanFullQuad(gs: seq<string>, ns: seq<string>)
    requires AreGroups(gs) && AreNumbers(ns) && 2 <= |ns| <= 4 && |gs| <= 6
    requires |Join(gs + [Dots(ns)])| <= MAX_LENGTH
    ensures Parse(Join(gs + [Dots(ns)])) == Finish(QuadScan(ns, Values(gs), None))
  {
    assert [] + Values(gs) == Values(gs);
    hide ScanFrom, Parse, Values, Join, Finish, HexValue, QuadScan, Dots, IsNumber;
    ScanMixed(gs, ns, [], None);
    ParseGroupFirst(Join(gs + [Dots(ns)]));
  }

  lemma FullQuadAccepted(s: string, a: seq<nat>, gs: seq<string>, ns: seq<string>)
    requires FullQuadForm(s, a, gs, ns)
    ensures Parse(s) == Address(a)
  {
    DotsLength(ns);
    JoinLastLength(gs, Dots(ns));
    ScanFullQuad(gs, ns);
    hide Parse, Join, Dots, Values, Decimals;
  }

  lemma ShortQuadAccepted(s: string, a: seq<nat>, pre: seq<string>, post: seq<string>, ns: seq<string>)
    requires ShortQuadForm(s, a, pre, post, ns)
    ensures Parse(s) == Address(a)
  {
    hide IsGroup, IsNumber, Parse, Short, Dots, Values, Decimals, Zeros, QuadParts, Finish;
    DotsLength(ns);
    ShortLastLength(pre, post, Dots(ns));
    ScanShortQuad(pre, post, ns);
    var x, y, q := Values(pre), Values(post), QuadParts(Decimals(ns));
    hide QuadScan, ShortQuadForm;
    assert QuadScan(ns, x + y, Some(|pre|)) == Stop("", x + (y + q), Some(|pre|)) by { QuadAtEnd(ns, x, y, |pre|); }
    assert a == x + Zeros(8 - |x| - |y + q|) + (y + q) by { ShortQuadParts(s, a, pre, post, ns); }
    FinishGap(x, y + q);
  }

  lemma QuadAtEnd(ns: seq<string>, x: seq<nat>, y: seq<nat>, at: nat)
    requires AreNumbers(ns) && |ns| == 4
    ensures QuadScan(ns, x + y, Some(at)) == Stop("", x + (y + QuadParts(Decimals(ns))), Some(at))
  {
    Associate(x, y, QuadParts(Decimals(ns)));
    hide IsNumber, Decimals, QuadParts;
  }

  lemma ShortQuadParts(s: string, a: seq<nat>, pre: seq<string>, post: seq<string>, ns: seq<string>)
    requires ShortQuadForm(s, a, pre, post, ns)
    ensures var x, y := Values(pre), Values(post) + QuadParts(Decimals(ns));
      |x| + |y| <= 7 && a == x + Zeros(8 - |x| - |y|) + y
  {
    hide IsGroup, IsNumber, Values, Decimals, QuadParts, Zeros, Short, Dots;
  }

  // Whatever is accepted

  lemma OutcomeFits(ns: seq<string>, now: seq<nat>)
    ensures ns == [] ==> forall gap :: Outcome(ns, now, gap) == Stop("", now, gap)
  {
  }

  /** What Parse has scanned when it comes to the end of the string. */
  ghost predicate Scanned(s: string, pre: seq<string>, post: seq<string>, gap: bool, ns: seq<string>) {
    && AreGroups(pre) && AreGroups(post) && AreNumbers(ns) && (!gap ==> post == [])
    && |pre| + |post| <= 8 && (ns != [] ==> 2 <= |ns| <= 4 && |pre| + |post| <= 6)
    && (s == if gap then Short(pre, post + Tail(ns)) else Join(pre + Tail(ns)))
    && Parse(s) == Finish(Outcome(ns, Values(pre) + Values(post), if gap then Some(|pre|) else None))
  }

  lemma DoubleFirst(s: string) returns (post: seq<string>, ns: seq<string>)
    requires !Parse(s).Invalid? && |s| >= 2 && s[0] == ':' && s[1] == ':'
    ensures Scanned(s, [], post, true, ns)
  {
    var pre, double;
    pre, post, double, ns := ScanSound(s[2..], [], Some(0));
    hide ScanFrom, Finish;
    OutcomeFits(ns, [] + Values(pre) + Values(post));
    OneDouble(s[2..], [], 0, ScanFrom(s[2..], [], Some(0)), pre, post, double, ns);
    hide Outcome;
    Halves(s, 2);
    NoGroups([]);
    hide Values, Join, Tail, IsGroup, IsNumber;
    assert [] + Values(pre) + Values([]) == Values([]) + Values(pre);
    post := pre;
  }

  lemma GroupFirst(s: string) returns (pre: seq<string>, post: seq<string>, gap: bool, ns: seq<string>)
    requires !Parse(s).Invalid? && !(|s| >= 2 && s[0] == ':' && s[1] == ':')
    ensures Scanned(s, pre, post, gap, ns)
  {
    ParseNoDouble(s);
    hide *;
    pre, post, gap, ns := ScanSound(s, [], None);
    GroupFirstScanned(s, ScanFrom(s, [], None), pre, post, gap, ns);
  }

  lemma GroupFirstScanned(s: string, r: Scan, pre: seq<string>, post: seq<string>, gap: bool, ns: seq<string>)
    requires Reads(s, [], None, r, pre, post, gap, ns) && Parse(s) == Finish(r) && (r.Stop? ==> |r.parts| <= 8)
    ensures Scanned(s, pre, post, gap, ns)
  {
    hide Finish, Parse, Values, Join, Short, Tail, IsGroup, IsNumber;
    OutcomeFits(ns, [] + Values(pre) + Values(post));
    hide Outcome;
    assert [] + Values(pre) + Values(post) == Values(pre) + Values(post);
  }

  lemma ParseNoDouble(s: string)
    requires !Parse(s).Invalid? && !(|s| >= 2 && s[0] == ':' && s[1] == ':')
    ensures Parse(s) == Finish(ScanFrom(s, [], None)) && Ended(ScanFrom(s, [], None))
  {
    hide ScanFrom;
  }

  lemma ParseScanned(s: string) returns (pre: seq<string>, post: seq<string>, gap: bool, ns: seq<string>)
    requires !Parse(s).Invalid?
    ensures |s| <= MAX_LENGTH && Scanned(s, pre, post, gap, ns)
  {
    hide Scanned, ScanFrom, Finish;
    if |s| >= 2 && s[0] == ':' && s[1] == ':' {
      pre, gap := [], true;
      post, ns := DoubleFirst(s);
    } else {
      pre, post, gap, ns := GroupFirst(s);
    }
  }

  lemma AcceptedIsForm(s: string, a: seq<nat>)
    requires Parse(s) == Address(a)
    ensures TextForm(s, a)
  {
    var pre, post, gap, ns := ParseScanned(s);
    hide Parse, Outcome, TextForm, Finish, Values, Join, Short, Tail;
    if ns == [] { HexForm(s, a, pre, post, gap); } else { QuadForm(s, a, pre, post, gap, ns); }
  }

  lemma HexForm(s: string, a: seq<nat>, pre: seq<string>, post: seq<string>, gap: bool)
    requires AreGroups(pre) && AreGroups(post) && |pre| + |post| <= 8 && (!gap ==> post == [])
    requires s == if gap then Short(pre, post + Tail([])) else Join(pre + Tail([]))
    requires Finish(Outcome([], Values(pre) + Values(post), if gap then Some(|pre|) else None)) == Address(a)
    ensures TextForm(s, a)
  {
    var x, y := Values(pre), Values(post);
    NoTail(pre);
    NoTail(post);
    assert !gap ==> x + y == x;
    hide Values, Join, Short, Zeros, Tail, IsGroup;
    if gap {
      hide FullForm, FullQuadForm, ShortQuadForm;
      FinishGap(x, y);
      assert ShortForm(s, a, pre, post);
    } else {
      hide ShortForm, FullQuadForm, ShortQuadForm;
      assert FullForm(s, a, pre);
    }
  }

  lemma QuadForm(s: string, a: seq<nat>, pre: seq<string>, post: seq<string>, gap: bool, ns: seq<string>)
    requires AreGroups(pre) && AreGroups(post) && |pre| + |post| <= 6 && (!gap ==> post == [])
    requires AreNumbers(ns) && 2 <= |ns| <= 4
    requires s == if gap then Short(pre, post + Tail(ns)) else Join(pre + Tail(ns))
    requires Finish(Outcome(ns, Values(pre) + Values(post), if gap then Some(|pre|) else None)) == Address(a)
    ensures TextForm(s, a)
  {
    var x, y, q := Values(pre), Values(post), if |ns| == 4 then QuadParts(Decimals(ns)) else [];
    Associate(x, y, q);
    assert !gap ==> x + y == x;
    hide Values, Join, Short, Zeros, Decimals, QuadParts, Dots, IsGroup, IsNumber;
    if gap {
      hide FullForm, FullQuadForm, ShortForm;
      FinishGap(x, y + q);
      assert ShortQuadForm(s, a, pre, post, ns);
    } else {
      hide FullForm, ShortForm, ShortQuadForm;
      assert FullQuadForm(s, a, pre, ns);
    }
  }

  lemma NoTail(gs: seq<string>)
    ensures gs + Tail([]) == gs
  {
  }

  /** from_string gives an address exactly for its text forms, for every string. */
  lemma ParseExact(s: string, a: seq<nat>)
    ensures Parse(s) == Address(a) <==> TextForm(s, a)
  {
    hide Parse, FullForm, ShortForm, FullQuadForm, ShortQuadForm;
    if Parse(s) == Address(a) { AcceptedIsForm(s, a); }
    if gs :| FullForm(s, a, gs) { FullAccepted(s, a, gs); }
    if pre, post :| ShortForm(s, a, pre, post) { ShortAccepted(s, a, pre, post); }
    if gs, ns :| FullQuadForm(s, a, gs, ns) { FullQuadAccepted(s, a, gs, ns); }
    if pre, post, ns :| ShortQuadForm(s, a, pre, post, ns) { ShortQuadAccepted(s, a, pre, post, ns); }
  }

  lemma CutShortOverruns(s: string, pre: seq<string>, post: seq<string>, gap: bool, ns: seq<string>)
    requires CutShort(s, pre, post, gap, ns)
    ensures Parse(s) == Overrun
  {
    if gap { ScanShortQuad(pre, post, ns); } else { ScanFullQuad(pre, ns); }
    hide Parse, Short, Join, Dots, Values;
  }

  /** from_string reads past the end of the string exactly when dotted decimal notation that could still become
      right breaks off with the string after its second or third number. */
  lemma OverrunExact(s: string)
    ensures Parse(s) == Overrun <==>
      exists pre: seq<string>, post: seq<string>, gap: bool, ns: seq<string> :: CutShort(s, pre, post, gap, ns)
  {
    if Parse(s) == Overrun {
      var pre, post, gap, ns := ParseScanned(s);
      hide Parse, Short, Join, Dots, Values;
      assert CutShort(s, pre, post, gap, ns);
    }
    hide Parse, CutShort;
    if pre: seq<string>, post: seq<string>, gap: bool, ns: seq<string> :| CutShort(s, pre, post, gap, ns) {
      CutShortOverruns(s, pre, post, gap, ns);
    }
  }
}
