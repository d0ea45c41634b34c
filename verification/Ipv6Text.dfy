/** The canonical text of an IPv6 address (RFC 5952 section 4), and ipv6_address::to_string
    (lib/ipv6_address.cpp:270-362), which writes it into a buffer of forty characters. */
module Ipv6Text {
  import opened Ipv6

  // ---------------------------------------------------------------- the canonical form

  /** Lower case, and no zero in front of other digits (sections 4.1 and 4.3). */
  predicate ShortestGroup(g: string) {
    IsGroup(g) && (forall i :: 0 <= i < |g| ==> !('A' <= g[i] <= 'F')) && (|g| > 1 ==> g[0] != '0')
  }

  predicate ShortestGroups(gs: seq<string>) { forall i :: 0 <= i < |gs| ==> ShortestGroup(gs[i]) }

  predicate ZeroRun(a: seq<nat>, i: nat, n: nat) { i + n <= |a| && forall k :: i <= k < i + n ==> a[k] == 0 }

  /** The first of the longest runs of zero parts (section 4.2.3). */
  ghost predicate Longest(a: seq<nat>, start: nat, len: nat) {
    ZeroRun(a, start, len) && forall i: nat, n: nat :: ZeroRun(a, i, n) ==> n < len || (n == len && start <= i)
  }

  /** All groups written: right when there is no run of two zero parts to shorten (section 4.2.2). */
  ghost predicate CanonicalFull(s: string, a: seq<nat>, gs: seq<string>) {
    FullForm(s, a, gs) && ShortestGroups(gs) && forall i: nat :: !ZeroRun(a, i, 2)
  }

  ghost predicate CanonicalShort(s: string, a: seq<nat>, pre: seq<string>, post: seq<string>) {
    && ShortForm(s, a, pre, post) && ShortestGroups(pre) && ShortestGroups(post)
    && |pre| + |post| <= 6 && Longest(a, |pre|, 8 - |pre| - |post|)
  }

  ghost predicate Canonical(s: string, a: seq<nat>) {
    (exists gs :: CanonicalFull(s, a, gs)) || (exists pre, post :: CanonicalShort(s, a, pre, post))
  }

  // ---------------------------------------------------------------- groups

  function Hex(p: nat): string {
    if p < 16 then [HexChar(p)] else Hex(p / 16) + [HexChar(p % 16)]
  }

  lemma {:induction false} ShortestIsHex(g: string)
    requires ShortestGroup(g)
    ensures g == Hex(Value(g)) && (g[0] != '0' ==> Value(g) >= 1)
  {
    var n := |g| - 1;
    var h, c := g[..n], g[n];
    assert HexValue(c) >= 0 && HexChar(HexValue(c)) == c;
    assert g == h + [c];
    if n == 0 {
      assert Value(g) == HexValue(c);
    } else {
      assert forall i :: 0 <= i < n ==> h[i] == g[i];
      ShortestIsHex(h);
      assert Value(g) == 16 * Value(h) + HexValue(c);
      hide Value, ShortestGroup;
      HexSplits(Value(h), HexValue(c));
    }
  }

  lemma HexSplits(q: nat, d: nat)
    requires q >= 1 && d < 16
    ensures Hex(16 * q + d) == Hex(q) + [HexChar(d)]
  {
  }

  lemma OneMoreDigit(h: string, d: nat)
    requires ShortestGroup(h) && |h| < 4 && h[0] != '0' && d < 16
    ensures ShortestGroup(h + [HexChar(d)]) && Value(h + [HexChar(d)]) == 16 * Value(h) + d
    ensures (h + [HexChar(d)])[0] == h[0]
  {
    var g := h + [HexChar(d)];
    assert g[..|h|] == h && g[|h|] == HexChar(d);
    assert forall i :: 0 <= i < |h| ==> g[i] == h[i];
  }

  lemma FirstDigit(d: nat)
    requires d < 16
    ensures var g := [HexChar(d)]; ShortestGroup(g) && Value(g) == d && (d > 0 ==> g[0] != '0')
  {
    assert [HexChar(d)][..0] == "";
  }

  lemma {:induction false} HexIsShortest(p: nat, digits: nat)
    requires 1 <= digits <= 4 && p < Limit(digits)
    ensures ShortestGroup(Hex(p)) && |Hex(p)| <= digits && Value(Hex(p)) == p && (p > 0 ==> Hex(p)[0] != '0')
  {
    hide ShortestGroup, Value, HexChar, HexValue;
    if p < 16 {
      FirstDigit(p);
    } else {
      HexIsShortest(p / 16, digits - 1);
      assert Hex(p) == Hex(p / 16) + [HexChar(p % 16)];
      hide Hex;
      OneMoreDigit(Hex(p / 16), p % 16);
    }
  }

  /** How many numbers have at most n hexadecimal digits. */
  function Limit(n: nat): nat { if n == 1 then 16 else if n == 2 then 256 else if n == 3 then 4096 else 65536 }

  /** The shortest spelling of each part. */
  function Groups(a: seq<nat>): (gs: seq<string>)
    ensures |gs| == |a| && forall i :: 0 <= i < |a| ==> gs[i] == Hex(a[i])
  {
    if a == [] then [] else [Hex(a[0])] + Groups(a[1..])
  }

  /** Sixteen-bit numbers. */
  predicate AreParts(a: seq<nat>) { forall i :: 0 <= i < |a| ==> a[i] < 65536 }

  lemma {:induction false} GroupsAreShortest(a: seq<nat>)
    requires AreParts(a)
    ensures ShortestGroups(Groups(a)) && AreGroups(Groups(a)) && Values(Groups(a)) == a
  {
    if a != [] {
      HexIsShortest(a[0], 4);
      GroupsAreShortest(a[1..]);
    }
  }

  lemma {:induction false} ShortestAreGroups(gs: seq<string>)
    requires AreGroups(gs) && ShortestGroups(gs)
    ensures gs == Groups(Values(gs))
  {
    if gs != [] {
      ShortestIsHex(gs[0]);
      ShortestAreGroups(gs[1..]);
      assert Values(gs)[1..] == Values(gs[1..]);
    }
  }

  // ---------------------------------------------------------------- one canonical text for each address

  /** The parts before and after the zero run. */
  lemma ShortParts(s: string, a: seq<nat>, pre: seq<string>, post: seq<string>)
    requires CanonicalShort(s, a, pre, post)
    ensures |a| == 8 && pre == Groups(a[..|pre|]) && post == Groups(a[8 - |post|..]) && s == Short(pre, post)
  {
    ShortestAreGroups(pre);
    ShortestAreGroups(post);
    hide Values, Groups, Short, ShortestGroup, IsGroup, Zeros, Longest;
    assert a[..|pre|] == Values(pre) && a[8 - |post|..] == Values(post);
  }

  lemma NotBoth(s: string, t: string, a: seq<nat>, gs: seq<string>, pre: seq<string>, post: seq<string>)
    requires CanonicalFull(s, a, gs)
    ensures !CanonicalShort(t, a, pre, post)
  {
    if CanonicalShort(t, a, pre, post) {
      assert ZeroRun(a, |pre|, 2);
      assert false;
    }
  }

  lemma SameShort(s: string, t: string, a: seq<nat>, pre: seq<string>, post: seq<string>, pre': seq<string>, post': seq<string>)
    requires CanonicalShort(s, a, pre, post) && CanonicalShort(t, a, pre', post')
    ensures s == t
  {
    ShortParts(s, a, pre, post);
    ShortParts(t, a, pre', post');
    assert Longest(a, |pre|, 8 - |pre| - |post|) && Longest(a, |pre'|, 8 - |pre'| - |post'|);
    assert |pre| == |pre'| && |post| == |post'|;
    hide *;
  }

  lemma SameFull(s: string, t: string, a: seq<nat>, gs: seq<string>, gs': seq<string>)
    requires CanonicalFull(s, a, gs) && CanonicalFull(t, a, gs')
    ensures s == t
  {
    ShortestAreGroups(gs);
    ShortestAreGroups(gs');
  }

  /** An address has at most one canonical text. */
  lemma CanonicalUnique(s: string, t: string, a: seq<nat>)
    requires Canonical(s, a) && Canonical(t, a)
    ensures s == t
  {
    hide CanonicalFull, CanonicalShort;
    if gs :| CanonicalFull(s, a, gs) {
      if gs' :| CanonicalFull(t, a, gs') {
        SameFull(s, t, a, gs, gs');
      } else {
        var pre, post :| CanonicalShort(t, a, pre, post);
        NotBoth(s, t, a, gs, pre, post);
      }
    } else {
      var pre, post :| CanonicalShort(s, a, pre, post);
      if gs :| CanonicalFull(t, a, gs) {
        NotBoth(t, s, a, gs, pre, post);
      } else {
        var pre', post' :| CanonicalShort(t, a, pre', post');
        SameShort(s, t, a, pre, post, pre', post');
      }
    }
  }

  /** The canonical text is read back as the address, and fits the buffer of to_string. */
  lemma RoundTrip(s: string, a: seq<nat>)
    requires Canonical(s, a)
    ensures Parse(s) == Address(a) && |s| < 40
  {
    hide Parse, Short, Join, Values;
    if gs :| CanonicalFull(s, a, gs) {
      FullAccepted(s, a, gs);
      JoinLength(gs);
    } else {
      var pre, post :| CanonicalShort(s, a, pre, post);
      ShortAccepted(s, a, pre, post);
      ShortLength(pre, post);
    }
  }

  // ---------------------------------------------------------------- to_string

  /** The eight parts of sixteen bytes. */
  function PartsOf(bytes: seq<nat>): (a: seq<nat>)
    requires |bytes| == 16
    ensures |a| == 8 && forall i :: 0 <= i < 8 ==> a[i] == 256 * bytes[2 * i] + bytes[2 * i + 1]
  {
    seq(8, i requires 0 <= i < 8 => 256 * bytes[2 * i] + bytes[2 * i + 1])
  }

  predicate Bytes(bytes: seq<nat>) { |bytes| == 16 && forall i :: 0 <= i < 16 ==> bytes[i] < 256 }

  /** Runs that end at or before i: the first longest of them. */
  ghost predicate LongestUpTo(a: seq<nat>, end: nat, start: nat, len: nat) {
    && start + len <= end && ZeroRun(a, start, len)
    && forall i: nat, n: nat :: ZeroRun(a, i, n) && i + n <= end ==> n < len || (n == len && start <= i)
  }

  lemma PastNonZero(a: seq<nat>, end: nat, start: nat, len: nat)
    requires LongestUpTo(a, end, start, len) && end < |a| && a[end] != 0
    ensures LongestUpTo(a, end + 1, start, len)
  {
    forall i: nat, n: nat | ZeroRun(a, i, n) && i + n <= end + 1 && !(i + n <= end)
      ensures n < len || (n == len && start <= i)
    {
      assert n == 0 && i == end + 1;
    }
  }

  lemma Crosses(a: seq<nat>, i: nat, n: nat, z: nat)
    requires ZeroRun(a, i, n) && i < z < i + n
    ensures a[z - 1] == 0
  {
  }

  lemma PastZeros(a: seq<nat>, z: nat, end: nat, start: nat, len: nat)
    requires LongestUpTo(a, z, start, len) && z < end <= |a| && ZeroRun(a, z, end - z)
    requires z == 0 || a[z - 1] != 0
    ensures end - z > len ==> LongestUpTo(a, end, z, end - z)
    ensures end - z <= len ==> LongestUpTo(a, end, start, len)
  {
    forall i: nat, n: nat | ZeroRun(a, i, n) && i + n <= end && i + n > z
      ensures i >= z && n <= end - z && (n == end - z ==> i == z)
    {
      if i < z { Crosses(a, i, n, z); }
    }
  }

  /** The scan for the zero run to contract. */
  method FindRun(bytes: seq<nat>) returns (start: nat, len: nat)
    requires Bytes(bytes)
    ensures Longest(PartsOf(bytes), start, len) && start + len <= 8
  {
    ghost var a := PartsOf(bytes);
    start, len := 0, 0;
    var i := 0;
    while i < 8
      invariant i <= 8 && LongestUpTo(a, i, start, len)
      invariant 0 < i < 8 && a[i] == 0 ==> a[i - 1] != 0
    {
      if bytes[2 * i] == 0 && bytes[2 * i + 1] == 0 {
        var z := i;
        i := i + 1;
        while i < 8 && bytes[2 * i] == 0 && bytes[2 * i + 1] == 0
          invariant z < i <= 8 && ZeroRun(a, z, i - z)
        {
          i := i + 1;
        }
        PastZeros(a, z, i, start, len);
        if i - z > len {
          len, start := i - z, z;
        }
      } else {
        PastNonZero(a, i, start, len);
        i := i + 1;
      }
    }
  }

  /** *c++ = ch */
  method Put(buffer: array<char>, c: nat, ch: char) returns (next: nat)
    requires c < buffer.Length
    modifies buffer
    ensures next == c + 1 && buffer[..next] == old(buffer[..c]) + [ch]
  {
    buffer[c] := ch;
    next := c + 1;
  }

  /** The digits of two bytes, one after the other. */
  lemma HexOfBytes(hi: nat, lo: nat)
    requires hi < 256 && lo < 256
    ensures hi > 15 ==> Hex(hi) == [HexChar(hi / 16)] + [HexChar(hi % 16)]
    ensures hi <= 15 ==> Hex(hi) == [HexChar(hi % 16)]
    ensures hi > 0 ==> Hex(16 * hi + lo / 16) == Hex(hi) + [HexChar(lo / 16)]
    ensures hi == 0 ==> Hex(lo / 16) == [HexChar(lo / 16)]
    ensures hi > 0 || lo > 15 ==> Hex(256 * hi + lo) == Hex(16 * hi + lo / 16) + [HexChar(lo % 16)]
    ensures hi == 0 && lo <= 15 ==> Hex(lo) == [HexChar(lo % 16)]
  {
    Nibbles(hi, lo);
    OneDigit(hi % 16);
    OneDigit(hi / 16);
    OneDigit(lo / 16);
    OneDigit(lo % 16);
    if hi > 15 { MoreDigits(hi); }
    if hi > 0 { MoreDigits(16 * hi + lo / 16); }
    if hi > 0 || lo > 15 { MoreDigits(256 * hi + lo); }
    hide HexChar, Hex;
  }

  lemma Nibbles(hi: nat, lo: nat)
    requires hi < 256 && lo < 256
    ensures (16 * hi + lo / 16) / 16 == hi && (16 * hi + lo / 16) % 16 == lo / 16
    ensures (256 * hi + lo) / 16 == 16 * hi + lo / 16 && (256 * hi + lo) % 16 == lo % 16
    ensures hi <= 15 ==> hi % 16 == hi
    ensures lo <= 15 ==> lo % 16 == lo
  {
  }

  lemma MoreDigits(p: nat)
    requires p >= 16
    ensures Hex(p) == Hex(p / 16) + [HexChar(p % 16)]
  {
  }

  lemma OneDigit(d: nat)
    requires d < 16
    ensures Hex(d) == [HexChar(d)]
  {
  }

  /** appendPart: one to four digits, none of them a leading zero. */
  method AppendPart(buffer: array<char>, c: nat, hi: nat, lo: nat) returns (next: nat)
    requires hi < 256 && lo < 256 && c + 4 <= buffer.Length
    modifies buffer
    ensures c < next <= c + 4 && buffer[..next] == old(buffer[..c]) + Hex(256 * hi + lo)
  {
    HexOfBytes(hi, lo);
    hide Hex, HexChar;
    ghost var before := buffer[..c];
    next := c;
    if hi > 0 || lo > 15 {
      if hi > 0 {
        if hi > 15 {
          next := Put(buffer, next, HexChar(hi / 16));
        }
        next := Put(buffer, next, HexChar(hi % 16));
        assert buffer[..next] == before + Hex(hi);
      }
      next := Put(buffer, next, HexChar(lo / 16));
      assert buffer[..next] == before + Hex(16 * hi + lo / 16);
    }
    next := Put(buffer, next, HexChar(lo % 16));
  }

  // ---------------------------------------------------------------- assembling the text

  lemma {:induction false} JoinMore(gs: seq<string>, g: string)
    ensures Join(gs + [g]) == if gs == [] then g else (Join(gs) + ":") + g
  {
    if |gs| > 0 {
      assert (gs + [g])[1..] == gs[1..] + [g];
      JoinMore(gs[1..], g);
      if |gs| > 1 { Inner(gs[0], Join(gs[1..]), g); }
    }
  }

  lemma Inner(a: string, b: string, c: string)
    ensures a + (":" + ((b + ":") + c)) == ((a + (":" + b)) + ":") + c
  {
  }

  /** The short form, as the code writes it. */
  lemma {:induction false} ShortWritten(pre: seq<string>, post: seq<string>)
    ensures Short(pre, post) == ((Join(pre) + ":") + ":") + Join(post)
  {
    if pre == [] {
      assert ("" + ":") + ":" == "::";
    } else if |pre| == 1 {
      Colons(pre[0], Join(post));
    } else {
      ShortWritten(pre[1..], post);
      Nested(pre[0], Join(pre[1..]), Join(post));
    }
  }

  lemma Colons(a: string, c: string)
    ensures a + ("::" + c) == ((a + ":") + ":") + c
  {
  }

  lemma Nested(a: string, b: string, c: string)
    ensures a + (":" + (((b + ":") + ":") + c)) == (((a + (":" + b)) + ":") + ":") + c
  {
  }

  lemma PartsOfBytes(bytes: seq<nat>)
    requires Bytes(bytes)
    ensures AreParts(PartsOf(bytes))
  {
  }

  /** The text of part i, from its bytes. */
  method AppendGroup(buffer: array<char>, c: nat, bytes: seq<nat>, i: nat) returns (next: nat)
    requires Bytes(bytes) && i < 8 && c + 4 <= buffer.Length
    modifies buffer
    ensures c < next <= c + 4 && buffer[..next] == old(buffer[..c]) + Groups(PartsOf(bytes))[i]
  {
    assert Groups(PartsOf(bytes))[i] == Hex(256 * bytes[2 * i] + bytes[2 * i + 1]);
    next := AppendPart(buffer, c, bytes[2 * i], bytes[2 * i + 1]);
  }

  /** The first n groups, with colons between them. */
  method AppendFirst(buffer: array<char>, bytes: seq<nat>, n: nat) returns (c: nat)
    requires Bytes(bytes) && n <= 8 && buffer.Length == 40
    modifies buffer
    ensures c <= 5 * n && (n > 0 ==> c < 5 * n) && buffer[..c] == Join(Groups(PartsOf(bytes))[..n])
  {
    ghost var gs := Groups(PartsOf(bytes));
    hide Groups, PartsOf, Bytes;
    c := 0;
    var i := 0;
    assert gs[..0] == [] && Join([]) == "";
    hide Join;
    while i < n
      invariant i <= n && c <= 5 * i && (i > 0 ==> c < 5 * i) && buffer[..c] == Join(gs[..i])
    {
      if i > 0 {
        c := Put(buffer, c, ':');
      }
      c := AppendGroup(buffer, c, bytes, i);
      assert gs[..i + 1] == gs[..i] + [gs[i]];
      JoinMore(gs[..i], gs[i]);
      i := i + 1;
    }
  }

  /** What stands in the buffer before group i of the last groups is written. */
  function Sofar(gs: seq<string>, e: nat, i: nat): string
    requires |gs| == 8 && e <= i <= 8
  {
    if e < i < 8 then Join(gs[e..i]) + ":" else Join(gs[e..i])
  }

  lemma SofarStep(before: string, gs: seq<string>, e: nat, i: nat)
    requires |gs| == 8 && e <= i < 8
    ensures (before + Sofar(gs, e, i)) + gs[i] == before + Join(gs[e..i + 1])
    ensures (before + Join(gs[e..i + 1])) + ":" == before + (Join(gs[e..i + 1]) + ":")
  {
    assert gs[e..i + 1] == gs[e..i] + [gs[i]];
    JoinMore(gs[e..i], gs[i]);
    assert e == i ==> Join(gs[e..i]) == "" && "" + gs[i] == gs[i];
    assert Sofar(gs, e, i) + gs[i] == Join(gs[e..i + 1]);
    hide Join, Sofar;
    Concat3(before, Sofar(gs, e, i), gs[i]);
    Concat3(before, Join(gs[e..i + 1]), ":");
  }

  lemma Concat3(a: string, b: string, c: string)
    ensures (a + b) + c == a + (b + c)
  {
  }

  /** Groups e, ..., 7, with colons between them, after what is already in the buffer. */
  method AppendLast(buffer: array<char>, start: nat, bytes: seq<nat>, e: nat) returns (c: nat)
    requires Bytes(bytes) && e <= 8 && buffer.Length == 40 && start + 5 * (8 - e) <= 40
    modifies buffer
    ensures start <= c <= start + 5 * (8 - e) && buffer[..c] == old(buffer[..start]) + Join(Groups(PartsOf(bytes))[e..])
  {
    ghost var gs, before := Groups(PartsOf(bytes)), buffer[..start];
    c := start;
    var i := e;
    assert before + Sofar(gs, e, e) == before;
    assert Sofar(gs, e, 8) == Join(gs[e..]) by { assert gs[e..8] == gs[e..]; }
    while i < 8
      invariant e <= i <= 8 && start <= c <= start + 5 * (i - e)
      invariant buffer[..c] == before + Sofar(gs, e, i)
    {
      hide Groups, PartsOf, Bytes, Join;
      SofarStep(before, gs, e, i);
      c := AppendGroup(buffer, c, bytes, i);
      if i < 7 {
        c := Put(buffer, c, ':');
      }
      i := i + 1;
    }
  }

  /** to_string: the canonical text, which fits the buffer and which from_string reads back. */
  method ToString(bytes: seq<nat>) returns (s: string)
    requires Bytes(bytes)
    ensures Canonical(s, PartsOf(bytes)) && |s| < 40
    ensures Parse(s) == Address(PartsOf(bytes))
  {
    ghost var a := PartsOf(bytes);
    PartsOfBytes(bytes);
    var start, len := FindRun(bytes);
    var buffer := new char[40];
    if len >= 2 {
      var c := AppendFirst(buffer, bytes, start);
      c := Put(buffer, c, ':');
      c := Put(buffer, c, ':');
      c := AppendLast(buffer, c, bytes, start + len);
      s := buffer[..c];
      ShortIsWritten(s, a, start, len);
      ShortIsCanonical(s, a, start, len);
    } else {
      var c := AppendFirst(buffer, bytes, 8);
      s := buffer[..c];
      FullIsCanonical(s, a, start, len);
    }
    RoundTrip(s, a);
  }

  /** The parts of the short form spell the address. */
  lemma ShortSpells(a: seq<nat>, start: nat, len: nat)
    requires |a| == 8 && AreParts(a) && start + len <= 8 && len >= 2 && ZeroRun(a, start, len)
    ensures var pre, post := Groups(a[..start]), Groups(a[start + len..]);
      && ShortestGroups(pre) && ShortestGroups(post) && AreGroups(pre) && AreGroups(post)
      && a == Values(pre) + Zeros(8 - |pre| - |post|) + Values(post)
  {
    GroupsAreShortest(a[..start]);
    GroupsAreShortest(a[start + len..]);
    hide Groups, Values, ShortestGroups, AreGroups;
    assert a == a[..start] + Zeros(len) + a[start + len..];
  }

  lemma GroupsEnds(a: seq<nat>, i: nat, j: nat)
    requires i <= j <= |a|
    ensures Groups(a[..i]) == Groups(a)[..i] && Groups(a[j..]) == Groups(a)[j..]
  {
    hide Groups, Hex;
    var gs, l, r := Groups(a), Groups(a[..i]), Groups(a[j..]);
    assert forall k :: 0 <= k < i ==> l[k] == gs[..i][k];
    assert forall k :: 0 <= k < |a| - j ==> r[k] == gs[j..][k];
  }

  lemma ShortIsWritten(s: string, a: seq<nat>, start: nat, len: nat)
    requires |a| == 8 && start + len <= 8
    requires s == ((Join(Groups(a)[..start]) + ":") + ":") + Join(Groups(a)[start + len..])
    ensures s == Short(Groups(a[..start]), Groups(a[start + len..]))
  {
    hide Groups, Join, Short;
    GroupsEnds(a, start, start + len);
    ShortWritten(Groups(a[..start]), Groups(a[start + len..]));
  }

  lemma ShortIsCanonical(s: string, a: seq<nat>, start: nat, len: nat)
    requires |a| == 8 && AreParts(a) && start + len <= 8 && len >= 2 && Longest(a, start, len)
    requires s == Short(Groups(a[..start]), Groups(a[start + len..]))
    ensures Canonical(s, a)
  {
    var pre, post := Groups(a[..start]), Groups(a[start + len..]);
    assert ZeroRun(a, start, len);
    ShortSpells(a, start, len);
    hide Groups, Join, Short, Values, Longest, ShortestGroups, AreGroups, Zeros, ZeroRun, AreParts;
    assert CanonicalShort(s, a, pre, post);
  }

  lemma FullIsCanonical(s: string, a: seq<nat>, start: nat, len: nat)
    requires |a| == 8 && AreParts(a) && len < 2 && Longest(a, start, len) && s == Join(Groups(a)[..8])
    ensures Canonical(s, a)
  {
    var gs := Groups(a);
    GroupsAreShortest(a);
    assert gs[..8] == gs;
    hide Groups, Join, Values, ShortestGroups, AreGroups;
    assert CanonicalFull(s, a, gs);
  }
}
