/** UUID text: the accepted pattern (internal/domain/agent.go) and the time-ordered default generator
    (internal/domain/register.go). The layout is the hex-and-dash one of section 4 of RFC 9562. The generator sets
    no version or variant bits, so nothing is said about section 5.7. */
module UuidText {
  import opened Prelude

  type Byte = x: int | 0 <= x < 256

  predicate IsHex(c: char) {
    '0' <= c <= '9' || 'a' <= c <= 'f' || 'A' <= c <= 'F'
  }

  predicate AllHex(s: string) { forall c :: c in s ==> IsHex(c) }

  /** Groups of hex digits of the given sizes with an optional hyphen between neighbours. */
  predicate MatchesGroups(s: string, groups: seq<nat>)
    decreases |groups|
  {
    if |groups| == 0 then s == []
    else if |groups| == 1 then |s| == groups[0] && AllHex(s)
    else
      var g := groups[0];
      && |s| >= g && AllHex(s[..g])
      && (|| MatchesGroups(s[g..], groups[1..])
          || (|s| > g && s[g] == '-' && MatchesGroups(s[g + 1..], groups[1..])))
  }

  const GROUPS: seq<nat> := [8, 4, 4, 4, 12]

  /** uuidPattern: either alternative. */
  predicate MatchesUuid(s: string) {
    MatchesGroups(s, GROUPS) || (|s| == 32 && AllHex(s))
  }

  function Total(groups: seq<nat>): nat {
    if |groups| == 0 then 0 else groups[0] + Total(groups[1..])
  }

  lemma {:induction false} GroupsShape(s: string, groups: seq<nat>)
    requires MatchesGroups(s, groups)
    ensures Total(groups) <= |s| <= Total(groups) + |groups|
    ensures |groups| > 0 ==> |s| < Total(groups) + |groups|
    ensures forall c :: c in s ==> IsHex(c) || c == '-'
    decreases |groups|
  {
    if |groups| > 1 {
      var g := groups[0];
      if MatchesGroups(s[g..], groups[1..]) {
        GroupsShape(s[g..], groups[1..]);
        assert s == s[..g] + s[g..];
      } else {
        GroupsShape(s[g + 1..], groups[1..]);
        assert s == s[..g] + ['-'] + s[g + 1..];
      }
    } else if |groups| == 1 {
      assert groups[1..] == [];
    }
  }

  /** A valid UUID has 32 to 36 characters, all hex digits or hyphens; no colon in particular. */
  lemma UuidShape(s: string)
    requires MatchesUuid(s)
    ensures 32 <= |s| <= 36
    ensures forall c :: c in s ==> IsHex(c) || c == '-'
    ensures ':' !in s
  {
    GroupsTotal();
    if MatchesGroups(s, GROUPS) { GroupsShape(s, GROUPS); }
    assert !IsHex(':');
  }

  /** The groups p with the marks q between them read s: 8, 4, 4, 4 and 12 hex digits of either case, each two
      neighbours with or without a hyphen between them. */
  ghost predicate Reads(s: string, p: seq<string>, q: seq<string>) {
    && |p| == 5 && |p[0]| == 8 && |p[1]| == |p[2]| == |p[3]| == 4 && |p[4]| == 12
    && (forall k, c :: 0 <= k < 5 && c in p[k] ==> '0' <= c <= '9' || 'a' <= c <= 'f' || 'A' <= c <= 'F')
    && |q| == 4 && (forall k :: 0 <= k < 4 ==> q[k] == "" || q[k] == "-")
    && s == p[0] + (q[0] + (p[1] + (q[1] + (p[2] + (q[2] + (p[3] + (q[3] + p[4])))))))
  }

  lemma GroupForward(s: string, g: nat, rest: seq<nat>) returns (x: string, mark: string, y: string)
    requires |rest| > 0 && MatchesGroups(s, [g] + rest)
    ensures |x| == g && AllHex(x) && (mark == "" || mark == "-") && s == x + (mark + y) && MatchesGroups(y, rest)
  {
    assert ([g] + rest)[1..] == rest;
    x := s[..g];
    if MatchesGroups(s[g..], rest) {
      mark, y := "", s[g..];
      assert mark + y == y;
    } else {
      mark, y := "-", s[g + 1..];
    }
  }

  lemma GroupBack(x: string, mark: string, y: string, g: nat, rest: seq<nat>)
    requires |rest| > 0 && |x| == g && AllHex(x) && (mark == "" || mark == "-") && MatchesGroups(y, rest)
    ensures MatchesGroups(x + (mark + y), [g] + rest)
  {
    var s := x + (mark + y);
    assert ([g] + rest)[1..] == rest;
    assert s[..g] == x && s[g..] == mark + y;
    if mark == "" { assert s[g..] == y; } else { assert s[g + 1..] == y; }
  }

  lemma ReadsForward(s: string) returns (p: seq<string>, q: seq<string>)
    requires MatchesGroups(s, GROUPS)
    ensures Reads(s, p, q)
  {
    hide MatchesGroups;
    assert GROUPS == [8] + ([4] + ([4] + ([4] + [12])));
    var a, i, s1 := GroupForward(s, 8, [4] + ([4] + ([4] + [12])));
    var b, j, s2 := GroupForward(s1, 4, [4] + ([4] + [12]));
    var c, k, s3 := GroupForward(s2, 4, [4] + [12]);
    var d, l, e := GroupForward(s3, 4, [12]);
    LastGroup(e);
    p, q := [a, b, c, d, e], [i, j, k, l];
  }

  lemma LastGroup(s: string)
    ensures MatchesGroups(s, [12]) <==> |s| == 12 && AllHex(s)
  {
  }

  lemma ReadsBack(s: string, p: seq<string>, q: seq<string>)
    requires Reads(s, p, q)
    ensures MatchesGroups(s, GROUPS)
  {
    hide MatchesGroups;
    assert GROUPS == [8] + ([4] + ([4] + ([4] + [12])));
    LastGroup(p[4]);
    var s3, m3 := q[3] + p[4], [4] + [12];
    GroupBack(p[3], q[3], p[4], 4, [12]);
    GroupBack(p[2], q[2], p[3] + s3, 4, m3);
    GroupBack(p[1], q[1], p[2] + (q[2] + (p[3] + s3)), 4, [4] + m3);
    GroupBack(p[0], q[0], p[1] + (q[1] + (p[2] + (q[2] + (p[3] + s3)))), 8, [4] + ([4] + m3));
  }

  /** The accepted texts, whichever alternative of the pattern accepts them. */
  lemma MatchesUuidIff(s: string)
    ensures MatchesUuid(s) <==> exists p, q :: Reads(s, p, q)
  {
    hide MatchesGroups, Reads;
    if MatchesGroups(s, GROUPS) {
      var p, q := ReadsForward(s);
    } else if MatchesUuid(s) {
      var p, q := UnmarkedReads(s);
    }
    if p, q :| Reads(s, p, q) { ReadsBack(s, p, q); }
  }

  lemma UnmarkedReads(s: string) returns (p: seq<string>, q: seq<string>)
    requires |s| == 32 && AllHex(s)
    ensures Reads(s, p, q)
  {
    p, q := [s[..8], s[8..12], s[12..16], s[16..20], s[20..]], ["", "", "", ""];
    assert "" + s[20..] == s[20..] && s[16..20] + s[20..] == s[16..];
    assert "" + s[16..] == s[16..] && s[12..16] + s[16..] == s[12..];
    assert "" + s[12..] == s[12..] && s[8..12] + s[12..] == s[8..];
    assert "" + s[8..] == s[8..] && s[..8] + s[8..] == s;
    forall k, c | 0 <= k < 5 && c in p[k] ensures '0' <= c <= '9' || 'a' <= c <= 'f' || 'A' <= c <= 'F' {
      assert c in s && IsHex(c);
    }
  }

  // ---------------------------------------------------------------------
  // The generator
  // ---------------------------------------------------------------------

  /** hex.EncodeToString's digit. */
  function HexDigit(d: int): (c: char)
    requires 0 <= d < 16
    ensures IsHex(c)
  {
    if d < 10 then (48 + d) as char else (87 + d) as char
  }

  function HexText(b: seq<Byte>): (h: string)
    ensures |h| == 2 * |b| && AllHex(h)
  {
    if |b| == 0 then [] else [HexDigit(b[0] / 16), HexDigit(b[0] % 16)] + HexText(b[1..])
  }

  /** Hyphens between the groups. */
  function Dashed(h: string, groups: seq<nat>): string
    requires |h| == Total(groups)
    decreases |groups|
  {
    if |groups| <= 1 then h
    else h[..groups[0]] + "-" + Dashed(h[groups[0]..], groups[1..])
  }

  /** The last n base-256 digits of t, most significant first; of a negative t, those of its two's complement. */
  function BigEndian(t: int, n: nat): (b: seq<Byte>)
    ensures |b| == n
    decreases n
  {
    if n == 0 then [] else BigEndian(t / 256, n - 1) + [t % 256]
  }

  function UuidOf(millis: int, random: seq<Byte>): string
    requires |random| == 8
  {
    GroupsTotal();
    Dashed(HexText(BigEndian(millis, 8) + random), GROUPS)
  }

  lemma GroupsTotal()
    ensures Total(GROUPS) == 32
  {
    assert GROUPS[1..] == [4, 4, 4, 12] && GROUPS[1..][1..] == [4, 4, 12];
    assert [4, 4, 12][1..] == [4, 12] && [4, 12][1..] == [12] && [12][1..] == [];
    assert Total([12]) == 12 && Total([4, 12]) == 16 && Total([4, 4, 12]) == 20 && Total([4, 4, 4, 12]) == 24;
  }

  const LIMIT_63: int := 0x8000_0000_0000_0000

  /** `t >> s`, arithmetic: s halvings, rounding down. */
  function ShiftRight(t: int, s: nat): int
    decreases s
  {
    if s == 0 then t else ShiftRight(t / 2, s - 1)
  }

  /** byte(now >> s). */
  function ByteAt(now: int, s: nat): Byte { ShiftRight(now, s) % 256 }

  lemma {:induction false} ShiftRightAdds(t: int, a: nat, b: nat)
    ensures ShiftRight(t, a + b) == ShiftRight(ShiftRight(t, a), b)
    decreases a
  {
    if a > 0 { ShiftRightAdds(t / 2, a - 1, b); }
  }

  lemma ShiftByByte(t: int)
    ensures ShiftRight(t, 8) == t / 256
  {
    assert ShiftRight(t, 4) == t / 16;
    assert ShiftRight(t / 16, 4) == t / 16 / 16;
    ShiftRightAdds(t, 4, 4);
  }

  /** The k-th big-endian byte is the shifted one. */
  lemma {:induction false} BigEndianAt(t: int, n: nat, k: nat)
    requires k < n
    ensures BigEndian(t, n)[k] == ByteAt(t, 8 * (n - 1 - k))
    decreases n
  {
    if k < n - 1 {
      BigEndianAt(t / 256, n - 1, k);
      ShiftByByte(t);
      ShiftRightAdds(t, 8, 8 * (n - 2 - k));
    }
  }

  lemma EightBytes(t: int)
    ensures BigEndian(t, 8) == [ByteAt(t, 56), ByteAt(t, 48), ByteAt(t, 40), ByteAt(t, 32),
                                ByteAt(t, 24), ByteAt(t, 16), ByteAt(t, 8), ByteAt(t, 0)]
  {
    forall k: nat | k < 8 ensures BigEndian(t, 8)[k] == ByteAt(t, 8 * (7 - k)) { BigEndianAt(t, 8, k); }
  }

  /** defaultUUIDGenerator with the clock's milliseconds and the random bytes as arguments: fill eight bytes by
      shifting, append the random ones, encode, cut into groups. */
  method DefaultUuid(now: int, random: seq<Byte>) returns (uuid: string)
    requires -LIMIT_63 <= now < LIMIT_63 && |random| == 8
    ensures uuid == UuidOf(now, random)
  {
    var tb := new Byte[8];
    tb[0] := ByteAt(now, 56);
    tb[1] := ByteAt(now, 48);
    tb[2] := ByteAt(now, 40);
    tb[3] := ByteAt(now, 32);
    tb[4] := ByteAt(now, 24);
    tb[5] := ByteAt(now, 16);
    tb[6] := ByteAt(now, 8);
    tb[7] := ByteAt(now, 0);
    EightBytes(now);
    assert tb[..] == BigEndian(now, 8);
    var h := HexText(tb[..] + random);
    uuid := h[0..8] + "-" + h[8..12] + "-" + h[12..16] + "-" + h[16..20] + "-" + h[20..32];
    FiveGroups(h);
  }

  lemma DashedStep(h: string, g: nat, rest: seq<nat>)
    requires |rest| > 0 && |h| == g + Total(rest)
    ensures Total([g] + rest) == |h|
    ensures Dashed(h, [g] + rest) == h[..g] + "-" + Dashed(h[g..], rest)
  {
    assert ([g] + rest)[1..] == rest;
  }

  lemma Regroup(a: string, b: string, c: string, d: string, e: string)
    ensures a + "-" + (b + "-" + (c + "-" + (d + "-" + e))) == a + "-" + b + "-" + c + "-" + d + "-" + e
  {
  }

  lemma FiveGroups(h: string)
    requires |h| == 32
    ensures Total(GROUPS) == 32
    ensures Dashed(h, GROUPS) ==
            h[0..8] + "-" + h[8..12] + "-" + h[12..16] + "-" + h[16..20] + "-" + h[20..32]
  {
    assert Total([12]) == 12 by { assert [12][1..] == []; }
    var h1, h2, h3, h4 := h[8..], h[12..], h[16..], h[20..];
    assert h1[4..] == h2 && h2[4..] == h3 && h3[4..] == h4;
    DashedStep(h3, 4, [12]);
    DashedStep(h2, 4, [4] + [12]);
    DashedStep(h1, 4, [4] + ([4] + [12]));
    DashedStep(h, 8, [4] + ([4] + ([4] + [12])));
    assert GROUPS == [8] + ([4] + ([4] + ([4] + [12])));
    assert h1[..4] == h[8..12] && h2[..4] == h[12..16] && h3[..4] == h[16..20] && h4 == h[20..32] && h[..8] == h[0..8];
    Regroup(h[..8], h1[..4], h2[..4], h3[..4], h4);
  }

  // ---------------------------------------------------------------------
  // What the generator promises
  // ---------------------------------------------------------------------

  lemma {:induction false} DashedMatches(h: string, groups: seq<nat>)
    requires |h| == Total(groups) && AllHex(h) && |groups| > 0
    ensures MatchesGroups(Dashed(h, groups), groups)
    decreases |groups|
  {
    if |groups| == 1 {
      assert groups[1..] == [];
    } else {
      var g := groups[0];
      DashedMatches(h[g..], groups[1..]);
      var d := Dashed(h, groups);
      assert d[..g] == h[..g] && d[g + 1..] == Dashed(h[g..], groups[1..]);
    }
  }

  /** Every generated text is a valid UUID of 36 characters. */
  lemma GeneratedIsValid(millis: int, random: seq<Byte>)
    requires |random| == 8
    ensures MatchesUuid(UuidOf(millis, random)) && |UuidOf(millis, random)| == 36
  {
    GroupsTotal();
    var h := HexText(BigEndian(millis, 8) + random);
    DashedMatches(h, GROUPS);
    FiveGroups(h);
  }

  /** Where the j-th hex digit is in the text: one further for each hyphen before it. */
  function DigitPlace(j: nat): nat {
    j + if j < 8 then 0 else if j < 12 then 1 else if j < 16 then 2 else if j < 20 then 3 else 4
  }

  lemma DashedAt(h: string, j: nat)
    requires |h| == 32 && j < 32
    ensures var s := h[0..8] + "-" + h[8..12] + "-" + h[12..16] + "-" + h[16..20] + "-" + h[20..32];
      |s| == 36 && s[8] == s[13] == s[18] == s[23] == '-' && s[DigitPlace(j)] == h[j]
  {
  }

  /** How a generated text is laid out: hyphens at 8, 13, 18 and 23; the other characters are, two by two, the
      lower-case hex digits of the eight bytes of the time, shifted out from the top, and of the random ones. */
  lemma GeneratedLayout(millis: int, random: seq<Byte>, k: nat)
    requires |random| == 8 && k < 16
    ensures var s, d := UuidOf(millis, random), "0123456789abcdef";
      var b := if k < 8 then ByteAt(millis, 56 - 8 * k) else random[k - 8];
      && |s| == 36 && s[8] == s[13] == s[18] == s[23] == '-'
      && s[DigitPlace(2 * k)] == d[b / 16] && s[DigitPlace(2 * k + 1)] == d[b % 16]
  {
    var bytes := BigEndian(millis, 8) + random;
    assert UuidOf(millis, random) == Dashed(HexText(bytes), GROUPS) by { GroupsTotal(); }
    assert bytes[k] == if k < 8 then ByteAt(millis, 56 - 8 * k) else random[k - 8] by {
      if k < 8 { BigEndianAt(millis, 8, k); }
    }
    FiveGroups(HexText(bytes));
    HexTextAt(bytes, k);
    DashedAt(HexText(bytes), 2 * k);
    DashedAt(HexText(bytes), 2 * k + 1);
    hide HexText, BigEndian, Dashed, DigitPlace, ShiftRight, UuidOf, Total;
  }

  lemma {:induction false} HexTextAt(b: seq<Byte>, k: nat)
    requires k < |b|
    ensures HexText(b)[2 * k] == "0123456789abcdef"[b[k] / 16]
    ensures HexText(b)[2 * k + 1] == "0123456789abcdef"[b[k] % 16]
  {
    if k > 0 {
      HexTextAt(b[1..], k - 1);
    } else {
      HexDigitIs(b[0] / 16);
      HexDigitIs(b[0] % 16);
    }
  }

  lemma HexDigitIs(d: int)
    requires 0 <= d < 16
    ensures HexDigit(d) == "0123456789abcdef"[d]
  {
  }

  /** The order of byte strings of equal length. */
  predicate BytesLess(a: seq<Byte>, b: seq<Byte>)
    requires |a| == |b|
  {
    |a| > 0 && (a[0] < b[0] || (a[0] == b[0] && BytesLess(a[1..], b[1..])))
  }

  /** A smaller beginning decides, an equal one defers to the rest. */
  lemma {:induction false} BytesLessAppend(a: seq<Byte>, b: seq<Byte>, x: seq<Byte>, y: seq<Byte>)
    requires |a| == |b| && |x| == |y|
    requires BytesLess(a, b) || (a == b && BytesLess(x, y))
    ensures BytesLess(a + x, b + y)
  {
    if |a| == 0 {
      assert a + x == x && b + y == y;
    } else if a[0] == b[0] {
      assert (a + x)[1..] == a[1..] + x && (b + y)[1..] == b[1..] + y;
      BytesLessAppend(a[1..], b[1..], x, y);
    }
  }

  function Power256(n: nat): (p: nat)
    ensures p > 0
  {
    if n == 0 then 1 else 256 * Power256(n - 1)
  }

  lemma {:induction false} BigEndianOrdered(s: nat, t: nat, n: nat)
    requires s < t < Power256(n)
    ensures BytesLess(BigEndian(s, n), BigEndian(t, n))
  {
    if s / 256 < t / 256 {
      BigEndianOrdered(s / 256, t / 256, n - 1);
    }
    BytesLessAppend(BigEndian(s / 256, n - 1), BigEndian(t / 256, n - 1), [s % 256], [t % 256]);
  }

  lemma HexDigitOrdered(d: int, e: int)
    requires 0 <= d < 16 && 0 <= e < 16
    ensures d < e <==> HexDigit(d) < HexDigit(e)
    ensures d == e <==> HexDigit(d) == HexDigit(e)
  {
  }

  lemma {:induction false} HexOrdered(a: seq<Byte>, b: seq<Byte>)
    requires |a| == |b| && BytesLess(a, b)
    ensures LexLess(HexText(a), HexText(b))
  {
    var pa, pb := [HexDigit(a[0] / 16), HexDigit(a[0] % 16)], [HexDigit(b[0] / 16), HexDigit(b[0] % 16)];
    if a[0] == b[0] {
      HexOrdered(a[1..], b[1..]);
      LexPrefix(pa, HexText(a[1..]), HexText(b[1..]));
    } else {
      HexDigitOrdered(a[0] / 16, b[0] / 16);
      HexDigitOrdered(a[0] % 16, b[0] % 16);
      assert LexLess(pa[1..], pb[1..]) || pa[0] < pb[0];
      assert LexLess(pa, pb);
      LexHead(pa, pb, HexText(a[1..]), HexText(b[1..]));
    }
  }

  /** Equal-length strings compare by their first parts, then by the rest. */
  lemma {:induction false} LexSplit(a: string, b: string, k: nat)
    requires |a| == |b| && k <= |a| && LexLess(a, b)
    ensures LexLess(a[..k], b[..k]) || (a[..k] == b[..k] && LexLess(a[k..], b[k..]))
  {
    if k > 0 && a[0] == b[0] {
      LexSplit(a[1..], b[1..], k - 1);
      assert a[..k][1..] == a[1..][..k - 1] && b[..k][1..] == b[1..][..k - 1];
      assert a[..k] == [a[0]] + a[..k][1..] && b[..k] == [b[0]] + b[..k][1..];
      assert a[1..][k - 1..] == a[k..] && b[1..][k - 1..] == b[k..];
    }
  }

  /** Hyphens at fixed places do not change the order. */
  lemma {:induction false} DashedOrdered(a: string, b: string, groups: seq<nat>)
    requires |a| == |b| == Total(groups) && LexLess(a, b)
    ensures LexLess(Dashed(a, groups), Dashed(b, groups))
    decreases |groups|
  {
    if |groups| > 1 {
      var g := groups[0];
      LexSplit(a, b, g);
      if LexLess(a[..g], b[..g]) {
        LexHead(a[..g], b[..g], "-" + Dashed(a[g..], groups[1..]), "-" + Dashed(b[g..], groups[1..]));
        assert Dashed(a, groups) == a[..g] + ("-" + Dashed(a[g..], groups[1..]));
        assert Dashed(b, groups) == b[..g] + ("-" + Dashed(b[g..], groups[1..]));
      } else {
        DashedOrdered(a[g..], b[g..], groups[1..]);
        LexPrefix(a[..g] + "-", Dashed(a[g..], groups[1..]), Dashed(b[g..], groups[1..]));
      }
    }
  }

  /** A negative number has the digits of its two's complement. */
  lemma {:induction false} BigEndianWraps(t: int, n: nat)
    ensures BigEndian(t, n) == BigEndian(t + Power256(n), n)
    decreases n
  {
    if n > 0 {
      var p := Power256(n - 1);
      assert t + Power256(n) == t + 256 * p;
      assert (t + 256 * p) / 256 == t / 256 + p && (t + 256 * p) % 256 == t % 256;
      BigEndianWraps(t / 256, n - 1);
    }
  }

  /** uint64(t) for a Go int64. */
  function Unsigned(t: int): int { if t < 0 then t + 2 * LIMIT_63 else t }

  lemma UnsignedDigits(t: int)
    ensures Power256(8) == 2 * LIMIT_63
    ensures BigEndian(t, 8) == BigEndian(Unsigned(t), 8)
  {
    assert Power256(8) == 0x1_0000_0000_0000_0000 by {
      assert Power256(4) == 0x1_0000_0000;
      assert Power256(6) == 256 * (256 * Power256(4));
      assert Power256(8) == 256 * (256 * Power256(6));
    }
    BigEndianWraps(t, 8);
  }

  lemma SmallerSortsFirst(s: int, t: int, r1: seq<Byte>, r2: seq<Byte>)
    requires 0 <= Unsigned(s) < Unsigned(t) < 2 * LIMIT_63 && |r1| == 8 && |r2| == 8
    ensures LexLess(UuidOf(s, r1), UuidOf(t, r2))
  {
    UnsignedDigits(s);
    UnsignedDigits(t);
    BigEndianOrdered(Unsigned(s), Unsigned(t), 8);
    BytesLessAppend(BigEndian(s, 8), BigEndian(t, 8), r1, r2);
    HexOrdered(BigEndian(s, 8) + r1, BigEndian(t, 8) + r2);
    GroupsTotal();
    DashedOrdered(HexText(BigEndian(s, 8) + r1), HexText(BigEndian(t, 8) + r2), GROUPS);
  }

  /** UUIDs generated in different milliseconds sort by time, whatever the random bytes, exactly when both instants
      are before 1970 or both are not: the sign bit comes first. */
  lemma GeneratedSortByTime(s: int, t: int, r1: seq<Byte>, r2: seq<Byte>)
    requires -LIMIT_63 <= s < t < LIMIT_63 && |r1| == 8 && |r2| == 8
    ensures LexLess(UuidOf(s, r1), UuidOf(t, r2)) <==> (s < 0 <==> t < 0)
  {
    if s < 0 <= t {
      SmallerSortsFirst(t, s, r2, r1);
      if LexLess(UuidOf(s, r1), UuidOf(t, r2)) {
        LexTransitive(UuidOf(s, r1), UuidOf(t, r2), UuidOf(s, r1));
        LexIrreflexive(UuidOf(s, r1));
      }
    } else {
      SmallerSortsFirst(s, t, r1, r2);
    }
  }

  lemma {:induction false} HexTextInjective(a: seq<Byte>, b: seq<Byte>)
    requires |a| == |b| && HexText(a) == HexText(b)
    ensures a == b
  {
    if |a| > 0 {
      var s, t := HexText(a), HexText(b);
      assert s[0] == HexDigit(a[0] / 16) && s[1] == HexDigit(a[0] % 16) && s[2..] == HexText(a[1..]);
      assert t[0] == HexDigit(b[0] / 16) && t[1] == HexDigit(b[0] % 16) && t[2..] == HexText(b[1..]);
      HexDigitOrdered(a[0] / 16, b[0] / 16);
      HexDigitOrdered(a[0] % 16, b[0] % 16);
      HexTextInjective(a[1..], b[1..]);
      assert a == [a[0]] + a[1..] && b == [b[0]] + b[1..];
    }
  }

  lemma {:induction false} DashedInjective(a: string, b: string, groups: seq<nat>)
    requires |a| == |b| == Total(groups) && Dashed(a, groups) == Dashed(b, groups)
    ensures a == b
    decreases |groups|
  {
    if |groups| > 1 {
      var g := groups[0];
      var s, t := Dashed(a, groups), Dashed(b, groups);
      assert s[..g] == a[..g] && s[g + 1..] == Dashed(a[g..], groups[1..]);
      assert t[..g] == b[..g] && t[g + 1..] == Dashed(b[g..], groups[1..]);
      DashedInjective(a[g..], b[g..], groups[1..]);
      assert a == a[..g] + a[g..] && b == b[..g] + b[g..];
    }
  }

  /** Two generated UUIDs are equal exactly when they are of the same millisecond and the same random bytes. */
  lemma GeneratedEqualIff(s: int, t: int, r1: seq<Byte>, r2: seq<Byte>)
    requires -LIMIT_63 <= s < LIMIT_63 && -LIMIT_63 <= t < LIMIT_63 && |r1| == 8 && |r2| == 8
    ensures UuidOf(s, r1) == UuidOf(t, r2) <==> s == t && r1 == r2
  {
    if UuidOf(s, r1) == UuidOf(t, r2) {
      LexIrreflexive(UuidOf(s, r1));
      if Unsigned(s) < Unsigned(t) { SmallerSortsFirst(s, t, r1, r2); }
      if Unsigned(t) < Unsigned(s) { SmallerSortsFirst(t, s, r2, r1); }
      GroupsTotal();
      var a, b := BigEndian(s, 8) + r1, BigEndian(t, 8) + r2;
      DashedInjective(HexText(a), HexText(b), GROUPS);
      HexTextInjective(a, b);
      assert r1 == a[8..] && r2 == b[8..];
    }
  }
}
