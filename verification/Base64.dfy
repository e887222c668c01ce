/** src/crypt/base64.c: the encoder and the decoder, each a loop over groups that
    fills an output buffer, proved against two functions on values. */
module Base64 {
  import opened Basics

  type Sextet = x: int | 0 <= x < 64

  const PAD: char := '='

  /** Entry k of the alphabet table. */
  function CharOf(k: Sextet): char {
    if k < 26 then 'A' + k as char
    else if k < 52 then 'a' + (k - 26) as char
    else if k < 62 then '0' + (k - 52) as char
    else if k == 62 then '+'
    else '/'
  }

  predicate InAlphabet(c: char) {
    'A' <= c <= 'Z' || 'a' <= c <= 'z' || '0' <= c <= '9' || c == '+' || c == '/'
  }

  /** The table index of a character; 0 for a character outside the table. */
  function IndexOf(c: char): (k: Sextet)
    ensures InAlphabet(c) ==> CharOf(k) == c
    ensures !InAlphabet(c) ==> k == 0
  {
    if 'A' <= c <= 'Z' then c as int - 'A' as int
    else if 'a' <= c <= 'z' then c as int - 'a' as int + 26
    else if '0' <= c <= '9' then c as int - '0' as int + 52
    else if c == '+' then 62
    else if c == '/' then 63
    else 0
  }

  lemma CharOfIsInjective(k: Sextet)
    ensures InAlphabet(CharOf(k)) && IndexOf(CharOf(k)) == k && CharOf(k) != PAD
  {}

  // The four sextets of three octets, and the three octets of four sextets.

  function S1(a: Byte): Sextet { a / 4 }
  function S2(a: Byte, b: Byte): Sextet { a % 4 * 16 + b / 16 }
  function S3(b: Byte, c: Byte): Sextet { b % 16 * 4 + c / 64 }
  function S4(c: Byte): Sextet { c % 64 }

  function O1(i: Sextet, j: Sextet): Byte { i as int * 4 + j / 16 }
  function O2(j: Sextet, k: Sextet): Byte { j as int % 16 * 16 + k / 4 }
  function O3(k: Sextet, l: Sextet): Byte { k as int % 4 * 64 + l }

  lemma Unpacked(a: Byte, b: Byte, c: Byte)
    ensures O1(S1(a), S2(a, b)) == a && O2(S2(a, b), S3(b, c)) == b && O3(S3(b, c), S4(c)) == c
  {}

  lemma Repacked(i: Sextet, j: Sextet, k: Sextet, l: Sextet)
    ensures var a, b, c := O1(i, j), O2(j, k), O3(k, l);
            S1(a) == i && S2(a, b) == j && S3(b, c) == k && S4(c) == l
  {}

  /** The same when only the first octet, or the first two, are kept. */
  lemma RepackedShort(i: Sextet, j: Sextet, k: Sextet)
    ensures S1(O1(i, j)) == i && S2(O1(i, j), O2(j, k)) == j
    ensures S2(O1(i, j), 0) == j <==> j % 16 == 0
    ensures S3(O2(j, k), 0) == k <==> k % 4 == 0
  {}

  // ---------------------------------------------------------------- encoding

  /** The four characters written for the first one, two or three octets of x. */
  function EncodeGroup(x: Bytes): (g: string)
    requires x != []
    ensures |g| == 4
  {
    var a, b, c: Byte := x[0], if |x| > 1 then x[1] else 0, if |x| > 2 then x[2] else 0;
    [ CharOf(S1(a)),
      CharOf(S2(a, b)),
      if |x| > 1 then CharOf(S3(b, c)) else PAD,
      if |x| > 2 then CharOf(S4(c)) else PAD ]
  }

  function EncodedSize(n: nat): nat {
    4 * ((n + 2) / 3)
  }

  lemma OneGroupMore(n: nat)
    requires n > 3
    ensures EncodedSize(n) == 4 + EncodedSize(n - 3)
  {}

  function Encode(x: Bytes): (s: string)
    ensures |s| == EncodedSize(|x|)
  {
    if x == [] then [] else if |x| <= 3 then EncodeGroup(x)
    else
      OneGroupMore(|x|);
      EncodeGroup(x) + Encode(x[3..])
  }

  lemma {:induction false} EncodedGroupAt(x: Bytes, g: nat)
    requires 3 * g < |x|
    ensures 4 * g + 4 <= |Encode(x)| && Encode(x)[4 * g..4 * g + 4] == EncodeGroup(x[3 * g..])
    decreases g
  {
    hide EncodeGroup;
    if g == 0 {
      assert x[0..] == x;
    } else {
      EncodedGroupAt(x[3..], g - 1);
      assert x[3..][3 * (g - 1)..] == x[3 * g..];
      assert Encode(x)[4 * g..4 * g + 4] == Encode(x[3..])[4 * g - 4..4 * g];
    }
  }

  method EncodeBuffer(input: array<Byte>) returns (out: array<char>)
    ensures fresh(out)
    ensures out[..] == Encode(input[..])
  {
    hide CharOf, S1, S2, S3, S4, Encode;
    ghost var x := input[..];
    out := new char[EncodedSize(input.Length)];
    var i, j := 0, 0;
    ghost var g := 0;
    while i < input.Length
      invariant i == 3 * g && j == 4 * g && j <= out.Length
      invariant i < input.Length + 3
      invariant forall k :: 0 <= k < j ==> out[k] == Encode(x)[k]
      decreases input.Length - i
    {
      EncodedGroupAt(x, g);
      ghost var four := EncodeGroup(x[i..]);
      assert forall k :: 0 <= k < 4 ==> Encode(x)[j + k] == Encode(x)[j..j + 4][k] == four[k];
      var a, b, c: Byte := input[i], 0, 0;
      if i + 1 < input.Length { b := input[i + 1]; }
      if i + 2 < input.Length { c := input[i + 2]; }
      out[j] := CharOf(S1(a));
      out[j + 1] := CharOf(S2(a, b));
      out[j + 2] := if i + 1 < input.Length then CharOf(S3(b, c)) else PAD;
      out[j + 3] := if i + 2 < input.Length then CharOf(S4(c)) else PAD;
      assert out[j] == four[0] && out[j + 1] == four[1] && out[j + 2] == four[2] && out[j + 3] == four[3];
      assert forall k :: j <= k < j + 4 ==> out[k] == four[k - j] == Encode(x)[j + (k - j)];
      i, j, g := i + 3, j + 4, g + 1;
    }
  }

  // ---------------------------------------------------------------- decoding

  predicate Accepted(s: string) {
    s != [] && |s| % 4 == 0
  }

  /** The number of octets the final padding takes off. */
  function PadCount(s: string): nat
    requires |s| >= 2
  {
    if s[|s| - 1] != PAD then 0 else if s[|s| - 2] != PAD then 1 else 2
  }

  /** The size of the buffer the decoder allocates. */
  function DecodedLength(s: string): nat
    requires Accepted(s)
  {
    |s| / 4 * 3 - PadCount(s)
  }

  /** The three octets of one group; an octet the decoder does not write keeps
      the zero of the cleared buffer. */
  function DecodeGroup(s: string): (g: Bytes)
    requires |s| >= 4
    ensures |g| == 3
  {
    var i, j, k, l := IndexOf(s[0]), IndexOf(s[1]), IndexOf(s[2]), IndexOf(s[3]);
    [ O1(i, j), if s[2] != PAD then O2(j, k) else 0, if s[3] != PAD then O3(k, l) else 0 ]
  }

  function DecodeGroups(s: string): (x: Bytes)
    requires |s| % 4 == 0
    ensures |x| == |s| / 4 * 3
  {
    if s == [] then [] else DecodeGroup(s) + DecodeGroups(s[4..])
  }

  /** None where base64_decode reports an error. The empty string, for which the C code
      reads before its input, is never passed by its callers and is not accepted here. */
  function Decode(s: string): Option<Bytes> {
    if Accepted(s) then Some(DecodeGroups(s)[..DecodedLength(s)]) else None
  }

  /** The scan of the whole table for one character. */
  method Lookup(c: char) returns (index: Sextet)
    ensures index == IndexOf(c)
  {
    index := 0;
    for k := 0 to 64
      invariant index == if InAlphabet(c) && IndexOf(c) < k then IndexOf(c) else 0
    {
      CharOfIsInjective(k);
      if CharOf(k) == c { index := k; }
    }
  }

  lemma {:induction false} DecodedGroupAt(s: string, g: nat)
    requires |s| % 4 == 0 && 4 * g < |s|
    ensures 4 * g + 4 <= |s| && DecodeGroups(s)[3 * g..3 * g + 3] == DecodeGroup(s[4 * g..])
    decreases g
  {
    hide DecodeGroup;
    if g == 0 {
      assert s[0..] == s;
    } else {
      var rest := s[4..];
      DecodedGroupAt(rest, g - 1);
      assert rest[4 * (g - 1)..] == s[4 * g..];
      Shifted(DecodeGroup(s), DecodeGroups(rest), 3 * (g - 1));
    }
  }

  lemma Shifted(a: Bytes, b: Bytes, i: nat)
    requires |a| == 3 && i + 3 <= |b|
    ensures (a + b)[i + 3..i + 6] == b[i..i + 3]
  {}

  /** One turn of the decoding loop, at input index i and output index j. */
  method WriteGroup(s: string, out: array<Byte>, i: nat, j: nat, ghost g: nat)
    requires Accepted(s) && i == 4 * g && j == 3 * g && i < |s|
    requires out.Length == DecodedLength(s)
    requires forall k :: j <= k < out.Length ==> out[k] == 0
    modifies out
    ensures forall k :: 0 <= k < out.Length && !(j <= k < j + 3) ==> out[k] == old(out[k])
    ensures forall k :: j <= k < j + 3 && k < out.Length ==> out[k] == DecodeGroups(s)[k]
  {
    hide IndexOf, O1, O2, O3, DecodeGroups;
    DecodedGroupAt(s, g);
    ghost var all, three := DecodeGroups(s), DecodeGroup(s[i..]);
    assert forall k :: 0 <= k < 3 ==> all[j + k] == all[j..j + 3][k] == three[k];
    assert all[j] == three[0] && all[j + 1] == three[1] && all[j + 2] == three[2];
    LastGroupFits(s, g);
    var i1 := Lookup(s[i]);
    var i2 := Lookup(s[i + 1]);
    var i3 := Lookup(s[i + 2]);
    var i4 := Lookup(s[i + 3]);
    out[j] := O1(i1, i2);
    if s[i + 2] != PAD { out[j + 1] := O2(i2, i3); }
    if s[i + 3] != PAD { out[j + 2] := O3(i3, i4); }
  }

  /** The writes of one group stay inside the buffer: padding shortens it only where the
      decoder skips the write. */
  lemma LastGroupFits(s: string, g: nat)
    requires Accepted(s) && 4 * g < |s|
    ensures 3 * g < DecodedLength(s)
    ensures s[4 * g + 2] != PAD ==> 3 * g + 1 < DecodedLength(s)
    ensures s[4 * g + 3] != PAD ==> 3 * g + 2 < DecodedLength(s)
  {
    var n := |s| / 4;
    assert |s| == 4 * n;
  }

  /** Every write of the C loop is inside the allocated buffer: the indexing below is
      checked against a buffer of exactly DecodedLength(s) octets. */
  method DecodeBuffer(s: string) returns (ok: bool, out: array<Byte>)
    requires s != []
    ensures ok == Decode(s).Some?
    ensures ok ==> out.Length == DecodedLength(s) && out[..] == Decode(s).value
  {
    hide IndexOf, O1, O2, O3, DecodeGroups;
    if |s| % 4 != 0 {
      out := new Byte[0];
      return false, out;
    }
    var length := |s| / 4 * 3;
    if s[|s| - 1] == PAD {
      length := length - 1;
      if s[|s| - 2] == PAD { length := length - 1; }
    }
    out := new Byte[length](_ => 0);
    ghost var all, g := DecodeGroups(s), 0;
    var i, j := 0, 0;
    while i < |s|
      invariant i == 4 * g && j == 3 * g && i <= |s|
      invariant forall k :: 0 <= k < length ==> out[k] == if k < j then all[k] else 0
    {
      WriteGroup(s, out, i, j, g);
      i, j, g := i + 4, j + 3, g + 1;
    }
    ok := true;
  }

  // -------------------------------------------------------------- properties

  lemma GroupRoundTrip(x: Bytes)
    requires x != []
    ensures var n := if |x| < 3 then |x| else 3;
            DecodeGroup(EncodeGroup(x))[..n] == x[..n]
  {
    hide CharOf, IndexOf, S1, S2, S3, S4, O1, O2, O3;
    var a, b, c: Byte := x[0], if |x| > 1 then x[1] else 0, if |x| > 2 then x[2] else 0;
    Unpacked(a, b, c);
    CharOfIsInjective(S1(a));
    CharOfIsInjective(S2(a, b));
    CharOfIsInjective(S3(b, c));
    CharOfIsInjective(S4(c));
  }

  lemma {:induction false} GroupsRoundTrip(x: Bytes)
    ensures |x| <= |DecodeGroups(Encode(x))| && DecodeGroups(Encode(x))[..|x|] == x
  {
    hide EncodeGroup, DecodeGroup;
    if x != [] {
      GroupRoundTrip(x);
      FirstGroupOnly(Encode(x), EncodeGroup(x));
      if |x| > 3 {
        GroupsRoundTrip(x[3..]);
        assert Encode(x)[4..] == Encode(x[3..]);
        var rest := DecodeGroups(Encode(x[3..]));
        assert (DecodeGroup(EncodeGroup(x)) + rest)[..|x|] == DecodeGroup(EncodeGroup(x)) + rest[..|x| - 3];
        assert x == x[..3] + x[3..];
      }
    }
  }

  lemma FirstGroupOnly(s: string, g: string)
    requires |s| >= 4 && |g| >= 4 && s[..4] == g[..4]
    ensures DecodeGroup(s) == DecodeGroup(g)
  {
    assert forall k :: 0 <= k < 4 ==> s[k] == s[..4][k] == g[k];
  }

  /** The padding at the end of an encoding tells the length of the input modulo 3. */
  lemma {:induction false} EncodedLength(x: Bytes)
    requires x != []
    ensures Accepted(Encode(x)) && DecodedLength(Encode(x)) == |x|
  {
    hide CharOf, S1, S2, S3, S4;
    var s := Encode(x);
    if |x| > 3 {
      EncodedLength(x[3..]);
      assert s[|s| - 1] == Encode(x[3..])[|s| - 5] && s[|s| - 2] == Encode(x[3..])[|s| - 6];
    } else {
      if |x| > 2 { CharOfIsInjective(S4(x[2])); }
      if |x| > 1 { CharOfIsInjective(S3(x[1], if |x| > 2 then x[2] else 0)); }
    }
  }

  /** decode(encode(x)) == x for every non-empty octet string. */
  lemma RoundTrip(x: Bytes)
    requires x != []
    ensures Decode(Encode(x)) == Some(x)
  {
    EncodedLength(x);
    GroupsRoundTrip(x);
  }

  /** Section 3.5 of RFC 4648: only alphabet characters before the padding, padding
      only at the end, and the unused bits of the last character zero. */
  predicate Canonical(s: string) {
    if |s| <= 4 then CanonicalEnd(s) else AllInAlphabet(s[..4]) && Canonical(s[4..])
  }

  predicate AllInAlphabet(s: string) {
    forall c :: c in s ==> InAlphabet(c)
  }

  predicate CanonicalEnd(s: string) {
    && |s| == 4
    && InAlphabet(s[0]) && InAlphabet(s[1])
    && if s[3] != PAD then InAlphabet(s[2]) && InAlphabet(s[3])
       else if s[2] != PAD then InAlphabet(s[2]) && IndexOf(s[2]) % 4 == 0
       else IndexOf(s[1]) % 16 == 0
  }

  /** Writing table entry k gives c exactly when c is that entry. */
  lemma SameCharacter(k: Sextet, c: char)
    ensures CharOf(k) == c <==> InAlphabet(c) && k == IndexOf(c)
  {
    CharOfIsInjective(k);
  }

  lemma FourCharacters(a: string, b: string)
    requires |a| == |b| == 4
    ensures a == b <==> a[0] == b[0] && a[1] == b[1] && a[2] == b[2] && a[3] == b[3]
  {
    if a[0] == b[0] && a[1] == b[1] && a[2] == b[2] && a[3] == b[3] {
      assert forall k :: 0 <= k < 4 ==> a[k] == b[k];
    }
  }

  /** A group whose last two characters are not padding comes back exactly when all four
      are in the table; a group holding padding never comes back as a full group. */
  lemma FullGroup(s: string)
    requires |s| == 4
    ensures EncodeGroup(DecodeGroup(s)) == s <==> AllInAlphabet(s)
  {
    hide CharOf, IndexOf, S1, S2, S3, S4, O1, O2, O3, InAlphabet;
    var i, j, k, l := IndexOf(s[0]), IndexOf(s[1]), IndexOf(s[2]), IndexOf(s[3]);
    var d := DecodeGroup(s);
    Repacked(i, j, k, l);
    FourCharacters(EncodeGroup(d), s);
    assert s == [s[0], s[1], s[2], s[3]];
    SameCharacter(S1(d[0]), s[0]);
    SameCharacter(S2(d[0], d[1]), s[1]);
    SameCharacter(S3(d[1], d[2]), s[2]);
    SameCharacter(S4(d[2]), s[3]);
    PadNotInAlphabet();
  }

  lemma PadNotInAlphabet()
    ensures !InAlphabet(PAD)
  {}

  /** The last group alone: re-encoding gives it back exactly when it is canonical. */
  lemma LastGroup(s: string)
    requires |s| == 4
    ensures EncodeGroup(DecodeGroup(s)[..3 - PadCount(s)]) == s <==> CanonicalEnd(s)
  {
    hide CharOf, IndexOf, S1, S2, S3, S4, O1, O2, O3, InAlphabet;
    var d := DecodeGroup(s)[..3 - PadCount(s)];
    PadNotInAlphabet();
    if s[3] != PAD {
      assert d == DecodeGroup(s) && s == [s[0], s[1], s[2], s[3]];
      FullGroup(s);
    } else {
      RepackedShort(IndexOf(s[0]), IndexOf(s[1]), IndexOf(s[2]));
      FourCharacters(EncodeGroup(d), s);
      SameCharacter(S1(d[0]), s[0]);
      SameCharacter(S2(d[0], if |d| > 1 then d[1] else 0), s[1]);
      if |d| > 1 { SameCharacter(S3(d[1], 0), s[2]); }
    }
  }

  lemma EncodeSplit(first: Bytes, rest: Bytes)
    requires |first| == 3 && rest != []
    ensures Encode(first + rest) == EncodeGroup(first) + Encode(rest)
  {
    hide CharOf, S1, S2, S3, S4;
    var x := first + rest;
    assert x[3..] == rest;
    assert x[0] == first[0] && x[1] == first[1] && x[2] == first[2];
  }

  /** encode(decode(s)) == s exactly for canonical s. */
  lemma {:induction false} ReencodeIffCanonical(s: string)
    requires Accepted(s)
    ensures Encode(Decode(s).value) == s <==> Canonical(s)
  {
    hide EncodeGroup, DecodeGroup, AllInAlphabet, CanonicalEnd;
    var head, tail := s[..4], s[4..];
    var first := DecodeGroup(head);
    FirstGroupOnly(s, head);
    if tail == [] {
      assert s == head && DecodeGroups(s) == first;
      LastGroup(s);
    } else {
      ReencodeIffCanonical(tail);
      var rest := Decode(tail).value;
      assert s[|s| - 1] == tail[|tail| - 1] && s[|s| - 2] == tail[|tail| - 2];
      assert Decode(s).value == first + rest;
      EncodeSplit(first, rest);
      var again := EncodeGroup(first) + Encode(rest);
      assert again[..4] == EncodeGroup(first) && again[4..] == Encode(rest) && s == head + tail;
      assert again == s <==> EncodeGroup(first) == head && Encode(rest) == tail;
      FullGroup(head);
    }
  }

  // ----------------------------------------------- the length guard of coder.c

  const PWD_LEN_MAX := 256

  /** The length messageCheckFields estimates for the password of a ChangePwdRequest. */
  function EstimatedLength(s: string): int
    requires |s| >= 2
  {
    |s| * 3 / 4 - PadCount(s)
  }

  /** The guard agrees with the decoder, so a guarded password stays below 256 octets. */
  lemma GuardMatchesDecoder(s: string)
    requires Accepted(s)
    ensures EstimatedLength(s) == |Decode(s).value|
    ensures EstimatedLength(s) < PWD_LEN_MAX <==> |Decode(s).value| < PWD_LEN_MAX
  {
    var n := |s| / 4;
    assert |s| == 4 * n;
  }

  // ----------------------------------------------------------- the text, character by character

  /** Table 1 of RFC 4648: capital letters, small letters, figures and two signs, each run in the order of their codes. */
  lemma AlphabetIs(k: Sextet)
    ensures CharOf(0) == 'A' && CharOf(25) == 'Z' && CharOf(26) == 'a' && CharOf(51) == 'z'
    ensures CharOf(52) == '0' && CharOf(61) == '9' && CharOf(62) == '+' && CharOf(63) == '/'
    ensures k < 61 && k != 25 && k != 51 ==> CharOf(k + 1) as int == CharOf(k) as int + 1
    ensures IndexOf(CharOf(k)) == k
  {}

  /** The four characters that stand for a number below 2 to the 24th. */
  function Digits(n: int): string
    requires 0 <= n < 0x100_0000
  {
    [CharOf(n / 0x4_0000), CharOf(n / 0x1000 % 64), CharOf(n / 64 % 64), CharOf(n % 64)]
  }

  /** Three octets are one number of 24 bits, written with four digits to the base 64; a last group of one or two octets
      is filled up with zeros, and each missing octet takes one character's place with a padding sign. */
  lemma GroupIsNumber(a: Byte, b: Byte, c: Byte)
    ensures EncodeGroup([a, b, c]) == Digits(Number(a, b, c))
    ensures EncodeGroup([a, b]) == Digits(Number(a, b, 0))[..3] + "="
    ensures EncodeGroup([a]) == Digits(Number(a, 0, 0))[..2] + "=="
  {
    hide CharOf, S1, S2, S3, S4, Digits, Number;
    DigitsAre(a, b, c);
    DigitsAre(a, b, 0);
    DigitsAre(a, 0, 0);
  }

  function Number(a: Byte, b: Byte, c: Byte): (n: int)
    ensures 0 <= n < 0x100_0000
  {
    a as int * 0x1_0000 + b as int * 0x100 + c
  }

  lemma DigitsAre(a: Byte, b: Byte, c: Byte)
    ensures Digits(Number(a, b, c)) == [CharOf(S1(a)), CharOf(S2(a, b)), CharOf(S3(b, c)), CharOf(S4(c))]
  {
    hide CharOf, S1, S2, S3, S4, Number;
    First(a, b, c);
    Second(a, b, c);
    Third(a, b, c);
    Fourth(a, b, c);
  }

  lemma First(a: Byte, b: Byte, c: Byte)
    ensures Number(a, b, c) / 0x4_0000 == S1(a)
  {
    var q, r := a as int / 4, a as int % 4;
    assert Number(a, b, c) == 0x4_0000 * q + (r * 0x1_0000 + b * 0x100 + c);
  }

  lemma Second(a: Byte, b: Byte, c: Byte)
    ensures Number(a, b, c) / 0x1000 % 64 == S2(a, b)
  {
    var q, r := b as int / 16, b as int % 16;
    assert Number(a, b, c) == 0x1000 * (16 * a + q) + (r * 0x100 + c);
    assert Number(a, b, c) / 0x1000 == 16 * a + q;
    var h, m := a as int / 4, a as int % 4;
    assert 16 * a + q == 64 * h + (16 * m + q);
  }

  lemma Third(a: Byte, b: Byte, c: Byte)
    ensures Number(a, b, c) / 64 % 64 == S3(b, c)
  {
    var q, r := c as int / 64, c as int % 64;
    assert Number(a, b, c) == 64 * (1024 * a + 4 * b + q) + r;
    assert Number(a, b, c) / 64 == 1024 * a + 4 * b + q;
    var h, m := b as int / 16, b as int % 16;
    assert 1024 * a + 4 * b + q == 64 * (16 * a + h) + (4 * m + q);
  }

  lemma Fourth(a: Byte, b: Byte, c: Byte)
    ensures Number(a, b, c) % 64 == S4(c)
  {
    var q, r := c as int / 64, c as int % 64;
    assert Number(a, b, c) == 64 * (1024 * a + 4 * b + q) + r;
  }

  /** The text of any octets, group by group. */
  lemma TextOfGroup(x: Bytes, g: nat)
    requires 3 * g < |x|
    ensures |Encode(x)| == 4 * ((|x| + 2) / 3) && 4 * g + 4 <= |Encode(x)|
    ensures Encode(x)[4 * g..4 * g + 4]
            == if 3 * g + 3 <= |x|
               then Digits(x[3 * g] as int * 0x1_0000 + x[3 * g + 1] as int * 0x100 + x[3 * g + 2])
               else if 3 * g + 2 == |x| then Digits(x[3 * g] as int * 0x1_0000 + x[3 * g + 1] as int * 0x100)[..3] + "="
               else Digits(x[3 * g] as int * 0x1_0000)[..2] + "=="
  {
    hide EncodeGroup, Digits, Encode;
    EncodedGroupAt(x, g);
    var y := x[3 * g..];
    if |y| >= 3 {
      FirstThree(y);
      GroupIsNumber(y[0], y[1], y[2]);
    } else if |y| == 2 {
      GroupIsNumber(y[0], y[1], 0);
      assert y == [y[0], y[1]];
    } else {
      GroupIsNumber(y[0], 0, 0);
      assert y == [y[0]];
    }
  }

  lemma FirstThree(y: Bytes)
    requires |y| >= 3
    ensures EncodeGroup(y) == EncodeGroup([y[0], y[1], y[2]])
  {}

  /** What any accepted text decodes to, group by group: the octets of the number its four characters stand for, a foreign
      character counting as zero; an octet whose last character is a padding sign is zero. The result ends two octets
      early with two padding signs at the end, and one with one. */
  lemma OctetsOfGroup(s: string, g: nat)
    requires Accepted(s) && 4 * g < |s|
    ensures Decode(s).Some?
            && |Decode(s).value| == |s| / 4 * 3 - (if s[|s| - 1] != '=' then 0 else if s[|s| - 2] != '=' then 1 else 2)
    ensures var x, n := Decode(s).value, ValueOf(s[4 * g], s[4 * g + 1], s[4 * g + 2], s[4 * g + 3]);
            && x[3 * g] as int == n / 0x1_0000
            && (3 * g + 1 < |x| ==> x[3 * g + 1] as int == if s[4 * g + 2] == '=' then 0 else n / 0x100 % 0x100)
            && (3 * g + 2 < |x| ==> x[3 * g + 2] as int == if s[4 * g + 3] == '=' then 0 else n % 0x100)
  {
    hide IndexOf, DecodeGroup, DecodeGroups, ValueOf;
    DecodedGroupAt(s, g);
    var t, all := s[4 * g..], DecodeGroups(s);
    assert t[0] == s[4 * g] && t[1] == s[4 * g + 1] && t[2] == s[4 * g + 2] && t[3] == s[4 * g + 3];
    GroupOctets(t);
    var three := all[3 * g..3 * g + 3];
    assert three[0] == all[3 * g] && three[1] == all[3 * g + 1] && three[2] == all[3 * g + 2];
  }

  /** The number four characters stand for. */
  function ValueOf(a: char, b: char, c: char, d: char): (n: int)
    ensures 0 <= n < 0x100_0000
  {
    IndexOf(a) as int * 0x4_0000 + IndexOf(b) as int * 0x1000 + IndexOf(c) as int * 64 + IndexOf(d)
  }

  lemma GroupOctets(t: string)
    requires |t| >= 4
    ensures var n := ValueOf(t[0], t[1], t[2], t[3]);
            && DecodeGroup(t)[0] as int == n / 0x1_0000
            && DecodeGroup(t)[1] as int == (if t[2] == '=' then 0 else n / 0x100 % 0x100)
            && DecodeGroup(t)[2] as int == if t[3] == '=' then 0 else n % 0x100
  {
    hide IndexOf, O1, O2, O3, ValueOf;
    HighOctet(t[0], t[1], t[2], t[3]);
    MiddleOctet(t[0], t[1], t[2], t[3]);
    LowOctet(t[0], t[1], t[2], t[3]);
  }

  lemma HighOctet(a: char, b: char, c: char, d: char)
    ensures ValueOf(a, b, c, d) / 0x1_0000 == O1(IndexOf(a), IndexOf(b))
  {
    hide IndexOf;
    var i: int, j: int, k: int, l: int := IndexOf(a), IndexOf(b), IndexOf(c), IndexOf(d);
    Words(ValueOf(a, b, c, d), 4 * i + j / 16, j % 16 * 0x1000 + k * 64 + l);
  }

  lemma MiddleOctet(a: char, b: char, c: char, d: char)
    ensures ValueOf(a, b, c, d) / 0x100 % 0x100 == O2(IndexOf(b), IndexOf(c))
  {
    hide IndexOf;
    var i: int, j: int, k: int, l: int := IndexOf(a), IndexOf(b), IndexOf(c), IndexOf(d);
    Octets(ValueOf(a, b, c, d), 1024 * i + 16 * j + k / 4, k % 4 * 64 + l);
    Octets(1024 * i + 16 * j + k / 4, 4 * i + j / 16, j % 16 * 16 + k / 4);
  }

  lemma LowOctet(a: char, b: char, c: char, d: char)
    ensures ValueOf(a, b, c, d) % 0x100 == O3(IndexOf(c), IndexOf(d))
  {
    hide IndexOf;
    var i: int, j: int, k: int, l: int := IndexOf(a), IndexOf(b), IndexOf(c), IndexOf(d);
    Octets(ValueOf(a, b, c, d), 1024 * i + 16 * j + k / 4, k % 4 * 64 + l);
  }

  lemma Octets(n: int, q: int, r: int)
    ensures n == 0x100 * q + r && 0 <= r < 0x100 ==> n / 0x100 == q && n % 0x100 == r
  {}

  lemma Words(n: int, q: int, r: int)
    ensures n == 0x1_0000 * q + r && 0 <= r < 0x1_0000 ==> n / 0x1_0000 == q
  {}
}
