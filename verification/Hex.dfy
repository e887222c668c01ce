/** src/crypt/bcd.c: octets written as pairs of hexadecimal digits, with or without a
    separator, and the tolerant scanner that reads them back. */
module Hex {
  import opened Basics

  type Nibble = x: int | 0 <= x < 16

  /** c2a: the upper-case digit of a nibble. */
  function Digit(n: Nibble): char {
    if n < 10 then '0' + n as char else 'A' + (n - 10) as char
  }

  predicate IsDigit(c: char) {
    '0' <= c <= '9' || 'a' <= c <= 'f' || 'A' <= c <= 'F'
  }

  /** a2c: the value of a digit of either case, 0 for anything else. */
  function Value(c: char): Nibble {
    if '0' <= c <= '9' then c as int - '0' as int
    else if 'a' <= c <= 'f' then c as int - 'a' as int + 10
    else if 'A' <= c <= 'F' then c as int - 'A' as int + 10
    else 0
  }

  /** The separator is used unless it is absent or is itself a digit. */
  datatype Separator = NoSeparator | Separator(c: char)

  predicate Separates(sep: Separator) {
    sep.Separator? && !IsDigit(sep.c)
  }

  function Pair(b: Byte): (s: string)
    ensures |s| == 2
  {
    [Digit(b / 16), Digit(b % 16)]
  }

  /** The text of bcd_encode_sep for a non-empty buffer (it returns NULL for an empty one). */
  function Encode(x: Bytes, sep: Separator): string {
    if x == [] then []
    else if |x| == 1 then Pair(x[0])
    else Pair(x[0]) + (if Separates(sep) then [sep.c] else []) + Encode(x[1..], sep)
  }

  /** What the scanner has left after reading one pair: it steps over one character that is
      not a digit, and stops where fewer characters remain. */
  function AfterPair(s: string): string {
    if |s| <= 2 then [] else if IsDigit(s[2]) then s[2..] else s[3..]
  }

  /** The scanner never starts on a lone last character. */
  predicate Paired(s: string)
    decreases |s|
  {
    s == [] || (|s| >= 2 && Paired(AfterPair(s)))
  }

  /** The octet of the next two characters; a lone last one is paired with the NUL. */
  function First(s: string): Byte
    requires s != []
  {
    Octet(Value(s[0]), if |s| > 1 then Value(s[1]) else 0)
  }

  /** The octets the scanner writes, inside its buffer or not. */
  function Scan(s: string): (x: Bytes)
    ensures s != [] ==> x != []
    decreases |s|
  {
    if s == [] then [] else [First(s)] + Scan(AfterPair(s))
  }

  /** None where bcd_decode returns NULL. */
  function Decode(s: string): Option<Bytes> {
    if |s| > 1 && IsDigit(s[0]) && IsDigit(s[1]) then Some(Scan(s)) else None
  }

  /** An odd text with a digit wherever a pair could begin. */
  predicate OddRun(s: string) {
    |s| % 2 == 1 && forall i :: 2 <= i < |s| && i % 2 == 0 ==> IsDigit(s[i])
  }

  lemma {:induction false} ScanBound(s: string)
    ensures 2 * |Scan(s)| <= |s| + 1
    ensures Paired(s) ==> 2 * |Scan(s)| <= |s|
    decreases |s|
  {
    hide IsDigit, Value;
    if s != [] { ScanBound(AfterPair(s)); }
  }

  /** The scanner writes past a buffer of half the text's length exactly for an odd text in which it steps over nothing:
      one separator is enough to leave room for the lone last character. */
  lemma {:induction false} OverrunsIff(s: string)
    ensures |Scan(s)| > |s| / 2 <==> OddRun(s)
    decreases |s|
  {
    hide IsDigit, Value, OddRun;
    OddRunStep(s);
    if |s| > 2 {
      OverrunsIff(AfterPair(s));
      ScanBound(AfterPair(s));
    }
  }

  lemma OddRunStep(s: string)
    ensures |s| <= 2 ==> (OddRun(s) <==> |s| == 1)
    ensures |s| > 2 ==> (OddRun(s) <==> IsDigit(s[2]) && OddRun(s[2..]))
  {
    hide IsDigit;
    if |s| > 2 {
      var rest := s[2..];
      assert |rest| % 2 == |s| % 2;
      if OddRun(s) { forall i | 2 <= i < |rest| && i % 2 == 0 ensures IsDigit(rest[i]) { assert rest[i] == s[i + 2]; } }
      if IsDigit(s[2]) && OddRun(rest) {
        forall i | 2 <= i < |s| && i % 2 == 0 ensures IsDigit(s[i]) { if i > 2 { assert rest[i - 2] == s[i]; } }
      }
    }
  }

  /** "ABC" overruns its buffer of one octet; "AB:C" reads past its NUL and stays in its buffer of two. */
  lemma LoneCharacters()
    ensures !Paired("ABC") && |Scan("ABC")| == 2 > |"ABC"| / 2
    ensures !Paired("AB:C") && |Scan("AB:C")| == 2 == |"AB:C"| / 2
  {
    assert AfterPair("ABC") == "C" && AfterPair("AB:C") == "C" && AfterPair("C") == [];
  }

  /** The loop of bcd_encode_sep over its buffer; the C string ends at the NUL. */
  method EncodeBuffer(x: Bytes, sep: Separator) returns (out: array<char>)
    requires x != []
    ensures out.Length >= 1 && out[..] == Encode(x, sep) + [NUL]
  {
    hide Digit, IsDigit, Encode;
    if Separates(sep) {
      SeparatedLength(x, sep);
      out := new char[3 * |x|];
      for j := 0 to |x|
        invariant forall k :: 0 <= k < 3 * j && k < out.Length - 1 ==> out[k] == Encode(x, sep)[k]
      {
        SeparatedAt(x, sep, j);
        out[3 * j] := Digit(x[j] / 16);
        out[3 * j + 1] := Digit(x[j] % 16);
        out[3 * j + 2] := sep.c;
      }
      out[out.Length - 1] := NUL;
    } else {
      PlainLength(x, sep);
      out := new char[2 * |x| + 1];
      for j := 0 to |x|
        invariant forall k :: 0 <= k < 2 * j ==> out[k] == Encode(x, sep)[k]
      {
        PlainAt(x, sep, j);
        out[2 * j] := Digit(x[j] / 16);
        out[2 * j + 1] := Digit(x[j] % 16);
      }
      out[out.Length - 1] := NUL;
    }
  }

  const NUL: char := '\0'

  lemma {:induction false} SeparatedLength(x: Bytes, sep: Separator)
    requires x != [] && Separates(sep)
    ensures |Encode(x, sep)| == 3 * |x| - 1
    decreases |x|
  {
    if |x| > 1 { SeparatedLength(x[1..], sep); }
  }

  lemma {:induction false} SeparatedAt(x: Bytes, sep: Separator, j: nat)
    requires j < |x| && Separates(sep)
    ensures var s := Encode(x, sep);
            && 3 * j + 2 <= |s| && (j + 1 < |x| ==> 3 * j + 3 <= |s| && s[3 * j + 2] == sep.c)
            && s[3 * j] == Digit(x[j] / 16) && s[3 * j + 1] == Digit(x[j] % 16)
    decreases j
  {
    hide Digit, IsDigit;
    if j > 0 {
      var s, t := Encode(x, sep), Encode(x[1..], sep);
      SeparatedAt(x[1..], sep, j - 1);
      assert s == Pair(x[0]) + [sep.c] + t;
      assert s[3 * j] == t[3 * (j - 1)] && s[3 * j + 1] == t[3 * (j - 1) + 1];
      if j + 1 < |x| { assert s[3 * j + 2] == t[3 * (j - 1) + 2]; }
    }
  }

  lemma {:induction false} PlainLength(x: Bytes, sep: Separator)
    requires !Separates(sep)
    ensures |Encode(x, sep)| == 2 * |x|
    decreases |x|
  {
    if |x| > 1 { PlainLength(x[1..], sep); }
  }

  lemma {:induction false} PlainAt(x: Bytes, sep: Separator, j: nat)
    requires j < |x| && !Separates(sep)
    ensures var s := Encode(x, sep);
            && 2 * j + 2 <= |s| && s[2 * j] == Digit(x[j] / 16) && s[2 * j + 1] == Digit(x[j] % 16)
    decreases j
  {
    hide Digit, IsDigit;
    if j > 0 {
      var s, t := Encode(x, sep), Encode(x[1..], sep);
      PlainAt(x[1..], sep, j - 1);
      assert s == Pair(x[0]) + t;
      assert s[2 * j] == t[2 * (j - 1)] && s[2 * j + 1] == t[2 * (j - 1) + 1];
    }
  }

  function Octet(high: Nibble, low: Nibble): Byte {
    high as int * 16 + low
  }

  lemma ScanStep(done: Bytes, left: string)
    requires left != []
    ensures done + Scan(left) == done + [First(left)] + Scan(AfterPair(left))
  {
    hide AfterPair, First;
    var rest := Scan(AfterPair(left));
    assert Scan(left) == [First(left)] + rest;
    assert done + ([First(left)] + rest) == done + [First(left)] + rest;
  }

  lemma Shorter(left: string)
    requires left != []
    ensures |AfterPair(left)| < |left|
  {
    hide IsDigit;
  }

  lemma PairedStep(left: string)
    ensures left == [] ==> Paired(left) && Scan(left) == []
    ensures left != [] ==> (Paired(left) <==> |left| >= 2 && Paired(AfterPair(left)))
  {
    hide IsDigit;
  }

  function Tail(s: string, i: nat): string {
    if i < |s| then s[i..] else []
  }

  /** The loop's second index: after a pair it stays on a digit and otherwise steps over one character. */
  lemma TailAfterPair(s: string, i: nat, next: nat)
    requires i < |s| && next == if i + 2 < |s| && IsDigit(s[i + 2]) then i + 2 else i + 3
    ensures AfterPair(Tail(s, i)) == Tail(s, next)
  {
    hide IsDigit;
  }

  /** bcd_decode on a text of len characters, its NUL and the octet behind it. The array out stands for the buffer of
      half the text's length and the octet behind that; last is the highest index read. */
  method DecodeBuffer(buf: array<char>, len: nat) returns (ok: bool, out: array<Byte>, count: nat, last: nat)
    requires buf.Length >= len + 2 && buf[len] == NUL
    ensures ok == Decode(buf[..len]).Some?
    ensures ok ==> out.Length == len / 2 + 1 && count <= out.Length && out[..count] == Decode(buf[..len]).value
    ensures ok ==> last <= len + 1 && (last == len + 1 <==> !Paired(buf[..len]))
    ensures ok ==> (count > len / 2 <==> OddRun(buf[..len]))
  {
    hide Value, IsDigit, Octet, Scan, OddRun, Paired, AfterPair, First;
    ghost var s := buf[..len];
    out := new Byte[len / 2 + 1];
    count, last := 0, 0;
    ok := len > 1 && IsDigit(buf[0]) && IsDigit(buf[1]);
    if ok {
      ScanBound(s);
      OverrunsIff(s);
      var i := 0;
      ghost var left := s;
      while i < len
        invariant left == Tail(s, i) && count <= out.Length
        invariant Scan(s) == out[..count] + Scan(left)
        invariant Paired(s) <==> last <= len && Paired(left)
        invariant last <= len + 1 && (last == len + 1 ==> left == [])
        decreases |left|
      {
        assert left[0] == s[i] && (i + 1 < len ==> left[1] == s[i + 1]);
        ghost var before, rest := out[..count], AfterPair(left);
        ScanStep(before, left);
        PairedStep(left);
        Shorter(left);
        LoneNul();
        FirstIs(left, buf[i], buf[i + 1]);
        NotYetFull(before, left);
        out[count] := Octet(Value(buf[i]), Value(buf[i + 1]));
        assert out[..count + 1] == before + [First(left)];
        count := count + 1;
        ghost var i' := i;
        i := i + 2;
        last := i;
        if !IsDigit(buf[i]) { i := i + 1; }
        TailAfterPair(s, i', if i' + 2 < len && IsDigit(s[i' + 2]) then i' + 2 else i' + 3);
        assert Tail(s, i) == rest;
        left := rest;
      }
      PairedStep(left);
    }
  }

  lemma LoneNul()
    ensures !IsDigit(NUL) && Value(NUL) == 0
  {}

  lemma FirstIs(left: string, a: char, b: char)
    requires left != [] && a == left[0] && b == (if |left| > 1 then left[1] else NUL)
    ensures First(left) == Octet(Value(a), Value(b))
  {}

  lemma NotYetFull(done: Bytes, left: string)
    requires left != []
    ensures |done + Scan(left)| > |done|
  {}

  lemma DigitValue(n: Nibble)
    ensures IsDigit(Digit(n)) && Value(Digit(n)) == n
  {}

  lemma OctetOfDigits(b: Byte)
    ensures Octet(Value(Digit(b / 16)), Value(Digit(b % 16))) == b
  {
    DigitValue(b / 16);
    DigitValue(b % 16);
  }

  /** The scanner reads back every non-empty buffer, for every separator or none. */
  lemma {:induction false} RoundTrip(x: Bytes, sep: Separator)
    requires x != []
    ensures Paired(Encode(x, sep)) && Decode(Encode(x, sep)) == Some(x)
    decreases |x|
  {
    hide Digit, Value, IsDigit, Octet;
    DigitValue(x[0] / 16);
    DigitValue(x[0] % 16);
    OctetOfDigits(x[0]);
    var s := Encode(x, sep);
    FirstPair(x, sep);
    if |x| == 1 {
      assert Scan([]) == [];
      assert Scan(s) == [x[0]] == x;
    } else {
      RoundTrip(x[1..], sep);
      assert x == [x[0]] + x[1..];
    }
  }

  lemma FirstPair(x: Bytes, sep: Separator)
    requires x != []
    ensures var s := Encode(x, sep);
            && |s| >= 2 && s[0] == Digit(x[0] / 16) && s[1] == Digit(x[0] % 16)
            && AfterPair(s) == if |x| == 1 then [] else Encode(x[1..], sep)
  {
    hide Digit, IsDigit;
    if |x| > 1 {
      var t := Encode(x[1..], sep);
      assert t[0] == Digit(x[1] / 16);
      DigitValue(x[1] / 16);
    }
  }

  predicate AllDigits(s: string) {
    forall i :: 0 <= i < |s| ==> IsDigit(s[i])
  }

  /** An even run of digits decodes to exactly half its length. */
  lemma {:induction false} EvenDigits(s: string)
    requires AllDigits(s) && |s| % 2 == 0
    ensures Paired(s) && |Scan(s)| == |s| / 2
    decreases |s|
  {
    hide IsDigit;
    if s != [] {
      assert AfterPair(s) == s[2..];
      EvenDigits(s[2..]);
    }
  }

  /** The unseparated form is an even run of digits. */
  lemma {:induction false} PlainShape(x: Bytes)
    ensures AllDigits(Encode(x, NoSeparator)) && |Encode(x, NoSeparator)| == 2 * |x|
    decreases |x|
  {
    hide IsDigit, Digit;
    if x != [] {
      DigitValue(x[0] / 16);
      DigitValue(x[0] % 16);
      PlainShape(x[1..]);
    }
  }

  // ----------------------------------------------------------- the text, digit by digit

  const UPPER := "0123456789ABCDEF"
  const LOWER := "0123456789abcdef"

  /** A digit is written in upper case and read in either; no other character is one. */
  lemma DigitIs(n: Nibble, c: char)
    ensures Digit(n) == UPPER[n] && Value(UPPER[n]) == n && Value(LOWER[n]) == n && IsDigit(UPPER[n]) && IsDigit(LOWER[n])
    ensures IsDigit(c) <==> c in UPPER || c in LOWER
  {
    assert UPPER[0] == '0' && UPPER[1] == '1' && UPPER[2] == '2' && UPPER[3] == '3' && UPPER[4] == '4' && UPPER[5] == '5'
           && UPPER[6] == '6' && UPPER[7] == '7' && UPPER[8] == '8' && UPPER[9] == '9' && UPPER[10] == 'A'
           && UPPER[11] == 'B' && UPPER[12] == 'C' && UPPER[13] == 'D' && UPPER[14] == 'E' && UPPER[15] == 'F';
    assert LOWER[10] == 'a' && LOWER[11] == 'b' && LOWER[12] == 'c' && LOWER[13] == 'd' && LOWER[14] == 'e'
           && LOWER[15] == 'f';
  }

  /** The text of a buffer has the two digits of each octet, the higher one first, and the separator between octets. */
  lemma TextAt(x: Bytes, j: nat)
    requires j < |x|
    ensures var s := Encode(x, NoSeparator);
            |s| == 2 * |x| && s[2 * j] == UPPER[x[j] / 16] && s[2 * j + 1] == UPPER[x[j] % 16]
    ensures forall c: char :: !IsDigit(c) ==> var s := Encode(x, Separator(c));
              && |s| == 3 * |x| - 1 && s[3 * j] == UPPER[x[j] / 16] && s[3 * j + 1] == UPPER[x[j] % 16]
              && (j + 1 < |x| ==> s[3 * j + 2] == c)
  {
    hide Digit, Encode;
    DigitIs(x[j] / 16, 'x');
    DigitIs(x[j] % 16, 'x');
    PlainLength(x, NoSeparator);
    PlainAt(x, NoSeparator, j);
    forall c: char | !IsDigit(c)
      ensures var s := Encode(x, Separator(c));
              && |s| == 3 * |x| - 1 && s[3 * j] == UPPER[x[j] / 16] && s[3 * j + 1] == UPPER[x[j] % 16]
              && (j + 1 < |x| ==> s[3 * j + 2] == c)
    {
      SeparatedLength(x, Separator(c));
      SeparatedAt(x, Separator(c), j);
    }
  }

  /** A separator that is itself a digit is not used. */
  lemma {:induction false} DigitSeparatorUnused(x: Bytes, c: char)
    requires IsDigit(c)
    ensures Encode(x, Separator(c)) == Encode(x, NoSeparator)
    decreases |x|
  {
    hide Pair;
    if |x| > 1 { DigitSeparatorUnused(x[1..], c); }
  }

  /** Of an even number of digits every two are one octet, the first of them its higher half. */
  lemma {:induction false} OctetAt(s: string, j: nat)
    requires |s| % 2 == 0 && AllDigits(s) && 2 * j < |s|
    ensures |Scan(s)| == |s| / 2 && Scan(s)[j] == 16 * Value(s[2 * j]) as int + Value(s[2 * j + 1])
  {
    hide Value, IsDigit, Scan;
    EvenDigits(s);
    ScanStep([], s);
    FirstIs(s, s[0], s[1]);
    assert [] + Scan(s) == Scan(s) && [] + [First(s)] + Scan(AfterPair(s)) == [First(s)] + Scan(AfterPair(s));
    if j > 0 {
      var rest := s[2..];
      assert IsDigit(s[2]) && AfterPair(s) == rest;
      assert AllDigits(rest) by { assert forall k :: 0 <= k < |rest| ==> rest[k] == s[k + 2]; }
      OctetAt(rest, j - 1);
    }
  }

  /** What the scanner makes of any text: two characters are one octet, a character that is no digit counting as zero and the
      missing second one too; it steps over one character behind them that is no digit, and over one only. */
  lemma ScanIs(a: char, b: char, c: char, rest: string)
    ensures Scan([]) == [] && Scan([a]) == [16 * Value(a) as int] && Scan([a, b]) == [16 * Value(a) as int + Value(b)]
    ensures Scan([a, b, c] + rest)
            == [16 * Value(a) as int + Value(b)] + Scan(if IsDigit(c) then [c] + rest else rest)
  {
    hide Value, IsDigit, Scan;
    ScanStep([], [a]);
    ScanStep([], [a, b]);
    NothingScanned();
    FirstIs([a], a, NUL);
    LoneNul();
    FirstIs([a, b], a, b);
    var s := [a, b, c] + rest;
    ScanStep([], s);
    FirstIs(s, a, b);
    assert s[2] == c && s[2..] == [c] + rest && s[3..] == rest;
    assert [] + Scan(s) == Scan(s) && [] + Scan([a]) == Scan([a]) && [] + Scan([a, b]) == Scan([a, b]);
  }

  lemma NothingScanned()
    ensures Scan([]) == []
  {}

  /** A text is decoded exactly when it begins with two digits. */
  lemma DecodesIff(s: string)
    ensures Decode(s).Some? <==> |s| >= 2 && (s[0] in UPPER || s[0] in LOWER) && (s[1] in UPPER || s[1] in LOWER)
    ensures Decode(s).Some? ==> Decode(s) == Some(Scan(s))
  {
    hide IsDigit, Scan;
    if |s| >= 2 {
      DigitIs(0, s[0]);
      DigitIs(0, s[1]);
    }
  }
}
