/** src/auth/auth-pwd.c: the password column of a saved credential, either plain text or
    `$0$` followed by hexadecimal digits. */
module StoredPassword {
  import opened Basics
  import Hex

  const PWD_LEN_MIN := 8

  /** auth_pwd_str_is_hex: an even number of digits, at least two per minimal octet. */
  predicate IsHexToken(s: string) {
    |s| % 2 == 0 && |s| >= 2 * PWD_LEN_MIN && Hex.AllDigits(s)
  }

  /** The loop of auth_pwd_str_is_hex. */
  method CheckHexToken(s: string) returns (ok: bool)
    ensures ok == IsHexToken(s)
  {
    if |s| % 2 == 1 { return false; }
    if |s| < 2 * PWD_LEN_MIN { return false; }
    for i := 0 to |s|
      invariant Hex.AllDigits(s[..i])
    {
      if !Hex.IsDigit(s[i]) { return false; }
    }
    assert s[..|s|] == s;
    return true;
  }

  function OctetsOf(s: string): Bytes {
    seq(|s|, i requires 0 <= i < |s| => s[i] as int % 256)
  }

  function FromHex(s: string): Option<Bytes> {
    if IsHexToken(s) then
      Hex.EvenDigits(s);
      Some(Hex.Scan(s))
    else None
  }

  /** auth_pwd_decode: None where it returns NULL; `$0$*` is the empty password. */
  function Decode(s: string): Option<Bytes> {
    if |s| > 2 && s[0] == '$' && s[2] == '$' then
      if s[1] != '0' then None
      else if |s| > 3 && s[3] == '*' then Some([])
      else FromHex(s[3..])
    else if |s| >= PWD_LEN_MIN then Some(OctetsOf(s))
    else None
  }

  /** The token auth_write prints: `$0$` and the digits, or `*` for no password. */
  function Encode(pwd: Bytes): string {
    if pwd == [] then "*" else "$0$" + Hex.Encode(pwd, Hex.NoSeparator)
  }

  /** A saved password is read back exactly when it is long enough; a shorter one makes the
      loader ignore the whole line. */
  lemma SurvivesSaving(pwd: Bytes)
    ensures Decode(Encode(pwd)) == Some(pwd) <==> |pwd| >= PWD_LEN_MIN
    ensures Decode(Encode(pwd)) == if |pwd| >= PWD_LEN_MIN then Some(pwd) else None
  {
    assert !Hex.IsDigit('*');
    hide Hex.IsDigit, Hex.Digit, Hex.Value, Hex.Encode, Hex.Scan, Hex.AllDigits;
    if pwd != [] {
      var digits := Hex.Encode(pwd, Hex.NoSeparator);
      Hex.PlainShape(pwd);
      Hex.RoundTrip(pwd, Hex.NoSeparator);
      assert Encode(pwd)[3..] == digits;
      FirstIsDigit(digits);
      assert Encode(pwd)[3] == digits[0];
    }
  }

  lemma FirstIsDigit(digits: string)
    requires Hex.AllDigits(digits) && digits != []
    ensures Hex.IsDigit(digits[0])
  {}

  /** Every string that passes the check decodes to half its length, with every write of the
      decoder inside its buffer. */
  lemma HexTokenDecodes(s: string)
    requires IsHexToken(s)
    ensures Hex.Paired(s) && Hex.Decode(s).Some? && |Hex.Decode(s).value| == |s| / 2
    ensures FromHex(s) == Hex.Decode(s)
  {
    Hex.EvenDigits(s);
  }

  /** A plain text of at least 8 characters that does not begin like a token is the password itself. */
  lemma PlainTextIsItself(s: string)
    requires |s| >= 8 && !(s[0] == '$' && s[2] == '$')
    ensures Decode(s).Some? && |Decode(s).value| == |s|
    ensures forall i :: 0 <= i < |s| && s[i] as int < 256 ==> Decode(s).value[i] == s[i] as int
  {}

  /** A plain text of fewer characters is none. */
  lemma ShortTextIsNone(s: string)
    requires |s| < 8 && !(|s| > 2 && s[0] == '$' && s[2] == '$')
    ensures Decode(s).None?
  {}

  /** A token is the text "$0$" followed by the digits, two for an octet in either case, at least sixteen; "$0$*" is the
      empty password; another figure between the signs is not accepted. */
  lemma TokenIs(digits: string, figure: char)
    ensures Decode("$0$" + digits).Some? <==>
              (digits != [] && digits[0] == '*') || (|digits| % 2 == 0 && |digits| >= 16 && Hex.AllDigits(digits))
    ensures Hex.AllDigits(digits) && Decode("$0$" + digits).Some? ==>
              var x := Decode("$0$" + digits).value;
              && |x| == |digits| / 2
              && forall i :: 0 <= i < |x| ==> x[i] == 16 * Hex.Value(digits[2 * i]) as int + Hex.Value(digits[2 * i + 1])
    ensures digits != [] && digits[0] == '*' ==> Decode("$0$" + digits) == Some([])
    ensures figure != '0' ==> Decode("$" + [figure] + "$" + digits).None?
  {
    hide Hex.IsDigit, Hex.Value;
    var s := "$0$" + digits;
    assert s[0] == '$' && s[1] == '0' && s[2] == '$' && s[3..] == digits;
    if digits != [] { assert s[3] == digits[0]; }
    NoStar();
    if IsHexToken(digits) {
      HexTokenDecodes(digits);
      forall i | 0 <= i < |digits| / 2
        ensures Hex.Scan(digits)[i] == 16 * Hex.Value(digits[2 * i]) as int + Hex.Value(digits[2 * i + 1])
      {
        Hex.OctetAt(digits, i);
      }
    }
    var t := "$" + [figure] + "$" + digits;
    assert t[0] == '$' && t[1] == figure && t[2] == '$';
  }

  lemma NoStar()
    ensures !Hex.IsDigit('*')
  {}

  /** What is written for a password: the token with two upper-case digits for each octet. */
  lemma WrittenAs(pwd: Bytes, i: nat)
    requires i < |pwd|
    ensures var s := Encode(pwd);
            && |s| == 3 + 2 * |pwd| && s[..3] == "$0$"
            && s[3 + 2 * i] == "0123456789ABCDEF"[pwd[i] / 16] && s[4 + 2 * i] == "0123456789ABCDEF"[pwd[i] % 16]
    ensures Encode([]) == "*"
  {
    hide Hex.Encode;
    Hex.TextAt(pwd, i);
  }
}
