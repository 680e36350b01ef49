// The base64 encoding of section 4 of RFC 4648, with padding. A Go string is a
// sequence of bytes; here each character stands for one.
module Base64 {
  import opened Types

  type Sextet = n: nat | n < 64

  predicate IsText(s: string) {
    forall i :: 0 <= i < |s| ==> s[i] as int < 256
  }

  type Text = s: string | IsText(s)

  // Characters that stand for no byte are cut to one.
  function AsText(s: string): (t: Text)
    ensures IsText(s) ==> t == s
  {
    seq(|s|, i requires 0 <= i < |s| => (s[i] as int % 256) as char)
  }

  function Byte(n: nat): char
    requires n < 256
  {
    n as char
  }

  function Digit(n: Sextet): char {
    if n < 26 then ('A' as int + n) as char
    else if n < 52 then ('a' as int + (n - 26)) as char
    else if n < 62 then ('0' as int + (n - 52)) as char
    else if n == 62 then '+' else '/'
  }

  function Value(c: char): Option<Sextet> {
    if 'A' <= c <= 'Z' then Some(c as int - 'A' as int)
    else if 'a' <= c <= 'z' then Some(c as int - 'a' as int + 26)
    else if '0' <= c <= '9' then Some(c as int - '0' as int + 52)
    else if c == '+' then Some(62)
    else if c == '/' then Some(63)
    else None
  }

  // The four characters for one, two or three bytes.
  function EncodeGroup(s: Text): (t: string)
    requires 1 <= |s| <= 3
    ensures |t| == 4
  {
    var a, b, c := s[0] as int, if |s| > 1 then s[1] as int else 0, if |s| > 2 then s[2] as int else 0;
    [Digit(a / 4), Digit(a % 4 * 16 + b / 16),
     if |s| > 1 then Digit(b % 16 * 4 + c / 64) else '=',
     if |s| > 2 then Digit(c % 64) else '=']
  }

  function Encode(s: Text): string {
    if s == "" then ""
    else
      var n := if |s| < 3 then |s| else 3;
      EncodeGroup(s[..n]) + Encode(s[n..])
  }

  // The first byte, and the others, of what up to four digits stand for.
  function First(p: Sextet, q: Sextet): char { Byte(p * 4 + q / 16) }
  function Second(q: Sextet, r: Sextet): char { Byte(q % 16 * 16 + r / 4) }
  function Third(r: Sextet, s: Sextet): char { Byte(r % 4 * 64 + s) }

  // The last group, with or without padding.
  function DecodeGroup(t: string): Option<string>
    requires |t| == 4
  {
    var p, q, r, s := Value(t[0]), Value(t[1]), Value(t[2]), Value(t[3]);
    if p.None? || q.None? then None
    else if t[2] == '=' && t[3] == '=' then Some([First(p.value, q.value)])
    else if r.None? then None
    else if t[3] == '=' then Some([First(p.value, q.value), Second(q.value, r.value)])
    else if s.None? then None
    else Some([First(p.value, q.value), Second(q.value, r.value), Third(r.value, s.value)])
  }

  // Padding is allowed at the end of the text only.
  function Decode(t: string): Option<string> {
    if t == "" then Some("")
    else if |t| < 4 || (|t| > 4 && '=' in t[..4]) then None
    else
      var group, rest := DecodeGroup(t[..4]), Decode(t[4..]);
      if group.None? || rest.None? then None else Some(group.value + rest.value)
  }

  lemma DigitHasItsValue(n: Sextet)
    ensures Value(Digit(n)) == Some(n) && Digit(n) != '='
  {
  }

  // Splitting three bytes into sextets loses nothing.
  lemma SplitAndJoin(a: nat, b: nat, c: nat)
    requires a < 256 && b < 256 && c < 256
    ensures First(a / 4, a % 4 * 16 + b / 16) == Byte(a)
    ensures Second(a % 4 * 16 + b / 16, b % 16 * 4 + c / 64) == Byte(b)
    ensures Third(b % 16 * 4 + c / 64, c % 64) == Byte(c)
  {
  }

  lemma DecodeDigits(s: Text, t: string, p: Sextet, q: Sextet, r: Sextet, x: Sextet)
    requires 1 <= |s| <= 3
    requires t == [Digit(p), Digit(q), if |s| > 1 then Digit(r) else '=', if |s| > 2 then Digit(x) else '=']
    requires s[0] == First(p, q) && (|s| > 1 ==> s[1] == Second(q, r)) && (|s| > 2 ==> s[2] == Third(r, x))
    ensures DecodeGroup(t) == Some(s)
    ensures |s| == 3 ==> '=' !in t
  {
    DigitHasItsValue(p);
    DigitHasItsValue(q);
    DigitHasItsValue(r);
    DigitHasItsValue(x);
    if |s| == 1 {
      assert s == [First(p, q)];
    } else if |s| == 2 {
      assert s == [First(p, q), Second(q, r)];
    } else {
      assert s == [First(p, q), Second(q, r), Third(r, x)];
    }
  }

  lemma DecodeEncodeGroup(s: Text)
    requires 1 <= |s| <= 3
    ensures DecodeGroup(EncodeGroup(s)) == Some(s)
    ensures |s| == 3 ==> '=' !in EncodeGroup(s)
  {
    var a, b, c := s[0] as int, if |s| > 1 then s[1] as int else 0, if |s| > 2 then s[2] as int else 0;
    SplitAndJoin(a, b, c);
    DecodeDigits(s, EncodeGroup(s), a / 4, a % 4 * 16 + b / 16, b % 16 * 4 + c / 64, c % 64);
  }

  lemma {:induction false} DecodeEncode(s: Text)
    ensures Decode(Encode(s)) == Some(s)
  {
    if s != "" {
      var t, n := Encode(s), if |s| < 3 then |s| else 3;
      DecodeEncodeGroup(s[..n]);
      DecodeEncode(s[n..]);
      assert t[..4] == EncodeGroup(s[..n]) && t[4..] == Encode(s[n..]);
      assert s == s[..n] + s[n..];
    }
  }

  // Nothing in the encoded text has to be escaped inside a quoted string.
  lemma {:induction false} EncodedCharacters(s: Text, i: nat)
    requires i < |Encode(s)|
    ensures var c := Encode(s)[i]; Value(c).Some? || c == '='
  {
    if i >= 4 {
      EncodedCharacters(s[if |s| < 3 then |s| else 3..], i - 4);
    }
  }

  // ---- The alphabet and the test vectors of RFC 4648 ------------------------------

  // Table 1 of section 4: three runs of characters and two signs.
  lemma DigitsAreTheAlphabet(n: Sextet)
    ensures Digit(0) == 'A' && Digit(25) == 'Z' && Digit(26) == 'a' && Digit(51) == 'z'
    ensures Digit(52) == '0' && Digit(61) == '9' && Digit(62) == '+' && Digit(63) == '/'
    ensures n !in {25, 51} && n < 61 ==> Digit(n + 1) as int == Digit(n) as int + 1
  {
  }

  // Three bytes at a time, and the last one, two or three by themselves.
  lemma EncodedByGroups(s: Text, group: Text, rest: Text)
    requires s == group + rest && 1 <= |group| <= 3 && (|group| < 3 ==> rest == "")
    ensures Encode(s) == EncodeGroup(group) + Encode(rest)
  {
    assert s[..|group|] == group && s[|group|..] == rest;
  }

  // The groups of the test vectors in section 10.
  lemma TestVectors()
    ensures EncodeGroup("f") == "Zg==" && EncodeGroup("fo") == "Zm8=" && EncodeGroup("foo") == "Zm9v"
    ensures EncodeGroup("b") == "Yg==" && EncodeGroup("ba") == "YmE=" && EncodeGroup("bar") == "YmFy"
  {
  }
}
