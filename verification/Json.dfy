// A reader of JSON texts (RFC 8259) over byte strings, written from the RFC
// and not from the printer. Numbers and literals are kept as bare words.
module Json {
  import opened Types

  datatype Value =
    | Text(text: string)
    | Object(members: seq<(string, Value)>)
    | Array(elements: seq<Value>)
    | Bare(word: string)

  // Section 7: quotation mark, reverse solidus and the control characters have
  // to be escaped.
  predicate NeedsEscape(c: char) {
    c == '"' || c == '\\' || c < ' '
  }

  predicate Clean(s: string) {
    forall i :: 0 <= i < |s| ==> !NeedsEscape(s[i])
  }

  function Hex(c: char): Option<nat> {
    if '0' <= c <= '9' then Some(c as int - '0' as int)
    else if 'a' <= c <= 'f' then Some(c as int - 'a' as int + 10)
    else if 'A' <= c <= 'F' then Some(c as int - 'A' as int + 10)
    else None
  }

  // Four hexadecimal digits.
  function ReadUnit(t: string): (r: Option<nat>)
    ensures r.Some? ==> |t| >= 4 && r.value < 0x10000 && '"' !in t[..4]
  {
    if |t| < 4 then None
    else
      var a, b, c, d := Hex(t[0]), Hex(t[1]), Hex(t[2]), Hex(t[3]);
      assert t[..4] == [t[0], t[1], t[2], t[3]];
      if a.None? || b.None? || c.None? || d.None? then None
      else Some(a.value * 0x1000 + b.value * 0x100 + c.value * 0x10 + d.value)
  }

  function Utf8(code: nat): (r: string)
    requires code < 0x110000
    ensures 1 <= |r| <= (if code < 0x10000 then 3 else 4)
    ensures r == "\"" || (forall i :: 0 <= i < |r| ==> r[i] != '"')
  {
    if code < 0x80 then [code as char]
    else if code < 0x800 then [(0xC0 + code / 0x40) as char, (0x80 + code % 0x40) as char]
    else if code < 0x10000 then
      [(0xE0 + code / 0x1000) as char, (0x80 + code / 0x40 % 0x40) as char, (0x80 + code % 0x40) as char]
    else
      [(0xF0 + code / 0x40000) as char, (0x80 + code / 0x1000 % 0x40) as char,
       (0x80 + code / 0x40 % 0x40) as char, (0x80 + code % 0x40) as char]
  }

  // After \u: one code unit, or the two of a surrogate pair. A surrogate on its
  // own reads as the replacement character.
  function ReadUnicode(t: string): (r: Option<(string, string)>)
    ensures r.Some? ==>
              var (text, rest) := r.value;
              |rest| + |text| < |t| && rest == t[|t| - |rest|..]
              && 1 <= |text| && '"' !in t[..|t| - |rest|]
  {
    var u := ReadUnit(t);
    if u.None? then None
    else if 0xD800 <= u.value < 0xDC00 && |t| >= 6 && t[4] == '\\' && t[5] == 'u'
            && ReadUnit(t[6..]).Some? && 0xDC00 <= ReadUnit(t[6..]).value < 0xE000 then
      var low := ReadUnit(t[6..]).value;
      assert '"' !in t[6..][..4];
      assert t[..10] == t[..4] + t[4..6] + t[6..][..4];
      Some((Utf8(0x10000 + (u.value - 0xD800) * 0x400 + (low - 0xDC00)), t[10..]))
    else
      Some((Utf8(if 0xD800 <= u.value < 0xE000 then 0xFFFD else u.value), t[4..]))
  }

  // After a reverse solidus: the text it stands for, and what follows. The
  // escape is longer than its text, and holds no quotation mark unless it
  // stands for one.
  function ReadEscape(t: string): (r: Option<(string, string)>)
    ensures r.Some? ==>
              var (text, rest) := r.value;
              |rest| + |text| <= |t| && rest == t[|t| - |rest|..] && 1 <= |text|
              && (text[0] == '"' || '"' !in t[..|t| - |rest|])
  {
    if t == "" then None
    else if t[0] in {'"', '\\', '/'} then Some(([t[0]], t[1..]))
    else if t[0] == 'b' then Some(([8 as char], t[1..]))
    else if t[0] == 'f' then Some(([12 as char], t[1..]))
    else if t[0] == 'n' then Some((['\n'], t[1..]))
    else if t[0] == 'r' then Some((['\r'], t[1..]))
    else if t[0] == 't' then Some((['\t'], t[1..]))
    else if t[0] == 'u' then ReadUnicode(t[1..])
    else None
  }

  // After the opening quotation mark: the text of a string, and what follows
  // the closing one.
  function ReadString(t: string): (r: Option<(string, string)>)
    ensures r.Some? ==> |r.value.1| < |t|
  {
    if t == "" || t[0] < ' ' then None
    else if t[0] == '"' then Some(("", t[1..]))
    else
      var first := if t[0] == '\\' then ReadEscape(t[1..]) else Some(([t[0]], t[1..]));
      if first.None? then None
      else
        var others := ReadString(first.value.1);
        if others.None? then None else Some((first.value.0 + others.value.0, others.value.1))
  }

  predicate IsSpace(c: char) {
    c in {' ', '\t', '\n', '\r'}
  }

  function SkipSpace(t: string): (r: string)
    ensures |r| <= |t|
  {
    if t != "" && IsSpace(t[0]) then SkipSpace(t[1..]) else t
  }

  predicate InWord(c: char) {
    !IsSpace(c) && c !in {'"', '{', '}', '[', ']', ':', ','}
  }

  function ReadWord(t: string): (r: (string, string))
    ensures |r.0| + |r.1| == |t|
  {
    if t == "" || !InWord(t[0]) then ("", t)
    else
      var (word, rest) := ReadWord(t[1..]);
      ([t[0]] + word, rest)
  }

  function ReadValue(t: string): (r: Option<(Value, string)>)
    ensures r.Some? ==> |r.value.1| < |t|
    decreases |t|, 1
  {
    var t := SkipSpace(t);
    if t == "" then None
    else if t[0] == '"' then
      var s := ReadString(t[1..]);
      if s.None? then None else Some((Text(s.value.0), s.value.1))
    else if t[0] == '{' then
      var inside := SkipSpace(t[1..]);
      if inside != "" && inside[0] == '}' then Some((Object([]), inside[1..]))
      else
        var members := ReadMembers(inside);
        if members.None? then None else Some((Object(members.value.0), members.value.1))
    else if t[0] == '[' then
      var inside := SkipSpace(t[1..]);
      if inside != "" && inside[0] == ']' then Some((Array([]), inside[1..]))
      else
        var elements := ReadElements(inside);
        if elements.None? then None else Some((Array(elements.value.0), elements.value.1))
    else
      var (word, rest) := ReadWord(t);
      if word == "" then None else Some((Bare(word), rest))
  }

  // The members of an object up to and with its closing brace.
  function ReadMembers(t: string): (r: Option<(seq<(string, Value)>, string)>)
    ensures r.Some? ==> |r.value.1| < |t| && |r.value.0| > 0
    decreases |t|, 2
  {
    var t := SkipSpace(t);
    if t == "" || t[0] != '"' then None
    else
      var key := ReadString(t[1..]);
      if key.None? then None
      else
        var colon := SkipSpace(key.value.1);
        if colon == "" || colon[0] != ':' then None
        else
          var value := ReadValue(colon[1..]);
          if value.None? then None
          else
            var end, member := SkipSpace(value.value.1), (key.value.0, value.value.0);
            if end == "" then None
            else if end[0] == '}' then Some(([member], end[1..]))
            else if end[0] == ',' then
              var others := ReadMembers(end[1..]);
              if others.None? then None else Some(([member] + others.value.0, others.value.1))
            else None
  }

  function ReadElements(t: string): (r: Option<(seq<Value>, string)>)
    ensures r.Some? ==> |r.value.1| < |t|
    decreases |t|, 2
  {
    var element := ReadValue(t);
    if element.None? then None
    else
      var end := SkipSpace(element.value.1);
      if end == "" then None
      else if end[0] == ']' then Some(([element.value.0], end[1..]))
      else if end[0] == ',' then
        var others := ReadElements(end[1..]);
        if others.None? then None else Some(([element.value.0] + others.value.0, others.value.1))
      else None
  }

  function Parse(t: string): Option<Value> {
    var value := ReadValue(t);
    if value.Some? && SkipSpace(value.value.1) == "" then Some(value.value.0) else None
  }

  // ---- Text between quotation marks ---------------------------------------

  lemma {:induction false} CleanTextReadsBack(s: string, rest: string)
    requires Clean(s)
    ensures ReadString(s + "\"" + rest) == Some((s, rest))
  {
    var t := s + "\"" + rest;
    if s == "" {
      assert t[1..] == rest;
    } else {
      CleanTextReadsBack(s[1..], rest);
      assert t[1..] == s[1..] + "\"" + rest;
      assert [s[0]] + s[1..] == s;
    }
  }

  // Without a quotation mark nothing reaches past the end of s.
  lemma StaysInside(s: string, rest: string, p: nat, n: nat)
    requires p < |s| && p + 1 + n <= |s + "\"" + rest|
    requires s[p] != '"' && '"' !in s[..p] && '"' !in (s + "\"" + rest)[p + 1..][..n]
    ensures p + 1 + n <= |s| && '"' !in s[..p + 1 + n]
  {
    var t := (s + "\"" + rest)[p + 1..];
    assert t[|s| - p - 1] == '"';
    assert forall i :: 0 <= i < n ==> t[..n][i] == t[i] && t[i] != '"';
    assert s[..p + 1 + n] == s[..p] + [s[p]] + t[..n];
  }

  // An escape inside s that does not stand for a quotation mark ends inside s.
  lemma EscapeEndsInside(s: string, rest: string, p: nat) returns (q: nat)
    requires p < |s| && s[p] == '\\' && '"' !in s[..p]
    requires var e := ReadEscape((s + "\"" + rest)[p + 1..]); e.Some? && e.value.0[0] != '"'
    ensures var (text, after) := ReadEscape((s + "\"" + rest)[p + 1..]).value;
            p + |text| < q <= |s| && after == (s + "\"" + rest)[q..] && '"' !in s[..q]
  {
    var t := (s + "\"" + rest)[p + 1..];
    var n := |t| - |ReadEscape(t).value.1|;
    q := p + 1 + n;
    StaysInside(s, rest, p, n);
    assert t[n..] == (s + "\"" + rest)[q..];
  }

  // Reading a string goes on at place p, where the text read so far is `lag`
  // characters short of what was passed, and ends with all of s.
  ghost predicate ReadsBack(s: string, rest: string, p: nat, lag: nat) {
    && lag <= p <= |s| && '"' !in s[..p]
    && var r := ReadString((s + "\"" + rest)[p..]);
       r.Some? && r.value.0 == s[p - lag..]
  }

  // An escape makes the text lag for good. It cannot stand for a quotation
  // mark, since that would have been read before the first one of s.
  lemma PassEscape(s: string, rest: string, p: nat, lag: nat) returns (q: nat, newLag: nat)
    requires ReadsBack(s, rest, p, lag) && p < |s| && s[p] == '\\'
    ensures p < q && 0 < newLag && ReadsBack(s, rest, q, newLag)
  {
    var t := (s + "\"" + rest)[p..];
    assert t[0] == s[p] && t[1..] == (s + "\"" + rest)[p + 1..];
    var text := ReadEscape(t[1..]).value.0;
    assert text[0] == s[p - lag];
    q := EscapeEndsInside(s, rest, p);
    newLag := lag + (q - p - |text|);
    assert s[p - lag..][|text|..] == s[q - newLag..];
  }

  lemma PassLiteral(s: string, rest: string, p: nat, lag: nat)
    requires ReadsBack(s, rest, p, lag) && p < |s| && s[p] != '\\'
    ensures !NeedsEscape(s[p]) && ReadsBack(s, rest, p + 1, lag)
  {
    var t := (s + "\"" + rest)[p..];
    assert t[0] == s[p] && t[1..] == (s + "\"" + rest)[p + 1..];
    assert s[..p + 1] == s[..p] + [s[p]];
    assert s[p - lag..][1..] == s[p + 1 - lag..];
  }

  lemma {:induction false} OnlyCleanTextReadsBack(s: string, rest: string, p: nat, lag: nat)
    requires ReadsBack(s, rest, p, lag)
    ensures lag == 0 && Clean(s[p..])
    decreases |s| - p
  {
    if p < |s| {
      if s[p] == '\\' {
        var q, newLag := PassEscape(s, rest, p, lag);
        OnlyCleanTextReadsBack(s, rest, q, newLag);
      } else {
        PassLiteral(s, rest, p, lag);
        OnlyCleanTextReadsBack(s, rest, p + 1, lag);
        assert s[p..] == [s[p]] + s[p + 1..];
      }
    } else {
      assert (s + "\"" + rest)[p..][0] == '"';
    }
  }

  // Text put between quotation marks as it is reads back exactly when it is clean.
  lemma QuotedText(s: string, rest: string)
    ensures var r := ReadString(s + "\"" + rest);
            && (r.Some? && r.value.0 == s <==> Clean(s))
            && (Clean(s) ==> r == Some((s, rest)))
  {
    var t := s + "\"" + rest;
    assert t[0..] == t;
    if Clean(s) {
      CleanTextReadsBack(s, rest);
    } else if ReadString(t).Some? && ReadString(t).value.0 == s {
      assert s[0..] == s;
      OnlyCleanTextReadsBack(s, rest, 0, 0);
    }
  }

  // The two-character escapes of section 7, and no other.
  lemma EscapesExactly(c: char, rest: string)
    requires c != 'u'
    ensures ReadEscape([c] + rest) ==
            if c == '"' || c == '\\' || c == '/' then Some(([c], rest))
            else if c == 'b' then Some(([8 as char], rest))
            else if c == 't' then Some(([9 as char], rest))
            else if c == 'n' then Some(([10 as char], rest))
            else if c == 'f' then Some(([12 as char], rest))
            else if c == 'r' then Some(([13 as char], rest))
            else None
  {
    assert ([c] + rest)[1..] == rest;
  }

  // Its example of a surrogate pair, after \u: the clef U+1D11E in UTF-8.
  lemma SurrogatePair(rest: string)
    ensures ReadUnicode("D834\\uDD1E" + rest) ==
            Some(([0xF0 as char, 0x9D as char, 0x84 as char, 0x9E as char], rest))
  {
    var pair := "D834\\uDD1E" + rest;
    assert pair[6..] == "DD1E" + rest && pair[10..] == rest;
    assert ReadUnit(pair) == Some(0xD834) && ReadUnit("DD1E" + rest) == Some(0xDD1E);
  }
}
