// The document of a docker registry secret
// (pkg/kube/controllers/quarkssecret/generator.go): one format string, into
// which the four fields go without any escaping.
module DockerConfig {
  import opened Types
  import opened Json
  import Base64

  // What the auth entry is made from.
  function Credentials(username: string, password: string): string {
    username + ":" + password
  }

  function Auth(username: string, password: string): string {
    Base64.Encode(Base64.AsText(Credentials(username, password)))
  }

  function Print(registry: string, username: string, password: string, email: string): string {
    "{\"auths\":{\"" + registry + "\":{\"username\":\"" + username + "\",\"password\":\"" + password
    + "\",\"email\":\"" + email + "\",\"auth\":\"" + Auth(username, password) + "\"}}}"
  }

  // The value that the document is meant to denote.
  function Document(registry: string, username: string, password: string, email: string): Value {
    Object([("auths", Object([(registry, Entry(username, password, email))]))])
  }

  function Entry(username: string, password: string, email: string): Value {
    Object([("username", Text(username)), ("password", Text(password)), ("email", Text(email)),
            ("auth", Text(Auth(username, password)))])
  }

  // A member "key":"value" and what follows it.
  function TextMember(key: string, value: string, rest: string): string {
    "\"" + (key + ("\":\"" + (value + ("\"" + rest))))
  }

  // A member "key":{ with an object and what follows it.
  function ObjectMember(key: string, inside: string): string {
    "\"" + (key + ("\":{" + inside))
  }

  // A member reads back as its key and the value after the colon, unless the
  // key is not clean.
  lemma ReadMember(t: string, key: string, colon: string)
    requires t != "" && t[0] == '"' && t[1..] == key + "\"" + colon && colon != "" && colon[0] == ':'
    ensures var r, value := ReadMembers(t), ReadValue(colon[1..]);
            && (!Clean(key) && r.Some? ==> r.value.0[0].0 != key)
            && (Clean(key) && value.None? ==> r.None?)
            && (Clean(key) && value.Some? && r.Some? ==> r.value.0[0] == (key, value.value.0))
            && (Clean(key) && value.Some? && value.value.1 != "" ==>
                  var (v, rest) := value.value;
                  && (rest[0] == '}' ==> r == Some(([(key, v)], rest[1..])))
                  && (rest[0] == ',' ==>
                        var others := ReadMembers(rest[1..]);
                        r == if others.None? then None else Some(([(key, v)] + others.value.0, others.value.1))))
  {
    QuotedText(key, colon);
  }

  // A text member reads back exactly when its value is clean.
  lemma ReadTextMember(key: string, value: string, rest: string)
    requires Clean(key) && rest != "" && rest[0] in {',', '}'}
    ensures var r := ReadMembers(TextMember(key, value, rest));
            && (!Clean(value) && r.Some? ==> r.value.0[0] != (key, Text(value)))
            && (Clean(value) ==>
                  if rest[0] == '}' then r == Some(([(key, Text(value))], rest[1..]))
                  else var others := ReadMembers(rest[1..]);
                       r == if others.None? then None else Some(([(key, Text(value))] + others.value.0, others.value.1)))
  {
    var quoted := "\"" + (value + ("\"" + rest));
    assert TextMember(key, value, rest)[1..] == key + "\"" + (":" + quoted);
    assert (":" + quoted)[1..] == quoted;
    ReadMember(TextMember(key, value, rest), key, ":" + quoted);
    assert quoted[1..] == value + "\"" + rest;
    QuotedText(value, rest);
  }

  lemma ReadObjectMember(key: string, inside: string)
    requires inside != "" && inside[0] == '"'
    ensures var r, members := ReadMembers(ObjectMember(key, inside)), ReadMembers(inside);
            && (!Clean(key) && r.Some? ==> r.value.0[0].0 != key)
            && (Clean(key) && members.None? ==> r.None?)
            && (Clean(key) && members.Some? && r.Some? ==> r.value.0[0] == (key, Object(members.value.0)))
            && (Clean(key) && members.Some? && members.value.1 != "" && members.value.1[0] == '}' ==>
                  r == Some(([(key, Object(members.value.0))], members.value.1[1..])))
  {
    assert ObjectMember(key, inside)[1..] == key + "\"" + (":{" + inside);
    assert (":{" + inside)[1..] == "{" + inside;
    ReadObject(inside);
    ReadMember(ObjectMember(key, inside), key, ":{" + inside);
  }

  lemma ReadObject(inside: string)
    requires inside != "" && inside[0] == '"'
    ensures var members := ReadMembers(inside);
            ReadValue("{" + inside) ==
            if members.None? then None else Some((Object(members.value.0), members.value.1))
  {
    assert ("{" + inside)[1..] == inside;
  }

  // ---- Members with text values -----------------------------------------------

  type Field = (string, string)

  // The members of an object and its closing brace.
  function MembersText(fields: seq<Field>, rest: string): (t: string)
    requires fields != []
    ensures t != "" && t[0] == '"'
  {
    TextMember(fields[0].0, fields[0].1,
               if |fields| == 1 then "}" + rest else "," + MembersText(fields[1..], rest))
  }

  function Texts(fields: seq<Field>): seq<(string, Value)> {
    seq(|fields|, i requires 0 <= i < |fields| => (fields[i].0, Text(fields[i].1)))
  }

  predicate CleanKeys(fields: seq<Field>) {
    forall i :: 0 <= i < |fields| ==> Clean(fields[i].0)
  }

  predicate CleanValues(fields: seq<Field>) {
    forall i :: 0 <= i < |fields| ==> Clean(fields[i].1)
  }

  // What the members of an object read as.
  ghost predicate ReadAs(r: Option<(seq<(string, Value)>, string)>, fields: seq<Field>, rest: string) {
    if CleanValues(fields) then r == Some((Texts(fields), rest)) else r.None? || r.value.0 != Texts(fields)
  }

  lemma OneMoreMember(r: Option<(seq<(string, Value)>, string)>, others: Option<(seq<(string, Value)>, string)>,
                      fields: seq<Field>, rest: string)
    requires |fields| > 1 && ReadAs(others, fields[1..], rest)
    requires var (key, value) := fields[0];
             && (!Clean(value) && r.Some? ==> |r.value.0| > 0 && r.value.0[0] != (key, Text(value)))
             && (Clean(value) ==>
                   r == if others.None? then None else Some(([(key, Text(value))] + others.value.0, others.value.1)))
    ensures ReadAs(r, fields, rest)
  {
    var (key, value) := fields[0];
    assert CleanValues(fields) <==> Clean(value) && CleanValues(fields[1..]);
    assert Texts(fields) == [(key, Text(value))] + Texts(fields[1..]);
    assert Texts(fields)[1..] == Texts(fields[1..]);
    if others.Some? {
      assert ([(key, Text(value))] + others.value.0)[1..] == others.value.0;
    }
  }

  lemma {:induction false} ReadTextMembers(fields: seq<Field>, rest: string)
    requires fields != [] && CleanKeys(fields)
    ensures ReadAs(ReadMembers(MembersText(fields, rest)), fields, rest)
  {
    var (key, value) := fields[0];
    if |fields| == 1 {
      assert ("}" + rest)[1..] == rest;
      assert Texts(fields) == [(key, Text(value))];
      ReadTextMember(key, value, "}" + rest);
    } else {
      var others := MembersText(fields[1..], rest);
      assert ("," + others)[1..] == others;
      ReadTextMember(key, value, "," + others);
      ReadTextMembers(fields[1..], rest);
      OneMoreMember(ReadMembers(MembersText(fields, rest)), ReadMembers(others), fields, rest);
    }
  }

  lemma AuthIsClean(username: string, password: string)
    ensures Clean(Auth(username, password))
  {
    var auth := Auth(username, password);
    forall i | 0 <= i < |auth| ensures !NeedsEscape(auth[i]) {
      Base64.EncodedCharacters(Base64.AsText(Credentials(username, password)), i);
    }
  }

  function EntryFields(username: string, password: string, email: string, auth: string): seq<Field> {
    [("username", username), ("password", password), ("email", email), ("auth", auth)]
  }

  lemma CleanExactly(a: string, b: string, c: string, d: string)
    ensures Clean(a) && Clean(b) && Clean(c) && Clean(d) <==>
            forall x :: x in a + b + c + d ==> x != '"' && x != '\\' && x >= ' '
  {
    if forall x :: x in a + b + c + d ==> x != '"' && x != '\\' && x >= ' ' {
      assert (forall i :: 0 <= i < |a| ==> a[i] in a + b + c + d) && (forall i :: 0 <= i < |b| ==> b[i] in a + b + c + d);
      assert (forall i :: 0 <= i < |c| ==> c[i] in a + b + c + d) && (forall i :: 0 <= i < |d| ==> d[i] in a + b + c + d);
    }
  }

  lemma ParsesExactlyWhenClean(registry: string, username: string, password: string, email: string)
    ensures Parse(Print(registry, username, password, email)) == Some(Document(registry, username, password, email))
            <==> Clean(registry) && Clean(username) && Clean(password) && Clean(email)
  {
    var auth := Auth(username, password);
    AuthIsClean(username, password);
    var fields := EntryFields(username, password, email, auth);
    ReadTextMembers(fields, "}}");
    assert Object(Texts(fields)) == Entry(username, password, email);
    var entry := MembersText(fields, "}}");
    ReadNested(registry, entry);
    PrintIsNested(registry, username, password, email);
    assert CleanValues(fields) <==> Clean(username) && Clean(password) && Clean(email) by {
      assert fields[0].1 == username && fields[1].1 == password && fields[2].1 == email && fields[3].1 == auth;
    }
  }

  // Parsing the document gives the four fields back exactly when none of them
  // has a character that a JSON string has to escape.
  lemma RoundTripExactlyWhenClean(registry: string, username: string, password: string, email: string)
    ensures Parse(Print(registry, username, password, email)) ==
            Some(Object([("auths", Object([(registry, Object([
              ("username", Text(username)), ("password", Text(password)), ("email", Text(email)),
              ("auth", Text(Base64.Encode(Base64.AsText(username + ":" + password))))]))]))]))
            <==> forall c :: c in registry + username + password + email ==> c != '"' && c != '\\' && c >= ' '
  {
    ParsesExactlyWhenClean(registry, username, password, email);
    CleanExactly(registry, username, password, email);
  }

  // The two enclosing objects, from the inner to the outer one.
  lemma ReadNested(registry: string, entry: string)
    requires entry != "" && entry[0] == '"'
    ensures var members := ReadMembers(entry);
            var r := Parse("{" + ObjectMember("auths", ObjectMember(registry, entry)));
            && (Clean(registry) && members.Some? && members.value.1 == "}}" ==>
                  r == Some(Object([("auths", Object([(registry, Object(members.value.0))]))])))
            && (forall value :: r == Some(Object([("auths", Object([(registry, value)]))])) ==>
                  Clean(registry) && members.Some? && value == Object(members.value.0))
  {
    ReadObjectMember(registry, entry);
    ReadDocument(ObjectMember(registry, entry));
    var r := Parse("{" + ObjectMember("auths", ObjectMember(registry, entry)));
    forall value | r == Some(Object([("auths", Object([(registry, value)]))]))
      ensures Clean(registry) && ReadMembers(entry).Some? && value == Object(ReadMembers(entry).value.0)
    {
      assert r.value.members[0].1.members[0] == (registry, value);
    }
  }

  lemma ReadDocument(inside: string)
    requires inside != "" && inside[0] == '"'
    ensures var members, r := ReadMembers(inside), Parse("{" + ObjectMember("auths", inside));
            && (members.None? ==> r.None?)
            && (members.Some? && r.Some? ==> r.value.Object? && r.value.members != []
                                             && r.value.members[0] == ("auths", Object(members.value.0)))
            && (members.Some? && members.value.1 == "}" ==> r == Some(Object([("auths", Object(members.value.0))])))
  {
    ReadObjectMember("auths", inside);
    ParseObject(ObjectMember("auths", inside));
  }

  lemma ParseObject(inside: string)
    requires inside != "" && inside[0] == '"'
    ensures var members, r := ReadMembers(inside), Parse("{" + inside);
            && (members.Some? && members.value.1 == "" ==> r == Some(Object(members.value.0)))
            && (r.Some? ==> members.Some? && r.value == Object(members.value.0))
  {
    ReadObject(inside);
  }

  // ---- The format string, member by member ----------------------------------------

  lemma Assoc(a: string, b: string, c: string)
    ensures a + b + c == a + (b + c)
  {
  }

  // From the closing mark of one value to the opening mark of the next.
  lemma NextMember(gap: string, key: string, value: string, rest: string)
    requires gap == "\",\"" + key + "\":\""
    ensures "\"" + ("," + TextMember(key, value, rest)) == gap + (value + ("\"" + rest))
  {
    var x := value + ("\"" + rest);
    Assoc("\",\"" + key, "\":\"", x);
    Assoc("\",\"", key, "\":\"" + x);
    Assoc("\",", "\"", key + ("\":\"" + x));
    Assoc("\"", ",", "\"" + (key + ("\":\"" + x)));
    assert "\",\"" == "\"" + "," + "\"";
  }

  lemma FirstMember(value: string, rest: string)
    ensures TextMember("username", value, rest) == "\"username\":\"" + (value + ("\"" + rest))
  {
    var x := value + ("\"" + rest);
    Assoc("\"" + "username", "\":\"", x);
    Assoc("\"", "username", "\":\"" + x);
    assert "\"" + "username" + "\":\"" == "\"username\":\"";
  }

  lemma MembersOfEntry(username: string, password: string, email: string, auth: string)
    ensures MembersText(EntryFields(username, password, email, auth), "}}") ==
            TextMember("username", username, "," + TextMember("password", password, ","
              + TextMember("email", email, "," + TextMember("auth", auth, "}" + "}}"))))
  {
    var fields := EntryFields(username, password, email, auth);
    assert fields[2..][1..] == fields[3..] && fields[1..][1..] == fields[2..];
    assert MembersText(fields[3..], "}}") == TextMember("auth", auth, "}" + "}}");
    assert MembersText(fields[2..], "}}") == TextMember("email", email, "," + MembersText(fields[3..], "}}"));
  }

  lemma EntryIsNested(username: string, password: string, email: string, auth: string)
    ensures MembersText(EntryFields(username, password, email, auth), "}}") ==
            "\"username\":\"" + (username + ("\",\"password\":\"" + (password + ("\",\"email\":\"" + (email
            + ("\",\"auth\":\"" + (auth + "\"}}}")))))))
  {
    MembersOfEntry(username, password, email, auth);
    var end := "}" + "}}";
    assert "\"" + end == "\"}}}";
    var authText := TextMember("auth", auth, end);
    var emailText := TextMember("email", email, "," + authText);
    assert "\",\"" + "auth" + "\":\"" == "\",\"auth\":\"";
    NextMember("\",\"auth\":\"", "auth", auth, end);
    assert "\",\"" + "email" + "\":\"" == "\",\"email\":\"";
    NextMember("\",\"email\":\"", "email", email, "," + authText);
    assert "\",\"" + "password" + "\":\"" == "\",\"password\":\"";
    NextMember("\",\"password\":\"", "password", password, "," + emailText);
    FirstMember(username, "," + TextMember("password", password, "," + emailText));
  }

  lemma PrintIsNested(registry: string, username: string, password: string, email: string)
    ensures var fields := EntryFields(username, password, email, Auth(username, password));
            Print(registry, username, password, email) ==
            "{" + ObjectMember("auths", ObjectMember(registry, MembersText(fields, "}}")))
  {
    var auth := Auth(username, password);
    var a, b, c, d, e := "{\"auths\":{\"", "\":{\"username\":\"", "\",\"password\":\"", "\",\"email\":\"", "\",\"auth\":\"";
    var end := "\"}}}";
    Assoc(a + registry + b + username + c + password + d + email + e, auth, end);
    Assoc(a + registry + b + username + c + password + d + email, e, auth + end);
    Assoc(a + registry + b + username + c + password + d, email, e + (auth + end));
    Assoc(a + registry + b + username + c + password, d, email + (e + (auth + end)));
    Assoc(a + registry + b + username + c, password, d + (email + (e + (auth + end))));
    Assoc(a + registry + b + username, c, password + (d + (email + (e + (auth + end)))));
    Assoc(a + registry + b, username, c + (password + (d + (email + (e + (auth + end))))));
    var rest := username + (c + (password + (d + (email + (e + (auth + end))))));
    Assoc(a + registry, b, rest);
    Assoc(a, registry, b + rest);
    EntryIsNested(username, password, email, auth);
    OuterIsNested(registry, rest);
  }

  lemma OuterIsNested(registry: string, rest: string)
    ensures "{\"auths\":{\"" + (registry + ("\":{\"username\":\"" + rest)) ==
            "{" + ObjectMember("auths", ObjectMember(registry, "\"username\":\"" + rest))
  {
    assert "\":{\"username\":\"" == "\":{" + "\"username\":\"";
    Assoc("\":{", "\"username\":\"", rest);
    var x := registry + ("\":{" + ("\"username\":\"" + rest));
    assert "{\"auths\":{\"" == "{" + ("\"" + ("auths" + ("\":{" + "\"")));
    assert "{" + ("\"" + ("auths" + ("\":{" + "\""))) + x == "{" + ("\"" + ("auths" + ("\":{" + ("\"" + x))));
  }

  // ---- The credentials --------------------------------------------------------

  // What comes before and after the first colon.
  function SplitAtColon(s: string): Option<(string, string)> {
    if s == "" then None
    else if s[0] == ':' then Some(("", s[1..]))
    else
      var rest := SplitAtColon(s[1..]);
      if rest.None? then None else Some(([s[0]] + rest.value.0, rest.value.1))
  }

  lemma {:induction false} SplitStopsAtFirstColon(username: string, password: string)
    ensures SplitAtColon(Credentials(username, password)).Some?
    ensures ':' !in SplitAtColon(Credentials(username, password)).value.0
    ensures ':' !in username ==> SplitAtColon(Credentials(username, password)) == Some((username, password))
  {
    var s := Credentials(username, password);
    if username == "" || username[0] == ':' {
      assert username == "" ==> s[1..] == password;
    } else {
      SplitStopsAtFirstColon(username[1..], password);
      assert s[1..] == Credentials(username[1..], password);
      assert username == [username[0]] + username[1..];
    }
  }

  // The auth entry decodes to username:password. Splitting that gives the two
  // back exactly when the username has no colon.
  lemma AuthGivesCredentialsBack(username: string, password: string)
    requires Base64.IsText(username) && Base64.IsText(password)
    ensures Base64.Decode(Auth(username, password)) == Some(username + ":" + password)
    ensures SplitAtColon(username + ":" + password) == Some((username, password)) <==> ':' !in username
  {
    Base64.DecodeEncode(Credentials(username, password));
    SplitStopsAtFirstColon(username, password);
  }

  // No other pair with a colon-free username has the same credentials.
  lemma CredentialsAreUnique(username: string, password: string, otherUsername: string, otherPassword: string)
    requires ':' !in username && ':' !in otherUsername
    requires Credentials(username, password) == Credentials(otherUsername, otherPassword)
    ensures username == otherUsername && password == otherPassword
  {
    SplitStopsAtFirstColon(username, password);
    SplitStopsAtFirstColon(otherUsername, otherPassword);
  }
}
