/**
 * The text the session manager keeps under the `'user'` entry:
 * `JSON.stringify(user)` when a session is stored and `JSON.parse` when it is
 * restored. The user record is the `{ id, name, email }` object the
 * authentication endpoints return. `Stringify` writes it as JSON.stringify does
 * (members in that order, no whitespace, JSON.stringify's string escapes);
 * `Parse` reads back exactly the texts `Stringify` writes and fails (the
 * exception JSON.parse throws) on anything else.
 */
module UserJson {
  import opened Wrappers

  datatype UserRef = UserRef(id: string, name: string, email: string)

  const HEX_DIGITS := "0123456789abcdef"

  /** How JSON.stringify writes one character inside a string literal. */
  function EscapeChar(c: char): (r: string)
    ensures |r| > 0 && r[0] != '"'
  {
    if c == '"' then ['\\', '"']
    else if c == '\\' then ['\\', '\\']
    else if c as int == 8 then ['\\', 'b']
    else if c == '\t' then ['\\', 't']
    else if c == '\n' then ['\\', 'n']
    else if c as int == 12 then ['\\', 'f']
    else if c == '\r' then ['\\', 'r']
    else if c as int < 0x20 then ['\\', 'u', '0', '0', HEX_DIGITS[c as int / 16], HEX_DIGITS[c as int % 16]]
    else [c]
  }

  function Escape(s: string): string
  {
    if s == [] then [] else EscapeChar(s[0]) + Escape(s[1..])
  }

  function Quote(s: string): string
  {
    ['"'] + Escape(s) + ['"']
  }

  const ID_MEMBER := "{\"id\":"
  const NAME_MEMBER := ",\"name\":"
  const EMAIL_MEMBER := ",\"email\":"

  /** JSON.stringify of a user record. */
  function Stringify(u: UserRef): (r: string)
    ensures |r| > 0
  {
    ID_MEMBER + (Quote(u.id) + (NAME_MEMBER + (Quote(u.name) + (EMAIL_MEMBER + (Quote(u.email) + "}")))))
  }

  function HexValue(c: char): Option<nat>
  {
    if '0' <= c <= '9' then Some(c as int - '0' as int)
    else if 'a' <= c <= 'f' then Some(c as int - 'a' as int + 10)
    else None
  }

  /** The character an escape sequence or a plain character at the head of `s` stands for. */
  function DecodeUnit(s: string): Option<char>
    requires |s| > 0
  {
    if s[0] != '\\' then
      Some(s[0])
    else if |s| < 2 then
      None
    else if s[1] == '"' || s[1] == '\\' then Some(s[1])
    else if s[1] == 'b' then Some(8 as char)
    else if s[1] == 't' then Some('\t')
    else if s[1] == 'n' then Some('\n')
    else if s[1] == 'f' then Some(12 as char)
    else if s[1] == 'r' then Some('\r')
    else if s[1] == 'u' && |s| >= 6 && s[2] == '0' && s[3] == '0' then
      var hi :- HexValue(s[4]);
      var lo :- HexValue(s[5]);
      if hi < 16 && lo < 16 then Some((16 * hi + lo) as char) else None
    else
      None
  }

  /**
   * Reads one character of a string literal's body: the decoded character and
   * the text after it. Only the canonical spelling is accepted, so what is read
   * is exactly what EscapeChar writes.
   */
  function ReadUnit(s: string): (r: Option<(char, string)>)
    requires |s| > 0
    ensures r.Some? ==> s == EscapeChar(r.value.0) + r.value.1
  {
    var c :- DecodeUnit(s);
    if EscapeChar(c) <= s then Some((c, s[|EscapeChar(c)|..])) else None
  }

  /** Reads a string literal's body up to its closing quote: the contents and the text after the quote. */
  function ReadBody(s: string): Option<(string, string)>
    decreases |s|
  {
    if s == [] then None
    else if s[0] == '"' then Some(([], s[1..]))
    else
      var (c, rest) :- ReadUnit(s);
      var (tail, after) :- ReadBody(rest);
      Some(([c] + tail, after))
  }

  function ReadString(s: string): Option<(string, string)>
  {
    if |s| > 0 && s[0] == '"' then ReadBody(s[1..]) else None
  }

  function Expect(literal: string, s: string): Option<string>
  {
    if literal <= s then Some(s[|literal|..]) else None
  }

  /** One member of the object: its expected `,"key":` text, then a string literal. */
  function Member(literal: string, s: string): Option<(string, string)>
  {
    var s' :- Expect(literal, s);
    ReadString(s')
  }

  /** JSON.parse of the persisted user text; None where JSON.parse would throw. */
  function Parse(s: string): Option<UserRef>
  {
    var (id, s2) :- Member(ID_MEMBER, s);
    var (name, s4) :- Member(NAME_MEMBER, s2);
    var (email, s6) :- Member(EMAIL_MEMBER, s4);
    if s6 == "}" then Some(UserRef(id, name, email)) else None
  }

  lemma DecodeEscapedChar(c: char, rest: string)
    ensures DecodeUnit(EscapeChar(c) + rest) == Some(c)
  {
    var s := EscapeChar(c) + rest;
    if c as int < 0x20 && !(c as int in {8, 9, 10, 12, 13}) {
      var n := c as int;
      assert s[4] == HEX_DIGITS[n / 16] && s[5] == HEX_DIGITS[n % 16];
      assert HexValue(s[4]) == Some(n / 16);
      assert HexValue(s[5]) == Some(n % 16);
    }
  }

  lemma ReadEscapedChar(c: char, rest: string)
    ensures ReadUnit(EscapeChar(c) + rest) == Some((c, rest))
  {
    DecodeEscapedChar(c, rest);
    var s := EscapeChar(c) + rest;
    assert EscapeChar(c) <= s;
    assert s[|EscapeChar(c)|..] == rest;
  }

  /** Reading one escaped character, then the rest of the body. */
  lemma ReadBodyStep(c: char, tail: string, x: string, rest: string)
    requires ReadBody(tail) == Some((x, rest))
    ensures ReadBody(EscapeChar(c) + tail) == Some(([c] + x, rest))
  {
    ReadEscapedChar(c, tail);
  }

  lemma {:induction false} ReadEscapedBody(x: string, rest: string)
    ensures ReadBody(Escape(x) + ['"'] + rest) == Some((x, rest))
  {
    if x == [] {
      assert Escape(x) + ['"'] + rest == ['"'] + rest;
    } else {
      var tail := Escape(x[1..]) + ['"'] + rest;
      assert Escape(x) + ['"'] + rest == EscapeChar(x[0]) + tail;
      ReadEscapedBody(x[1..], rest);
      ReadBodyStep(x[0], tail, x[1..], rest);
      assert [x[0]] + x[1..] == x;
    }
  }

  lemma {:induction false} BodyIsEscaped(s: string, x: string, rest: string)
    requires ReadBody(s) == Some((x, rest))
    ensures s == Escape(x) + ['"'] + rest
    decreases |s|
  {
    if s[0] == '"' {
      assert x == [];
    } else {
      var (c, r) := ReadUnit(s).value;
      var (tail, after) := ReadBody(r).value;
      BodyIsEscaped(r, tail, after);
      assert x == [c] + tail;
      assert x[1..] == tail;
    }
  }

  lemma ReadQuoted(x: string, rest: string)
    ensures ReadString(Quote(x) + rest) == Some((x, rest))
  {
    var s := Quote(x) + rest;
    assert s[1..] == Escape(x) + ['"'] + rest;
    ReadEscapedBody(x, rest);
  }

  lemma ExpectLiteral(literal: string, rest: string)
    ensures Expect(literal, literal + rest) == Some(rest)
  {
    assert literal <= literal + rest;
    assert (literal + rest)[|literal|..] == rest;
  }

  /** A member written as `literal` and a quoted value reads back as that value. */
  lemma ReadWrittenMember(literal: string, x: string, rest: string)
    ensures Member(literal, literal + (Quote(x) + rest)) == Some((x, rest))
  {
    ExpectLiteral(literal, Quote(x) + rest);
    ReadQuoted(x, rest);
  }

  /** The texts the three members and the closing brace are read from make up Stringify's text. */
  lemma Assemble(s: string, s1: string, s2: string, s3: string, s4: string, s5: string, u: UserRef)
    requires s == ID_MEMBER + s1 && s1 == Quote(u.id) + s2
    requires s2 == NAME_MEMBER + s3 && s3 == Quote(u.name) + s4
    requires s4 == EMAIL_MEMBER + s5 && s5 == Quote(u.email) + "}"
    ensures Stringify(u) == s
  {
  }

  /** Restoring the stored text gives back the user that was stored. */
  lemma ParseStringify(u: UserRef)
    ensures Parse(Stringify(u)) == Some(u)
  {
    var s5 := Quote(u.email) + "}";
    var s4 := EMAIL_MEMBER + s5;
    var s3 := Quote(u.name) + s4;
    var s2 := NAME_MEMBER + s3;
    var s1 := Quote(u.id) + s2;
    var s := ID_MEMBER + s1;
    Assemble(s, s1, s2, s3, s4, s5, u);
    ReadWrittenMember(ID_MEMBER, u.id, s2);
    ReadWrittenMember(NAME_MEMBER, u.name, s4);
    ReadWrittenMember(EMAIL_MEMBER, u.email, "}");
  }

  lemma QuoteThen(x: string, rest: string)
    ensures Quote(x) + rest == ['"'] + (Escape(x) + ['"'] + rest)
  {
  }

  lemma QuotedString(s: string, x: string, rest: string)
    requires ReadString(s) == Some((x, rest))
    ensures s == Quote(x) + rest
  {
    var body := s[1..];
    assert s == ['"'] + body;
    BodyIsEscaped(body, x, rest);
    QuoteThen(x, rest);
  }

  /** A member that reads as a value was written as `literal` and that value, quoted. */
  lemma MemberWasWritten(literal: string, s: string, x: string, rest: string)
    requires Member(literal, s) == Some((x, rest))
    ensures s == literal + (Quote(x) + rest)
  {
    var s' := Expect(literal, s).value;
    QuotedString(s', x, rest);
  }

  /** Every text that restores to a user is exactly the text Stringify writes for that user. */
  lemma StringifyParse(s: string, u: UserRef)
    requires Parse(s) == Some(u)
    ensures Stringify(u) == s
  {
    var (id, s2) := Member(ID_MEMBER, s).value;
    var (name, s4) := Member(NAME_MEMBER, s2).value;
    var (email, s6) := Member(EMAIL_MEMBER, s4).value;
    assert u == UserRef(id, name, email) && s6 == "}";
    MemberWasWritten(ID_MEMBER, s, id, s2);
    MemberWasWritten(NAME_MEMBER, s2, name, s4);
    MemberWasWritten(EMAIL_MEMBER, s4, email, s6);
    Assemble(s, Quote(id) + s2, s2, Quote(name) + s4, s4, Quote(email) + s6, u);
  }
}
