/** The JSON text the client stores for a user record (`JSON.stringify`) and the
    parse that reads it back (`JSON.parse`). The encoding is a fixed-shape subset
    of JSON: an object with the five user fields in a fixed order, each a string
    literal escaped as `JSON.stringify` escapes it. The string reader follows the
    JSON grammar for string literals: it decodes every escape the grammar allows
    and rejects any other escape and any raw control character. `Parse` is
    proved to be a left inverse of `Stringify`; every text it accepts is valid
    JSON denoting the value it returns, and every other text either is `null`
    or fails to parse, as a malformed text makes `JSON.parse` throw. */
module Json {
  import opened Base

  /** Characters that may not appear unescaped in a JSON string literal. */
  predicate IsControl(c: char) {
    c < ' '
  }

  /** The lower-case hexadecimal digit for `d`. */
  function HexDigit(d: int): char
    requires 0 <= d < 16
  {
    if d < 10 then ('0' as int + d) as char else ('a' as int + d - 10) as char
  }

  /** The value of a hexadecimal digit of either case. */
  function HexValue(c: char): (r: Option<int>)
    ensures r.Some? ==> 0 <= r.value < 16
  {
    if '0' <= c <= '9' then Some(c as int - '0' as int)
    else if 'a' <= c <= 'f' then Some(c as int - 'a' as int + 10)
    else if 'A' <= c <= 'F' then Some(c as int - 'A' as int + 10)
    else None
  }

  /** The code unit written by four hexadecimal digits. */
  function Hex4(s: string): (r: Option<int>)
    requires |s| == 4
    ensures r.Some? ==> 0 <= r.value < 0x10000
  {
    match (HexValue(s[0]), HexValue(s[1]), HexValue(s[2]), HexValue(s[3]))
    case (Some(a), Some(b), Some(c), Some(d)) => Some(((a * 16 + b) * 16 + c) * 16 + d)
    case _ => None
  }

  /** What `JSON.stringify` writes for one character inside a string literal:
      a two-character escape for quote, backslash, backspace, form feed, line
      feed, carriage return and tab, `\u00xx` for the other control
      characters, and the character itself otherwise. */
  function EscapeChar(c: char): string {
    if c == '"' then "\\\""
    else if c == '\\' then "\\\\"
    else if c as int == 0x08 then "\\b"
    else if c as int == 0x0C then "\\f"
    else if c == '\n' then "\\n"
    else if c == '\r' then "\\r"
    else if c == '\t' then "\\t"
    else if IsControl(c) then "\\u00" + [HexDigit(c as int / 16), HexDigit(c as int % 16)]
    else [c]
  }

  /** The body of the string literal for `s`, without its quotes. */
  function Escape(s: string): string {
    if s == [] then [] else EscapeChar(s[0]) + Escape(s[1..])
  }

  /** Reads one escape after its backslash: the character it denotes and the
      text after it, or None when the escape is not one JSON allows. A `\u`
      escape of a lone surrogate code unit has no character here. */
  function Unescape(t: string): (r: Option<(char, string)>)
    ensures r.Some? ==> |r.value.1| < |t|
  {
    if t == [] then None
    else if t[0] == '"' || t[0] == '\\' || t[0] == '/' then Some((t[0], t[1..]))
    else if t[0] == 'b' then Some((0x08 as char, t[1..]))
    else if t[0] == 'f' then Some((0x0C as char, t[1..]))
    else if t[0] == 'n' then Some(('\n', t[1..]))
    else if t[0] == 'r' then Some(('\r', t[1..]))
    else if t[0] == 't' then Some(('\t', t[1..]))
    else if t[0] == 'u' && |t| >= 5 then
      match Hex4(t[1..5])
      case None => None
      case Some(n) => if 0xD800 <= n < 0xE000 then None else Some((n as char, t[5..]))
    else None
  }

  /** Reads the body of a string literal up to its closing quote, undoing the
      escapes; returns the string read and the text after the closing quote,
      or None when the text ends first, holds a raw control character or an
      escape JSON does not allow. */
  function ReadString(s: string): Option<(string, string)>
    decreases |s|
  {
    if s == [] then None
    else if s[0] == '"' then Some(([], s[1..]))
    else if IsControl(s[0]) then None
    else if s[0] == '\\' then
      match Unescape(s[1..])
      case None => None
      case Some((c, after)) =>
        match ReadString(after)
        case None => None
        case Some((body, rest)) => Some(([c] + body, rest))
    else match ReadString(s[1..])
      case None => None
      case Some((body, rest)) => Some(([s[0]] + body, rest))
  }

  /** Consumes the literal text `lit` at the start of `s`. */
  function Expect(lit: string, s: string): Option<string> {
    if |lit| <= |s| && s[..|lit|] == lit then Some(s[|lit|..]) else None
  }

  /** A member `<prefix>"<value>"`, where the prefix ends in the opening quote. */
  function Member(prefix: string, value: string): string {
    prefix + Escape(value) + "\""
  }

  function ReadMember(prefix: string, s: string): Option<(string, string)> {
    match Expect(prefix, s)
    case None => None
    case Some(rest) => ReadString(rest)
  }

  const IdPrefix := "{\"_id\":\""
  const FirstNamePrefix := ",\"firstName\":\""
  const LastNamePrefix := ",\"lastName\":\""
  const EmailPrefix := ",\"email\":\""
  const RolePrefix := ",\"role\":\""

  function Serialize(u: User): string {
    Member(IdPrefix, u.id) + (Member(FirstNamePrefix, u.firstName) + (Member(LastNamePrefix, u.lastName)
      + (Member(EmailPrefix, u.email) + (Member(RolePrefix, u.role) + "}"))))
  }

  function ParseUser(s: string): Option<User> {
    match ReadMember(IdPrefix, s)
    case None => None
    case Some((id, s1)) =>
      match ReadMember(FirstNamePrefix, s1)
      case None => None
      case Some((firstName, s2)) =>
        match ReadMember(LastNamePrefix, s2)
        case None => None
        case Some((lastName, s3)) =>
          match ReadMember(EmailPrefix, s3)
          case None => None
          case Some((email, s4)) =>
            match ReadMember(RolePrefix, s4)
            case None => None
            case Some((role, s5)) =>
              if s5 == "}" then Some(User(id, firstName, lastName, email, role)) else None
  }

  /** `JSON.stringify` of a user record or null. */
  function Stringify(u: Option<User>): string {
    match u
    case None => "null"
    case Some(user) => Serialize(user)
  }

  /** `JSON.parse` of a stored text: `null` parses to null, a user object to the
      user, and anything else fails as a syntax error. */
  function Parse(s: string): Outcome<Option<User>> {
    if s == "null" then Success(None)
    else match ParseUser(s)
      case Some(u) => Success(Some(u))
      case None => Failure("SyntaxError: Unexpected token in JSON")
  }

  lemma HexDigitValue(d: int)
    requires 0 <= d < 16
    ensures HexValue(HexDigit(d)) == Some(d)
  {
  }

  /** Reading the escape of one character gives back that character. */
  lemma ReadEscapedChar(c: char, tail: string)
    ensures ReadString(EscapeChar(c) + tail)
         == match ReadString(tail)
            case None => None
            case Some((body, rest)) => Some(([c] + body, rest))
  {
    var e := EscapeChar(c);
    var s := e + tail;
    if |e| == 1 {
      assert s[0] == c && s[1..] == tail;
    } else if |e| == 2 {
      assert s[0] == '\\' && s[1..] == [e[1]] + tail;
      assert s[1..][1..] == tail;
    } else {
      var hi, lo := c as int / 16, c as int % 16;
      HexDigitValue(hi);
      HexDigitValue(lo);
      var t := s[1..];
      assert t == "u00" + [HexDigit(hi), HexDigit(lo)] + tail;
      assert t[1..5] == "00" + [HexDigit(hi), HexDigit(lo)];
      assert Hex4(t[1..5]) == Some(c as int);
      assert t[5..] == tail;
    }
  }

  lemma {:induction false} ReadEscaped(v: string, rest: string)
    ensures ReadString(Escape(v) + "\"" + rest) == Some((v, rest))
  {
    if v == [] {
      assert Escape(v) + "\"" + rest == "\"" + rest;
    } else {
      ReadEscaped(v[1..], rest);
      var tail := Escape(v[1..]) + "\"" + rest;
      assert Escape(v) + "\"" + rest == EscapeChar(v[0]) + tail;
      ReadEscapedChar(v[0], tail);
      assert [v[0]] + v[1..] == v;
    }
  }

  /** The reader keeps to the grammar of JSON string literals: an escape the
      grammar does not have and a raw control character are rejected, and the
      named and `\u` escapes decode. */
  lemma ReadStringExamples()
    ensures ReadString("\\q\"") == None
    ensures ReadString("\n\"") == None
    ensures ReadString("\\n\"") == Some(("\n", ""))
    ensures ReadString("\\u0041\"") == Some(("A", ""))
    ensures ReadString("\\ud800\"") == None
  {
    assert ReadString("\"") == Some(([], ""));
    assert "\\n\""[1..] == "n\"";
    assert Unescape("n\"") == Some(('\n', "\""));
    assert ['\n'] + [] == "\n";
    assert "\\u0041\""[1..][1..5] == "0041";
    assert "\\u0041\""[1..] == "u0041\"";
    assert Unescape("u0041\"") == Some(('A', "\""));
    assert ['A'] + [] == "A";
    assert "\\ud800\""[1..][1..5] == "d800";
  }

  lemma ExpectLiteral(lit: string, rest: string)
    ensures Expect(lit, lit + rest) == Some(rest)
  {
    assert (lit + rest)[..|lit|] == lit;
    assert (lit + rest)[|lit|..] == rest;
  }

  lemma ReadMemberBack(prefix: string, v: string, rest: string)
    ensures ReadMember(prefix, Member(prefix, v) + rest) == Some((v, rest))
  {
    var body := Escape(v) + "\"" + rest;
    assert Member(prefix, v) + rest == prefix + body;
    ExpectLiteral(prefix, body);
    ReadEscaped(v, rest);
  }

  /** Reading back a serialized user gives the same user. */
  lemma ParseUserSerialize(u: User)
    ensures ParseUser(Serialize(u)) == Some(u)
  {
    var m0 := Member(IdPrefix, u.id);
    var m1 := Member(FirstNamePrefix, u.firstName);
    var m2 := Member(LastNamePrefix, u.lastName);
    var m3 := Member(EmailPrefix, u.email);
    var m4 := Member(RolePrefix, u.role);
    var s4 := m4 + "}";
    var s3 := m3 + s4;
    var s2 := m2 + s3;
    var s1 := m1 + s2;
    ReadMemberBack(IdPrefix, u.id, s1);
    ReadMemberBack(FirstNamePrefix, u.firstName, s2);
    ReadMemberBack(LastNamePrefix, u.lastName, s3);
    ReadMemberBack(EmailPrefix, u.email, s4);
    ReadMemberBack(RolePrefix, u.role, "}");
  }

  /** The round trip `JSON.parse(JSON.stringify(u)) == u`, for a user or null. */
  lemma ParseStringify(u: Option<User>)
    ensures Parse(Stringify(u)) == Success(u)
  {
    if u.Some? {
      var text := Serialize(u.value);
      assert text[0] == '{';
      assert text != "null";
      ParseUserSerialize(u.value);
    }
  }
}
