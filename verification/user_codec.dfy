/**
 * The text form of the user record kept in browser storage under "user". It is
 * this model's own fixed layout, not full JSON: braces around four
 * comma-separated values with no keys and no whitespace, in the order id,
 * name, email, image; the id a quoted string, the other three quoted strings
 * or `null`. Inside a string a backslash escapes the next character, and only
 * quotes and backslashes are escaped when writing.
 */
module UserCodec {
  import opened Wrappers
  import opened PizzaTypes

  function EscapeChar(c: char): string {
    if c == '"' || c == '\\' then ['\\', c] else [c]
  }

  function Escape(s: string): string {
    if s == [] then [] else EscapeChar(s[0]) + Escape(s[1..])
  }

  function Quote(s: string): string {
    ['"'] + Escape(s) + ['"']
  }

  /** Reads a string body up to its closing quote, undoing the escapes; answers the string and what follows. */
  function ParseStringBody(t: string): Option<(string, string)>
    decreases |t|
  {
    if t == [] then None
    else if t[0] == '"' then Some(([], t[1..]))
    else if t[0] == '\\' then
      if |t| < 2 then None
      else
        var (s, rest) :- ParseStringBody(t[2..]);
        Some(([t[1]] + s, rest))
    else
      var (s, rest) :- ParseStringBody(t[1..]);
      Some(([t[0]] + s, rest))
  }

  function ParseString(t: string): Option<(string, string)> {
    if |t| > 0 && t[0] == '"' then ParseStringBody(t[1..]) else None
  }

  function EncodeField(f: Option<string>): string {
    match f
    case None => "null"
    case Some(s) => Quote(s)
  }

  function ParseField(t: string): Option<(Option<string>, string)> {
    if |t| >= 4 && t[..4] == "null" then Some((None, t[4..]))
    else
      var (s, rest) :- ParseString(t);
      Some((Some(s), rest))
  }

  /** Consumes one expected character. */
  function Expect(c: char, t: string): Option<string> {
    if |t| > 0 && t[0] == c then Some(t[1..]) else None
  }

  /** The stored text of a user (in place of `JSON.stringify(user)`). */
  function Encode(u: User): string {
    "{" + (Quote(u.id) + ("," + (EncodeField(u.name) + ("," + (EncodeField(u.email)
      + ("," + (EncodeField(u.image) + "}")))))))
  }

  /** Reads stored text back into a user; `None` for text that is not in the layout `Encode` writes. */
  function Decode(t: string): (r: Option<User>)
    ensures t == [] ==> r.None?
  {
    var t0 :- Expect('{', t);
    var (id, t1) :- ParseString(t0);
    var t2 :- Expect(',', t1);
    var (name, t3) :- ParseField(t2);
    var t4 :- Expect(',', t3);
    var (email, t5) :- ParseField(t4);
    var t6 :- Expect(',', t5);
    var (image, t7) :- ParseField(t6);
    var t8 :- Expect('}', t7);
    if t8 == [] then Some(User(id, name, email, image)) else None
  }

  lemma {:induction false} ParseStringBodyEscape(s: string, rest: string)
    ensures ParseStringBody(Escape(s) + ['"'] + rest) == Some((s, rest))
  {
    if s != [] {
      ParseStringBodyEscape(s[1..], rest);
      var tail := Escape(s[1..]) + ['"'] + rest;
      assert Escape(s) + ['"'] + rest == EscapeChar(s[0]) + tail;
      assert s == [s[0]] + s[1..];
    }
  }

  lemma ParseStringQuote(s: string, rest: string)
    ensures ParseString(Quote(s) + rest) == Some((s, rest))
  {
    ParseStringBodyEscape(s, rest);
    assert (Quote(s) + rest)[1..] == Escape(s) + ['"'] + rest;
  }

  lemma ParseFieldEncode(f: Option<string>, rest: string)
    ensures ParseField(EncodeField(f) + rest) == Some((f, rest))
  {
    match f
    case None =>
      assert (EncodeField(f) + rest)[..4] == "null";
    case Some(s) =>
      ParseStringQuote(s, rest);
  }

  /** Decoding what was encoded gives back the same user. */
  lemma DecodeEncode(u: User)
    ensures Decode(Encode(u)) == Some(u)
  {
    var t7 := EncodeField(u.image) + "}";
    var t5 := EncodeField(u.email) + ("," + t7);
    var t3 := EncodeField(u.name) + ("," + t5);
    var t1 := Quote(u.id) + ("," + t3);
    assert Encode(u) == "{" + t1;
    ParseStringQuote(u.id, "," + t3);
    ParseFieldEncode(u.name, "," + t5);
    ParseFieldEncode(u.email, "," + t7);
    ParseFieldEncode(u.image, "}");
  }
}
