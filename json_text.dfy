/**
 * The command objects the backend sends to the main controller, and Python's
 * `json.dumps` on them with its defaults: `", "` between members, `": "`
 * after keys, and `ensure_ascii`, which escapes every character outside
 * printable ASCII.
 */
module PyJson {
  import opened Text

  datatype JsonValue = JStr(s: string) | JInt(n: int) | JBool(b: bool)

  /** One member of a JSON object, in insertion order. */
  datatype Member = Member(key: string, value: JsonValue)

  predicate Printable(c: char) {
    ' ' <= c <= '~'
  }

  predicate AllPrintable(s: string) {
    forall i :: 0 <= i < |s| ==> Printable(s[i])
  }

  lemma AllPrintableConcat(a: string, b: string)
    requires AllPrintable(a) && AllPrintable(b)
    ensures AllPrintable(a + b)
  {
  }

  function HexDigit(d: int): (c: char)
    requires 0 <= d < 16
    ensures Printable(c)
  {
    if d < 10 then ('0' as int + d) as char else ('a' as int + d - 10) as char
  }

  /** Four lower-case hex digits, as in `'\\u{0:04x}'`. */
  function Hex4(n: int): (s: string)
    requires 0 <= n < 0x1_0000
    ensures |s| == 4 && AllPrintable(s)
  {
    [HexDigit(n / 4096), HexDigit(n / 256 % 16), HexDigit(n / 16 % 16), HexDigit(n % 16)]
  }

  /** The escape of one character inside a JSON string. */
  function EscapeChar(c: char): (s: string)
    ensures 1 <= |s| && AllPrintable(s)
    ensures Printable(c) && c != '"' && c != '\\' ==> s == [c]
  {
    if c == '"' then "\\\""
    else if c == '\\' then "\\\\"
    else if c == '\n' then "\\n"
    else if c == '\r' then "\\r"
    else if c == '\t' then "\\t"
    else if c as int == 8 then "\\b"
    else if c as int == 12 then "\\f"
    else if Printable(c) then [c]
    else if c as int < 0x1_0000 then "\\u" + Hex4(c as int)
    else
      var v := c as int - 0x1_0000;
      "\\u" + Hex4(0xD800 + v / 1024) + "\\u" + Hex4(0xDC00 + v % 1024)
  }

  function EscapeString(s: string): (r: string)
    ensures AllPrintable(r) && |r| >= |s|
  {
    if s == [] then [] else EscapeChar(s[0]) + EscapeString(s[1..])
  }

  /** Text that `json.dumps` copies as it is: printable, with no quote and no backslash. */
  predicate Plain(s: string) {
    forall i :: 0 <= i < |s| ==> Printable(s[i]) && s[i] != '"' && s[i] != '\\'
  }

  /** Text that needs no escaping is copied unchanged. */
  lemma {:induction false} EscapePlainUnchanged(s: string)
    requires Plain(s)
    ensures EscapeString(s) == s
  {
    if s != [] {
      EscapePlainUnchanged(s[1..]);
    }
  }

  function Quote(s: string): (r: string)
    ensures AllPrintable(r)
  {
    "\"" + EscapeString(s) + "\""
  }

  function ValueText(v: JsonValue): (r: string)
    ensures AllPrintable(r)
  {
    match v
    case JStr(s) => Quote(s)
    case JInt(n) => IntToString(n)
    case JBool(b) => if b then "true" else "false"
  }

  function MemberText(m: Member): (r: string)
    ensures AllPrintable(r)
  {
    Quote(m.key) + ": " + ValueText(m.value)
  }

  function MembersText(ms: seq<Member>): (r: string)
    ensures AllPrintable(r)
  {
    if ms == [] then []
    else if |ms| == 1 then MemberText(ms[0])
    else MemberText(ms[0]) + ", " + MembersText(ms[1..])
  }

  /** `json.dumps(obj)`. */
  function Dumps(obj: seq<Member>): (r: string)
    ensures AllPrintable(r) && 2 <= |r| && r[0] == '{' && r[|r| - 1] == '}'
  {
    "{" + MembersText(obj) + "}"
  }
}
