/**
 * The values handed to the formatter, and the literals that the runtime's
 * built-in JSON serializer writes for primitives and object keys.
 *
 * The built-in serializer is not part of this model's subject; it is given
 * here a small concrete definition (integers in decimal, strings quoted and
 * escaped as in section 7 of RFC 8259) so that lengths and the examples can
 * be computed.
 */
module JsonValues {

  datatype Option<+T> = None | Some(value: T)

  /**
   * A JavaScript value as the formatter sees it. `Undef` is the `undefined`
   * value, distinct from `Null`. The entries of an `Obj` are listed in
   * `Object.keys` order, which the formatter never re-sorts.
   */
  datatype Value =
    | Null
    | Bool(b: bool)
    | Num(n: int)
    | Str(s: string)
    | Undef
    | Arr(elems: seq<Value>)
    | Obj(entries: seq<(string, Value)>)
  {
    /** `data !== null && typeof data === "object"`: arrays and objects. */
    predicate IsComposite() {
      Arr? || Obj?
    }
  }

  function HexDigit(d: nat): (c: char)
    requires d < 16
    ensures '0' <= c <= '9' || 'a' <= c <= 'f'
  {
    if d < 10 then (48 + d) as char else (87 + d) as char
  }

  /** How the serializer writes one character inside a string literal. */
  function EscapeChar(c: char): (r: string)
    ensures 1 <= |r| <= 6
    ensures c == '"' || c == '\\' || (c as int) < 0x20 <==> |r| > 1
  {
    var n := c as int;
    if n == 0x22 then ['\\', '"']
    else if n == 0x5C then ['\\', '\\']
    else if n == 0x08 then ['\\', 'b']
    else if n == 0x0C then ['\\', 'f']
    else if n == 0x0A then ['\\', 'n']
    else if n == 0x0D then ['\\', 'r']
    else if n == 0x09 then ['\\', 't']
    else if n < 0x20 then ['\\', 'u', '0', '0', HexDigit(n / 16), HexDigit(n % 16)]
    else [c]
  }

  function Escape(s: string): (r: string)
    ensures |r| >= |s|
  {
    if s == [] then [] else EscapeChar(s[0]) + Escape(s[1..])
  }

  /** `JSON.stringify` of a string: the string literal, with its quotes. */
  function Quote(s: string): (r: string)
    ensures |r| >= |s| + 2
    ensures r[0] == '"' && r[|r| - 1] == '"'
  {
    "\"" + Escape(s) + "\""
  }

  /** A string without quotes, backslashes or control characters needs no escape. */
  lemma {:induction false} EscapePlain(s: string)
    requires forall k :: 0 <= k < |s| ==> s[k] != '"' && s[k] != '\\' && (s[k] as int) >= 0x20
    ensures Escape(s) == s
    decreases |s|
  {
    if s != [] {
      EscapePlain(s[1..]);
      assert EscapeChar(s[0]) == [s[0]];
      assert s == [s[0]] + s[1..];
    }
  }

  /** Such a string is written between its quotes as it is. */
  lemma QuotePlain(s: string)
    requires forall k :: 0 <= k < |s| ==> s[k] != '"' && s[k] != '\\' && (s[k] as int) >= 0x20
    ensures Quote(s) == "\"" + s + "\""
  {
    EscapePlain(s);
  }

  function DigitsText(n: nat): (r: string)
    ensures |r| >= 1
    ensures forall k :: 0 <= k < |r| ==> '0' <= r[k] <= '9'
  {
    if n < 10 then [HexDigit(n)] else DigitsText(n / 10) + [HexDigit(n % 10)]
  }

  /** `JSON.stringify` of an integral number. */
  function NumberText(n: int): (r: string)
    ensures |r| >= 1
    ensures (n < 0) == (r[0] == '-')
  {
    if n < 0 then "-" + DigitsText(-n) else DigitsText(n)
  }

  /**
   * `JSON.stringify` of a primitive other than `undefined` (for which it
   * returns `undefined` itself, not a string).
   */
  function Literal(v: Value): (r: string)
    requires !v.IsComposite() && !v.Undef?
    ensures |r| >= 1
    ensures v.Str? ==> |r| >= |v.s| + 2
  {
    match v
    case Null => "null"
    case Bool(b) => if b then "true" else "false"
    case Num(n) => NumberText(n)
    case Str(s) => Quote(s)
  }
}
