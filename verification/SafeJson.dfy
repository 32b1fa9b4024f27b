/**
 The canonical JSON text behind Safe Transaction Builder checksums. Objects keep their fields in
 insertion order; two values are the same when they agree up to that order.
 */
module SafeJson {
  /** Integers by sign and magnitude, and floats by their shortest decimal text. */
  datatype Num = PosInt(magnitude: nat) | NegInt(magnitude: nat) | Float(text: string)

  datatype Field = Field(key: string, value: Json)

  datatype Json =
    | Null
    | Bool(value: bool)
    | Number(num: Num)
    | Str(text: string)
    | Arr(items: seq<Json>)
    | Obj(fields: seq<Field>)

  // ---- Numbers and strings ------------------------------------------------------------------------------------

  function Digit(d: nat): char
    requires d < 10
  {
    "0123456789"[d]
  }

  predicate IsDigit(c: char)
  {
    '0' <= c <= '9'
  }

  function Digits(n: nat): (text: string)
    ensures text != [] && forall i :: 0 <= i < |text| ==> IsDigit(text[i])
  {
    if n < 10 then [Digit(n)] else Digits(n / 10) + [Digit(n % 10)]
  }

  predicate IsNumeric(c: char)
  {
    IsDigit(c) || c == '-' || c == '+' || c == '.' || c == 'e' || c == 'E'
  }

  function NumText(n: Num): string
  {
    match n
    case PosInt(magnitude) => Digits(magnitude)
    case NegInt(magnitude) => "-" + Digits(magnitude)
    case Float(text) => text
  }

  function HexDigit(d: nat): char
    requires d < 16
  {
    "0123456789abcdef"[d]
  }

  /** How a character is written inside a JSON string (section 7 of RFC 8259). */
  function Escape(c: char): (text: string)
    ensures text != [] && text[0] != '"'
  {
    if c == '"' then "\\\""
    else if c == '\\' then "\\\\"
    else if c == 8 as char then "\\b"
    else if c == 12 as char then "\\f"
    else if c == '\n' then "\\n"
    else if c == '\r' then "\\r"
    else if c == '\t' then "\\t"
    else if (c as int) < 32 then "\\u00" + [HexDigit((c as int) / 16), HexDigit((c as int) % 16)]
    else [c]
  }

  function EscapeAll(s: string): string
  {
    if s == [] then [] else Escape(s[0]) + EscapeAll(s[1..])
  }

  function Quote(s: string): string
  {
    "\"" + EscapeAll(s) + "\""
  }

  // ---- Keys -----------------------------------------------------------------------------------------------------

  function KeysOf(fields: seq<Field>): (keys: seq<string>)
    ensures |keys| == |fields| && forall i :: 0 <= i < |fields| ==> keys[i] == fields[i].key
  {
    seq(|fields|, i requires 0 <= i < |fields| => fields[i].key)
  }

  /** The value under `key`. */
  function Lookup(fields: seq<Field>, key: string): (v: Json)
    requires key in KeysOf(fields)
    ensures exists i :: 0 <= i < |fields| && v == fields[i].value && fields[i].key == key
  {
    if fields[0].key == key then fields[0].value
    else
      assert forall i :: 1 <= i < |fields| ==> fields[i] == fields[1..][i - 1] && KeysOf(fields)[i] == KeysOf(fields[1..])[i - 1];
      Lookup(fields[1..], key)
  }

  /** Code-point order, which for Rust strings is byte order. */
  predicate Leq(a: string, b: string)
  {
    a == [] || (b != [] && (a[0] < b[0] || (a[0] == b[0] && Leq(a[1..], b[1..]))))
  }

  function Insert(key: string, sorted: seq<string>): (r: seq<string>)
    ensures multiset(r) == multiset(sorted) + multiset{key}
  {
    if sorted == [] || Leq(key, sorted[0]) then [key] + sorted
    else
      assert sorted == [sorted[0]] + sorted[1..];
      [sorted[0]] + Insert(key, sorted[1..])
  }

  function Sort(keys: seq<string>): (r: seq<string>)
    ensures multiset(r) == multiset(keys)
  {
    if keys == [] then []
    else
      assert keys == [keys[0]] + keys[1..];
      Insert(keys[0], Sort(keys[1..]))
  }

  /** The object's keys in canonical order. */
  function SortedKeys(fields: seq<Field>): (keys: seq<string>)
    ensures forall k :: k in keys <==> k in KeysOf(fields)
  {
    var keys := Sort(KeysOf(fields));
    assert forall k :: k in keys <==> k in multiset(keys);
    keys
  }

  // ---- The serializer ---------------------------------------------------------------------------------------------

  function JoinKeys(keys: seq<string>): string
  {
    if keys == [] then []
    else if |keys| == 1 then Quote(keys[0])
    else Quote(keys[0]) + "," + JoinKeys(keys[1..])
  }

  /** The values under `keys`, each followed by a comma. */
  function SerValues(fields: seq<Field>, keys: seq<string>): string
    requires forall k :: k in keys ==> k in KeysOf(fields)
    decreases fields, 0, |keys|
  {
    if keys == [] then []
    else Ser(Lookup(fields, keys[0])) + "," + SerValues(fields, keys[1..])
  }

  function Ser(v: Json): string
    decreases v, 1
  {
    match v
    case Null => "null"
    case Bool(b) => if b then "true" else "false"
    case Number(n) => NumText(n)
    case Str(s) => Quote(s)
    case Arr(items) => "[" + SerItems(items) + "]"
    case Obj(fields) => "{" + ("[" + JoinKeys(SortedKeys(fields)) + "]" + SerValues(fields, SortedKeys(fields))) + "}"
  }

  function SerItems(items: seq<Json>): string
    decreases items, 0
  {
    if items == [] then []
    else if |items| == 1 then Ser(items[0])
    else Ser(items[0]) + "," + SerItems(items[1..])
  }
}
