/**
 A reader of the canonical text, written from the grammar: the literals, strings and escapes of
 RFC 8259 (sections 3 and 7), arrays, and objects as a key list followed by values with a comma
 after each. Whatever is serialized reads back as the same value.
 */
module JsonReader {
  import opened SafeJson
  import opened CanonicalJson

  datatype Parse<+T> = Failed | Parsed(value: T, rest: string)

  // ---- The reader -----------------------------------------------------------------------------------------------------------

  /** Lower-case hexadecimal. */
  function HexValue(c: char): int
  {
    if '0' <= c <= '9' then c as int - '0' as int
    else if 'a' <= c <= 'f' then c as int - 'a' as int + 10
    else -1
  }

  /** One character of a string, possibly escaped. */
  function ReadChar(s: string): (r: Parse<char>)
    ensures r.Parsed? ==> |r.rest| < |s|
  {
    if s == [] then Failed
    else if s[0] != '\\' then Parsed(s[0], s[1..])
    else if |s| == 1 then Failed
    else if s[1] == '"' || s[1] == '\\' then Parsed(s[1], s[2..])
    else if s[1] == 'b' then Parsed(8 as char, s[2..])
    else if s[1] == 't' then Parsed(9 as char, s[2..])
    else if s[1] == 'n' then Parsed(10 as char, s[2..])
    else if s[1] == 'f' then Parsed(12 as char, s[2..])
    else if s[1] == 'r' then Parsed(13 as char, s[2..])
    else if "\\u00" <= s && |s| >= 6 && 0 <= HexValue(s[4]) && 0 <= HexValue(s[5])
    then Parsed((16 * HexValue(s[4]) + HexValue(s[5])) as char, s[6..])
    else Failed
  }

  /** The characters up to the closing quote. */
  function ReadChars(s: string): (r: Parse<string>)
    ensures r.Parsed? ==> |r.rest| < |s|
    decreases |s|
  {
    if s == [] then Failed
    else if s[0] == '"' then Parsed([], s[1..])
    else
      var first := ReadChar(s);
      if first.Failed? then Failed
      else
        var others := ReadChars(first.rest);
        if others.Failed? then Failed else Parsed([first.value] + others.value, others.rest)
  }

  function ReadString(s: string): (r: Parse<string>)
    ensures r.Parsed? ==> |r.rest| < |s|
  {
    if s != [] && s[0] == '"' then ReadChars(s[1..]) else Failed
  }

  function ReadMoreKeys(s: string): (r: Parse<seq<string>>)
    ensures r.Parsed? ==> |r.rest| < |s|
    decreases |s|
  {
    var key := ReadString(s);
    if key.Failed? || key.rest == [] then Failed
    else if key.rest[0] == ']' then Parsed([key.value], key.rest[1..])
    else if key.rest[0] != ',' then Failed
    else
      var others := ReadMoreKeys(key.rest[1..]);
      if others.Failed? then Failed else Parsed([key.value] + others.value, others.rest)
  }

  /** A key list up to its closing bracket. */
  function ReadKeys(s: string): (r: Parse<seq<string>>)
    ensures r.Parsed? ==> |r.rest| < |s|
  {
    if s != [] && s[0] == ']' then Parsed([], s[1..]) else ReadMoreKeys(s)
  }

  /** The decimal value of a string of digits. */
  function Decimal(text: string): nat
  {
    if text == [] then 0
    else 10 * Decimal(text[..|text| - 1]) + (if IsDigit(text[|text| - 1]) then text[|text| - 1] as int - '0' as int else 0)
  }

  predicate AllDigits(text: string)
  {
    forall i :: 0 <= i < |text| ==> IsDigit(text[i])
  }

  function NumberOf(text: string): Num
    requires text != []
  {
    if AllDigits(text) then PosInt(Decimal(text))
    else if text[0] == '-' && AllDigits(text[1..]) then NegInt(Decimal(text[1..]))
    else Float(text)
  }

  /** How many leading characters can belong to a number. */
  function NumericLength(s: string): (n: nat)
    ensures n <= |s|
  {
    if s == [] || !IsNumeric(s[0]) then 0 else 1 + NumericLength(s[1..])
  }

  function ReadNumber(s: string): (r: Parse<Num>)
    ensures r.Parsed? ==> |r.rest| < |s|
  {
    var n := NumericLength(s);
    if n == 0 then Failed else Parsed(NumberOf(s[..n]), s[n..])
  }

  function ReadArray(s: string): (r: Parse<Json>)
    requires "[" <= s
    ensures r.Parsed? ==> |r.rest| < |s|
    decreases |s|, 0
  {
    if "[]" <= s then Parsed(Arr([]), s[2..])
    else
      var items := ReadMoreItems(s[1..]);
      if items.Failed? then Failed else Parsed(Arr(items.value), items.rest)
  }

  /** Values for `keys`, each followed by a comma, up to the closing brace. */
  function ReadFields(keys: seq<string>, s: string): (r: Parse<seq<Field>>)
    ensures r.Parsed? ==> |r.rest| < |s|
    decreases |s|, 2
  {
    if s == [] then Failed
    else if keys == [] then if s[0] == '}' then Parsed([], s[1..]) else Failed
    else
      var value := ReadValue(s);
      if value.Failed? || value.rest == [] || value.rest[0] != ',' then Failed
      else
        var others := ReadFields(keys[1..], value.rest[1..]);
        if others.Failed? then Failed else Parsed([Field(keys[0], value.value)] + others.value, others.rest)
  }

  function ReadObject(s: string): (r: Parse<Json>)
    requires "{[" <= s
    ensures r.Parsed? ==> |r.rest| < |s|
    decreases |s|, 0
  {
    var keys := ReadKeys(s[2..]);
    if keys.Failed? then Failed
    else
      var fields := ReadFields(keys.value, keys.rest);
      if fields.Failed? then Failed else Parsed(Obj(fields.value), fields.rest)
  }

  function ReadValue(s: string): (r: Parse<Json>)
    ensures r.Parsed? ==> |r.rest| < |s|
    decreases |s|, 1
  {
    if "null" <= s then Parsed(Null, s[4..])
    else if "true" <= s then Parsed(Bool(true), s[4..])
    else if "false" <= s then Parsed(Bool(false), s[5..])
    else if "\"" <= s then
      var text := ReadString(s);
      if text.Failed? then Failed else Parsed(Str(text.value), text.rest)
    else if "[" <= s then ReadArray(s)
    else if "{[" <= s then ReadObject(s)
    else
      var num := ReadNumber(s);
      if num.Failed? then Failed else Parsed(Number(num.value), num.rest)
  }

  function ReadMoreItems(s: string): (r: Parse<seq<Json>>)
    ensures r.Parsed? ==> |r.rest| < |s|
    decreases |s|, 2
  {
    var item := ReadValue(s);
    if item.Failed? || item.rest == [] then Failed
    else if item.rest[0] == ']' then Parsed([item.value], item.rest[1..])
    else if item.rest[0] != ',' then Failed
    else
      var others := ReadMoreItems(item.rest[1..]);
      if others.Failed? then Failed else Parsed([item.value] + others.value, others.rest)
  }

  // ---- Leaves read back -------------------------------------------------------------------------------------------------------

  /** The rest of the text after a value: nothing, or a delimiter. */
  predicate Ends(rest: string)
  {
    rest == [] || rest[0] == ',' || rest[0] == ']' || rest[0] == '}'
  }

  lemma HexReadsBack(d: nat)
    requires d < 16
    ensures HexValue(HexDigit(d)) == d
  {
  }

  lemma ControlReadsBack(high: nat, low: nat, x: string)
    requires high < 16 && low < 16
    ensures ReadChar("\\u00" + [HexDigit(high), HexDigit(low)] + x) == Parsed((16 * high + low) as char, x)
  {
    HexReadsBack(high);
    HexReadsBack(low);
    hide HexValue, HexDigit;
    var text := "\\u00" + [HexDigit(high), HexDigit(low)] + x;
    assert text[0] == '\\' && text[1] == 'u' && text[..4] == "\\u00";
    assert text[4] == HexDigit(high) && text[5] == HexDigit(low) && text[6..] == x;
  }

  lemma EscapeReadsBack(c: char, x: string)
    ensures ReadChar(Escape(c) + x) == Parsed(c, x)
  {
    var text := Escape(c) + x;
    assert text[|Escape(c)|..] == x;
    if |Escape(c)| == 6 {
      var high, low := c as int / 16, c as int % 16;
      assert Escape(c) == "\\u00" + [HexDigit(high), HexDigit(low)];
      ControlReadsBack(high, low, x);
    }
  }

  lemma {:induction false} CharsReadBack(s: string, x: string)
    ensures ReadChars(EscapeAll(s) + ("\"" + x)) == Parsed(s, x)
  {
    hide Escape, ReadChar;
    var text := EscapeAll(s) + ("\"" + x);
    if s == [] {
      assert text[1..] == x;
    } else {
      var more := EscapeAll(s[1..]) + ("\"" + x);
      assert text == Escape(s[0]) + more && text[0] == Escape(s[0])[0];
      EscapeReadsBack(s[0], more);
      CharsReadBack(s[1..], x);
      assert s == [s[0]] + s[1..];
    }
  }

  lemma StringReadsBack(s: string, x: string)
    ensures ReadString(Quote(s) + x) == Parsed(s, x)
  {
    hide EscapeAll, ReadChars;
    assert (Quote(s) + x)[1..] == EscapeAll(s) + ("\"" + x);
    CharsReadBack(s, x);
  }

  lemma KeyTextSplits(keys: seq<string>, x: string)
    requires |keys| > 1
    ensures JoinKeys(keys) + ("]" + x) == Quote(keys[0]) + ("," + (JoinKeys(keys[1..]) + ("]" + x)))
  {
    hide Quote;
  }

  lemma {:induction false} MoreKeysReadBack(keys: seq<string>, x: string)
    requires keys != []
    ensures ReadMoreKeys(JoinKeys(keys) + ("]" + x)) == Parsed(keys, x)
  {
    hide Quote, ReadString;
    if |keys| == 1 {
      StringReadsBack(keys[0], "]" + x);
      assert ("]" + x)[1..] == x && keys == [keys[0]];
    } else {
      KeyTextSplits(keys, x);
      hide JoinKeys;
      var after := "," + (JoinKeys(keys[1..]) + ("]" + x));
      StringReadsBack(keys[0], after);
      MoreKeysReadBack(keys[1..], x);
      assert after[1..] == JoinKeys(keys[1..]) + ("]" + x) && keys == [keys[0]] + keys[1..];
    }
  }

  lemma KeysReadBack(keys: seq<string>, x: string)
    ensures ReadKeys(JoinKeys(keys) + ("]" + x)) == Parsed(keys, x)
  {
    var text := JoinKeys(keys) + ("]" + x);
    if keys == [] {
      assert text[1..] == x;
    } else {
      assert text[0] == '"';
      MoreKeysReadBack(keys, x);
    }
  }

  /** Decimal text is the number, without leading zeros. */
  lemma {:induction false} DigitsReadBack(n: nat)
    ensures Decimal(Digits(n)) == n
    ensures Digits(n)[0] == '0' ==> n == 0 && |Digits(n)| == 1
  {
    var text := Digits(n);
    if n < 10 {
      assert text[..0] == [];
    } else {
      DigitsReadBack(n / 10);
      assert text[..|text| - 1] == Digits(n / 10);
    }
  }

  lemma NumReadsBack(n: Num)
    requires NumOk(n)
    ensures NumText(n) != [] && NumberOf(NumText(n)) == n
    ensures IsDigit(NumText(n)[0]) || NumText(n)[0] == '-'
    ensures forall i :: 0 <= i < |NumText(n)| ==> IsNumeric(NumText(n)[i])
  {
    match n
    case PosInt(m) => DigitsReadBack(m);
    case NegInt(m) =>
      DigitsReadBack(m);
      assert NumText(n)[1..] == Digits(m) && !IsDigit(NumText(n)[0]);
    case Float(text) =>
      var i :| 0 <= i < |text| && (text[i] == '.' || text[i] == 'e');
      assert !IsDigit(text[i]);
      assert i > 0 && text[1..][i - 1] == text[i];
  }

  lemma {:induction false} NumericRun(text: string, x: string)
    requires forall i :: 0 <= i < |text| ==> IsNumeric(text[i])
    requires Ends(x)
    ensures NumericLength(text + x) == |text|
  {
    if text == [] {
      assert text + x == x;
    } else {
      assert (text + x)[1..] == text[1..] + x;
      NumericRun(text[1..], x);
    }
  }

  lemma NumberReadsBack(n: Num, x: string)
    requires NumOk(n) && Ends(x)
    ensures ReadValue(NumText(n) + x) == Parsed(Number(n), x)
  {
    hide NumberOf, NumOk, ReadString, ReadArray, ReadObject;
    var text := NumText(n);
    NumReadsBack(n);
    NumericRun(text, x);
    assert (text + x)[..|text|] == text && (text + x)[|text|..] == x && (text + x)[0] == text[0];
  }

  // ---- Every value reads back ---------------------------------------------------------------------------------------------------

  lemma LeadOf(v: Json)
    requires WellFormed(v)
    ensures Ser(v) != [] && Ser(v)[0] != ']'
  {
    if v.Number? {
      NumReadsBack(v.num);
    }
  }

  lemma EmptyArray()
    ensures SerItems([]) == [] && CanonItems([]) == []
  {
  }

  lemma FirstOfItems(items: seq<Json>)
    requires AllWellFormed(items) && items != []
    ensures SerItems(items) != [] && SerItems(items)[0] != ']'
  {
    hide Ser;
    LeadOf(items[0]);
  }

  lemma {:induction false} ArrayReadsBack(items: seq<Json>, x: string)
    requires AllWellFormed(items)
    ensures ReadValue(Ser(Arr(items)) + x) == Parsed(Canon(Arr(items)), x)
    decreases items, 1
  {
    hide SerItems, CanonItems, ReadMoreItems, WellFormed, ReadString, ReadObject, ReadNumber;
    var text := Ser(Arr(items)) + x;
    assert text[0] == '[' && text[1..] == SerItems(items) + ("]" + x);
    if items == [] {
      EmptyArray();
      assert text[2..] == x && text[1] == ']';
    } else {
      FirstOfItems(items);
      assert text[1] == SerItems(items)[0];
      MoreItemsReadBack(items, x);
    }
  }

  lemma {:induction false} FieldsReadBack(f: seq<Field>, keys: seq<string>, x: string)
    requires FieldsWellFormed(f) && forall k :: k in keys ==> k in KeysOf(f)
    ensures ReadFields(keys, SerValues(f, keys) + ("}" + x)) == Parsed(CanonFields(f, keys), x)
    decreases f, 0, |keys|
  {
    hide Ser, ReadValue, WellFormed, Canon, FieldsWellFormed, Lookup, KeysOf;
    var text := SerValues(f, keys) + ("}" + x);
    if keys == [] {
      assert text[1..] == x;
    } else {
      var after := "," + (SerValues(f, keys[1..]) + ("}" + x));
      assert text == Ser(Lookup(f, keys[0])) + after;
      LookupWellFormed(f, keys[0]);
      ValueReadsBack(Lookup(f, keys[0]), after);
      assert after[1..] == SerValues(f, keys[1..]) + ("}" + x);
      FieldsReadBack(f, keys[1..], x);
      assert text != [];
    }
  }

  lemma {:induction false} ObjectReadsBack(f: seq<Field>, x: string)
    requires FieldsWellFormed(f)
    ensures ReadValue(Ser(Obj(f)) + x) == Parsed(Canon(Obj(f)), x)
    decreases f, 1
  {
    hide JoinKeys, SerValues, SortedKeys, CanonFields, ReadKeys, ReadFields, FieldsWellFormed, WellFormed,
         ReadString, ReadArray, ReadNumber;
    var keys := SortedKeys(f);
    var text := Ser(Obj(f)) + x;
    var after := SerValues(f, keys) + ("}" + x);
    assert text[0] == '{' && text[1] == '[' && text[2..] == JoinKeys(keys) + ("]" + after);
    assert text[..2] == "{[";
    KeysReadBack(keys, after);
    FieldsReadBack(f, keys, x);
  }

  lemma StrReadsBack(s: string, x: string)
    ensures ReadValue(Ser(Str(s)) + x) == Parsed(Str(s), x)
  {
    hide EscapeAll, ReadString, ReadArray, ReadObject, ReadNumber;
    assert (Quote(s) + x)[0] == '"';
    StringReadsBack(s, x);
  }

  lemma BoolReadsBack(b: bool, x: string)
    ensures ReadValue(Ser(Bool(b)) + x) == Parsed(Bool(b), x)
  {
    hide ReadString, ReadArray, ReadObject, ReadNumber;
    var text := Ser(Bool(b)) + x;
    assert text[0] == if b then 't' else 'f';
    if b {
      assert text[..4] == "true" && text[4..] == x;
    } else {
      assert text[..5] == "false" && text[5..] == x;
    }
  }

  /** A serialized value reads back in canonical form, with the text after it left over. */
  lemma {:induction false} ValueReadsBack(v: Json, x: string)
    requires WellFormed(v) && Ends(x)
    ensures ReadValue(Ser(v) + x) == Parsed(Canon(v), x)
    decreases v, 1
  {
    match v
    case Arr(items) => ArrayReadsBack(items, x);
    case Obj(f) => ObjectReadsBack(f, x);
    case Number(n) => NumberReadsBack(n, x);
    case Str(s) => StrReadsBack(s, x);
    case Null => assert (Ser(v) + x)[..4] == "null" && (Ser(v) + x)[4..] == x;
    case Bool(b) => BoolReadsBack(b, x);
  }

  lemma {:induction false} MoreItemsReadBack(items: seq<Json>, x: string)
    requires AllWellFormed(items) && items != []
    ensures ReadMoreItems(SerItems(items) + ("]" + x)) == Parsed(CanonItems(items), x)
    decreases items, 0
  {
    hide Ser, ReadValue, WellFormed, Canon;
    var text := SerItems(items) + ("]" + x);
    var after := if |items| == 1 then "]" + x else "," + (SerItems(items[1..]) + ("]" + x));
    assert text == Ser(items[0]) + after;
    ValueReadsBack(items[0], after);
    if |items| == 1 {
      assert after[1..] == x && items[1..] == [] && CanonItems(items) == [Canon(items[0])];
    } else {
      assert after[1..] == SerItems(items[1..]) + ("]" + x);
      MoreItemsReadBack(items[1..], x);
    }
  }

  /** Escapes are the shortest ones: none, a short one, or four hexadecimal digits. */
  lemma EscapesAreShortest(c: char)
    ensures Escape(c) == [c] <==> c as int >= 32 && c != '"' && c != '\\'
    ensures |Escape(c)| == if c as int >= 32 && c != '"' && c != '\\' then 1
                           else if c in "\"\\\n\r\t" || c as int == 8 || c as int == 12 then 2
                           else 6
    ensures ReadChar(Escape(c)) == Parsed(c, [])
  {
    assert Escape(c) + [] == Escape(c);
    EscapeReadsBack(c, []);
  }

  // ---- The canonical text ---------------------------------------------------------------------------------------------------------

  /** The whole text of a value is read completely, and gives a value that is the same. */
  lemma TextReadsBack(v: Json)
    requires WellFormed(v)
    ensures var r := ReadValue(Ser(v)); r.Parsed? && r.rest == [] && Same(r.value, v)
  {
    assert Ser(v) + [] == Ser(v);
    ValueReadsBack(v, []);
    CanonIsSame(v);
  }

  /**
   The text is self-delimiting: equal texts, followed by delimiters, come from values that are the
   same, and what follows is equal.
   */
  lemma TextUnique(a: Json, b: Json, x: string, y: string)
    requires WellFormed(a) && WellFormed(b) && Ends(x) && Ends(y)
    requires Ser(a) + x == Ser(b) + y
    ensures Same(a, b) && x == y
  {
    ValueReadsBack(a, x);
    ValueReadsBack(b, y);
    CanonDecides(a, b);
  }

  /** Two values have the same canonical text exactly when they are the same up to field order. */
  lemma CanonicalTextExactly(a: Json, b: Json)
    requires WellFormed(a) && WellFormed(b)
    ensures Ser(a) == Ser(b) <==> Same(a, b)
  {
    if Ser(a) == Ser(b) {
      TextUnique(a, b, [], []);
    }
    if Same(a, b) {
      SameText(a, b);
    }
  }
}
