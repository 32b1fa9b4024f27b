/** The canonical serializer's code, and what a Safe Transaction Builder checksum commits to. */
module SafeChecksum {
  import opened SafeJson
  import opened CanonicalJson
  import opened JsonReader
  import PortalEvents

  method SerializeValues(fields: seq<Field>, keys: seq<string>) returns (body: string)
    requires forall k :: k in keys ==> k in KeysOf(fields)
    ensures body == SerValues(fields, keys)
    decreases fields, 0
  {
    hide Ser, Lookup, KeysOf;
    body := "";
    for i := 0 to |keys|
      invariant body + SerValues(fields, keys[i..]) == SerValues(fields, keys)
    {
      assert keys[i] in keys;
      var value := SafeSerializeJson(Lookup(fields, keys[i]));
      assert keys[i..][1..] == keys[i + 1..];
      ghost var before := body;
      body := body + value + ",";
      assert before + (value + "," + SerValues(fields, keys[i + 1..])) == body + SerValues(fields, keys[i + 1..]);
    }
    assert keys[|keys|..] == [];
  }

  /** Serialize recursively: a joined list for arrays, the sorted keys and then the values for objects. */
  method SafeSerializeJson(v: Json) returns (text: string)
    ensures text == Ser(v)
    decreases v, 1
  {
    match v
    case Null => text := "null";
    case Bool(b) => text := if b then "true" else "false";
    case Number(n) => text := NumText(n);
    case Str(s) => text := Quote(s);
    case Arr(items) =>
      var body := SerializeItems(items);
      text := "[" + body + "]";
    case Obj(fields) =>
      var keys := SortedKeys(fields);
      var body := SerializeValues(fields, keys);
      text := "{" + ("[" + JoinKeys(keys) + "]" + body) + "}";
  }

  method SerializeItems(items: seq<Json>) returns (body: string)
    ensures body == SerItems(items)
    decreases items, 0
  {
    hide Ser;
    body := "";
    for i := 0 to |items|
      invariant i < |items| ==> body + SerItems(items[i..]) == SerItems(items)
      invariant i == |items| ==> body == SerItems(items)
    {
      var item := SafeSerializeJson(items[i]);
      assert items[i..][1..] == items[i + 1..];
      ghost var before := body;
      body := body + item;
      if i + 1 < |items| {
        body := body + ",";
        assert before + (item + "," + SerItems(items[i + 1..])) == body + SerItems(items[i + 1..]);
      }
    }
  }

  function ExampleFields(): seq<Field>
  {
    [Field("b", Number(PosInt(2))), Field("a", Str("x"))]
  }

  lemma ExampleKeys()
    ensures SortedKeys(ExampleFields()) == ["a", "b"]
  {
  }

  lemma ExampleValues()
    ensures "a" in KeysOf(ExampleFields()) && "b" in KeysOf(ExampleFields())
    ensures SerValues(ExampleFields(), ["a", "b"]) == Quote("x") + "," + ("2" + "," + "")
  {
    var fields := ExampleFields();
    assert KeysOf(fields)[0] == "b" && KeysOf(fields)[1] == "a";
    assert fields[1..] == [Field("a", Str("x"))] && KeysOf(fields[1..])[0] == "a";
    assert Lookup(fields, "a") == Str("x") && Lookup(fields, "b") == Number(PosInt(2));
    hide Quote;
    assert ["a", "b"][1..] == ["b"] && ["b"][1..] == [];
    assert SerValues(fields, ["b"]) == "2" + "," + "";
  }

  lemma QuoteLetter(c: char)
    requires 'a' <= c <= 'z'
    ensures Quote([c]) == "\"" + [c] + "\""
  {
    assert Escape(c) == [c] && [c][1..] == [];
    assert EscapeAll([c]) == [c] + EscapeAll([]) == [c];
  }

  lemma ExampleLayout()
    ensures Ser(Obj(ExampleFields()))
         == "{" + ("[" + ("\"a\"" + "," + "\"b\"") + "]" + ("\"x\"" + "," + ("2" + "," + ""))) + "}"
  {
    ExampleKeys();
    ExampleValues();
    QuoteLetter('a');
    QuoteLetter('b');
    QuoteLetter('x');
    assert "\"" + ['a'] + "\"" == "\"a\"" && "\"" + ['b'] + "\"" == "\"b\"" && "\"" + ['x'] + "\"" == "\"x\"";
    hide Quote, SerValues, SortedKeys, ExampleFields;
    assert ["a", "b"][1..] == ["b"];
    assert JoinKeys(["a", "b"]) == Quote("a") + "," + Quote("b");
  }

  /** The layout itself: sorted key list, then each value and a comma. */
  lemma SerializerExample()
    ensures Ser(Obj(ExampleFields())) == "{[\"a\",\"b\"]\"x\",2,}"
  {
    hide Ser, ExampleFields;
    ExampleLayout();
    assert "{" + ("[" + ("\"a\"" + "," + "\"b\"") + "]" + ("\"x\"" + "," + ("2" + "," + ""))) + "}"
        == "{[\"a\",\"b\"]\"x\",2,}";
  }

  // ---- Batch files ---------------------------------------------------------------------------------------------------

  datatype Transaction = Transaction(to: string, value: string, data: string)

  datatype Batch = Batch(
    version: string, chainId: string, createdAt: nat,
    name: string, description: string, safe: string, owner: string, checksum: PortalEvents.Option<string>,
    transactions: seq<Transaction>)

  function TransactionJson(t: Transaction): Json
  {
    Obj([Field("to", Str(t.to)), Field("value", Str(t.value)), Field("data", Str(t.data))])
  }

  function TransactionsJson(ts: seq<Transaction>): (items: seq<Json>)
    ensures |items| == |ts| && forall i :: 0 <= i < |ts| ==> items[i] == TransactionJson(ts[i])
  {
    seq(|ts|, i requires 0 <= i < |ts| => TransactionJson(ts[i]))
  }

  function MetaFields(b: Batch): seq<Field>
  {
    [Field("name", Str(b.name)), Field("description", Str(b.description)),
     Field("createdFromSafeAddress", Str(b.safe)), Field("createdFromOwnerAddress", Str(b.owner))]
    + (if b.checksum.Some? then [Field("checksum", Str(b.checksum.value))] else [])
  }

  function BatchFields(b: Batch, meta: seq<Field>): seq<Field>
  {
    [Field("version", Str(b.version)), Field("chainId", Str(b.chainId)), Field("createdAt", Number(PosInt(b.createdAt))),
     Field("meta", Obj(meta)), Field("transactions", Arr(TransactionsJson(b.transactions)))]
  }

  function Removed(fields: seq<Field>, key: string): seq<Field>
  {
    if fields == [] then []
    else if fields[0].key == key then Removed(fields[1..], key)
    else [fields[0]] + Removed(fields[1..], key)
  }

  /** Replace the value under `key`, or add it. */
  function Put(fields: seq<Field>, key: string, value: Json): seq<Field>
  {
    if fields == [] then [Field(key, value)]
    else if fields[0].key == key then [Field(key, value)] + fields[1..]
    else [fields[0]] + Put(fields[1..], key, value)
  }

  /** The batch without its checksum and with a null name: what the checksum hashes. */
  function Unsigned(b: Batch): Json
  {
    Obj(BatchFields(b, Put(Removed(MetaFields(b), "checksum"), "name", Null)))
  }

  method ChecksumPreimage(b: Batch) returns (text: string)
    ensures text == Ser(Unsigned(b))
  {
    var meta := MetaFields(b);
    meta := Removed(meta, "checksum");
    meta := Put(meta, "name", Null);
    text := SafeSerializeJson(Obj(BatchFields(b, meta)));
  }

  // ---- What the checksum determines ------------------------------------------------------------------------------------

  function BareMeta(b: Batch): seq<Field>
  {
    [Field("name", Null), Field("description", Str(b.description)),
     Field("createdFromSafeAddress", Str(b.safe)), Field("createdFromOwnerAddress", Str(b.owner))]
  }

  lemma {:induction false} RemovedAppend(a: seq<Field>, b: seq<Field>, key: string)
    ensures Removed(a + b, key) == Removed(a, key) + Removed(b, key)
  {
    if a == [] {
      assert a + b == b;
    } else {
      assert (a + b)[1..] == a[1..] + b;
      RemovedAppend(a[1..], b, key);
    }
  }

  lemma {:induction false} KeepsOthers(fields: seq<Field>, key: string)
    requires forall i :: 0 <= i < |fields| ==> fields[i].key != key
    ensures Removed(fields, key) == fields
  {
    if fields == [] {
    } else {
      KeepsOthers(fields[1..], key);
    }
  }

  lemma UnsignedMeta(b: Batch)
    ensures Put(Removed(MetaFields(b), "checksum"), "name", Null) == BareMeta(b)
  {
    var four := MetaFields(b)[..4];
    var rest := MetaFields(b)[4..];
    assert MetaFields(b) == four + rest;
    RemovedAppend(four, rest, "checksum");
    assert Removed(rest, "checksum") == [] by {
      if rest != [] {
        assert rest[1..] == [];
      }
    }
    KeepsOthers(four, "checksum");
    assert four + [] == four;
    assert Put(four, "name", Null) == [Field("name", Null)] + four[1..];
  }

  /** Objects listing the same keys in the same order are the same exactly when their values are. */
  lemma SamePointwise(f: seq<Field>, g: seq<Field>)
    requires DistinctKeys(f) && |f| == |g|
    requires forall i :: 0 <= i < |f| ==> f[i].key == g[i].key
    ensures Same(Obj(f), Obj(g)) <==> forall i :: 0 <= i < |f| ==> Same(f[i].value, g[i].value)
  {
  }

  lemma TransactionKeys(t: Transaction)
    ensures DistinctKeys(TransactionJson(t).fields)
  {
  }

  lemma SameStr(s: string, t: string)
    ensures Same(Str(s), Str(t)) <==> s == t
  {
  }

  lemma TransactionExactly(a: Transaction, b: Transaction)
    ensures WellFormed(TransactionJson(a))
    ensures Same(TransactionJson(a), TransactionJson(b)) <==> a == b
  {
    hide Same, DistinctKeys;
    var f, g := TransactionJson(a).fields, TransactionJson(b).fields;
    TransactionKeys(a);
    SamePointwise(f, g);
    SameStr(a.to, b.to);
    SameStr(a.value, b.value);
    SameStr(a.data, b.data);
    assert f[0].value == Str(a.to) && f[1].value == Str(a.value) && f[2].value == Str(a.data);
  }

  lemma TransactionsExactly(a: seq<Transaction>, b: seq<Transaction>)
    ensures WellFormed(Arr(TransactionsJson(a)))
    ensures Same(Arr(TransactionsJson(a)), Arr(TransactionsJson(b))) <==> a == b
  {
    forall i | 0 <= i < |a| ensures WellFormed(TransactionJson(a[i])) {
      TransactionExactly(a[i], a[i]);
    }
    if |a| == |b| {
      forall i | 0 <= i < |a|
        ensures Same(TransactionsJson(a)[i], TransactionsJson(b)[i]) <==> a[i] == b[i]
      {
        TransactionExactly(a[i], b[i]);
      }
    }
  }

  lemma MetaKeys(b: Batch)
    ensures DistinctKeys(BareMeta(b))
  {
  }

  lemma MetaWellFormed(b: Batch)
    ensures WellFormed(Obj(BareMeta(b)))
  {
    hide DistinctKeys;
    MetaKeys(b);
  }

  lemma MetaExactly(a: Batch, b: Batch)
    ensures Same(Obj(BareMeta(a)), Obj(BareMeta(b)))
       <==> a.description == b.description && a.safe == b.safe && a.owner == b.owner
  {
    var f, g := BareMeta(a), BareMeta(b);
    assert Same(f[0].value, g[0].value);
    hide Same, DistinctKeys, WellFormed;
    MetaKeys(a);
    SamePointwise(f, g);
    SameStr(a.description, b.description);
    SameStr(a.safe, b.safe);
    SameStr(a.owner, b.owner);
    assert f[1].value == Str(a.description) && f[2].value == Str(a.safe) && f[3].value == Str(a.owner);
  }

  /** Equal in every field except the name and the checksum itself. */
  predicate SameCommitment(a: Batch, b: Batch)
  {
    a == b.(name := a.name, checksum := a.checksum)
  }

  lemma BatchKeys(b: Batch)
    ensures DistinctKeys(BatchFields(b, BareMeta(b)))
  {
  }

  lemma BatchWellFormed(b: Batch)
    ensures WellFormed(Obj(BatchFields(b, BareMeta(b))))
  {
    hide DistinctKeys, BareMeta, Same;
    BatchKeys(b);
    MetaWellFormed(b);
    TransactionsExactly(b.transactions, b.transactions);
  }

  lemma BatchExactly(a: Batch, b: Batch)
    ensures Same(Obj(BatchFields(a, BareMeta(a))), Obj(BatchFields(b, BareMeta(b)))) <==> SameCommitment(a, b)
  {
    var f, g := BatchFields(a, BareMeta(a)), BatchFields(b, BareMeta(b));
    assert Same(f[2].value, g[2].value) <==> a.createdAt == b.createdAt;
    hide Same, DistinctKeys, BareMeta, WellFormed;
    BatchKeys(a);
    MetaExactly(a, b);
    TransactionsExactly(a.transactions, b.transactions);
    SamePointwise(f, g);
    SameStr(a.version, b.version);
    SameStr(a.chainId, b.chainId);
    assert f[0].value == Str(a.version) && f[1].value == Str(a.chainId) && f[3].value == Obj(BareMeta(a));
    assert f[4].value == Arr(TransactionsJson(a.transactions));
  }

  /** The checksum preimage determines every batch field except the name and the checksum. */
  lemma PreimageExactly(a: Batch, b: Batch)
    ensures Ser(Unsigned(a)) == Ser(Unsigned(b)) <==> SameCommitment(a, b)
  {
    UnsignedMeta(a);
    UnsignedMeta(b);
    BatchExactly(a, b);
    BatchWellFormed(a);
    BatchWellFormed(b);
    CanonicalTextExactly(Unsigned(a), Unsigned(b));
  }

  // ---- The hashed text ----------------------------------------------------------------------------------------------------

  /** Every text followed by a comma. */
  function Commas(texts: seq<string>): string
  {
    if texts == [] then [] else texts[0] + "," + Commas(texts[1..])
  }

  /** An object as it is hashed: the list of its keys, then the text of each value. */
  function ObjectText(keys: seq<string>, texts: seq<string>): string
  {
    "{" + ("[" + JoinKeys(keys) + "]" + Commas(texts)) + "}"
  }

  lemma {:induction false} ValuesText(f: seq<Field>, keys: seq<string>, texts: seq<string>)
    requires |keys| == |texts| && forall k :: k in keys ==> k in KeysOf(f)
    requires forall i :: 0 <= i < |keys| ==> keys[i] in keys && Ser(Lookup(f, keys[i])) == texts[i]
    ensures SerValues(f, keys) == Commas(texts)
    decreases |keys|
  {
    hide Ser, Lookup, KeysOf;
    if keys == [] {
    } else {
      ValuesText(f, keys[1..], texts[1..]);
    }
  }

  /** An object's text, given its keys in order and the text under each. */
  lemma ObjectTextOf(f: seq<Field>, keys: seq<string>, texts: seq<string>)
    requires IsSorted(keys) && multiset(keys) == multiset(KeysOf(f)) && |keys| == |texts|
    requires forall k :: k in keys ==> k in KeysOf(f)
    requires forall i :: 0 <= i < |keys| ==> keys[i] in keys && Ser(Lookup(f, keys[i])) == texts[i]
    ensures Ser(Obj(f)) == ObjectText(keys, texts)
  {
    SortSorts(KeysOf(f));
    SortedIsUnique(keys, Sort(KeysOf(f)));
    assert SortedKeys(f) == keys;
    hide Lookup, KeysOf, Sort, SortedKeys, IsSorted, SerValues, Commas, JoinKeys;
    ValuesText(f, keys, texts);
  }

  /** `order` lists the fields so that their keys are `keys`, and `back` finds each field again. */
  predicate Orders(f: seq<Field>, order: seq<nat>, back: seq<nat>, keys: seq<string>)
  {
    && |order| == |keys| && |back| == |f|
    && (forall i :: 0 <= i < |order| ==> order[i] < |f| && f[order[i]].key == keys[i])
    && (forall j :: 0 <= j < |f| ==> back[j] < |order| && order[back[j]] == j)
    && (forall i, j :: 0 <= i < j < |keys| ==> keys[i] != keys[j])
  }

  lemma OrderedKeys(f: seq<Field>, order: seq<nat>, back: seq<nat>, keys: seq<string>)
    requires DistinctKeys(f) && Orders(f, order, back, keys)
    ensures multiset(keys) == multiset(KeysOf(f)) && forall k :: k in keys ==> k in KeysOf(f)
  {
    forall k ensures k in keys <==> k in KeysOf(f) {
      if k in keys {
        var i :| 0 <= i < |keys| && keys[i] == k;
        assert KeysOf(f)[order[i]] == k;
      }
      if k in KeysOf(f) {
        var j :| 0 <= j < |f| && KeysOf(f)[j] == k;
        assert keys[back[j]] == k;
      }
    }
    forall k ensures multiset(keys)[k] == multiset(KeysOf(f))[k] {
      DistinctCounts(keys, k);
      DistinctCounts(KeysOf(f), k);
    }
  }

  lemma ObjectTextInOrder(f: seq<Field>, order: seq<nat>, back: seq<nat>, keys: seq<string>, texts: seq<string>)
    requires DistinctKeys(f) && Orders(f, order, back, keys) && IsSorted(keys) && |texts| == |keys|
    requires forall i :: 0 <= i < |order| ==> texts[i] == Ser(f[order[i]].value)
    ensures Ser(Obj(f)) == ObjectText(keys, texts)
  {
    OrderedKeys(f, order, back, keys);
    hide Ser, ObjectText, IsSorted, Lookup, KeysOf;
    forall i | 0 <= i < |keys| ensures keys[i] in keys && Ser(Lookup(f, keys[i])) == texts[i] {
      LookupAt(f, order[i]);
    }
    ObjectTextOf(f, keys, texts);
  }

  lemma LeqAt(a: string, b: string, i: nat)
    requires i < |a| && i < |b| && a[..i] == b[..i] && a[i] < b[i]
    ensures Leq(a, b)
  {
    LeqExactly(a, b);
  }

  lemma {:induction false} ChainIsSorted(keys: seq<string>)
    requires forall i :: 0 < i < |keys| ==> Leq(keys[i - 1], keys[i])
    ensures IsSorted(keys)
  {
    hide Leq;
    if keys == [] {
    } else {
      ChainIsSorted(keys[1..]);
      forall i | 0 < i < |keys| ensures Leq(keys[0], keys[i]) {
        if i > 1 {
          assert keys[1..][0] == keys[1] && keys[1..][i - 1] == keys[i];
          LeqTransitive(keys[0], keys[1], keys[i]);
        }
      }
    }
  }

  lemma TransactionKeysSorted()
    ensures IsSorted(["data", "to", "value"])
  {
    LeqAt("data", "to", 0);
    LeqAt("to", "value", 0);
    hide Leq;
    ChainIsSorted(["data", "to", "value"]);
  }

  lemma TransactionText(t: Transaction)
    ensures Ser(TransactionJson(t)) == ObjectText(["data", "to", "value"], [Quote(t.data), Quote(t.to), Quote(t.value)])
  {
    hide Quote, IsSorted, ObjectText, DistinctKeys;
    TransactionKeys(t);
    TransactionKeysSorted();
    ObjectTextInOrder(TransactionJson(t).fields, [2, 0, 1], [1, 2, 0], ["data", "to", "value"],
                      [Quote(t.data), Quote(t.to), Quote(t.value)]);
  }

  lemma OwnerBeforeSafe()
    ensures Leq("createdFromOwnerAddress", "createdFromSafeAddress")
  {
    hide Leq;
    var a, b := "createdFrom" + "OwnerAddress", "createdFrom" + "SafeAddress";
    assert a[..11] == "createdFrom" == b[..11] && a[11] == 'O' && b[11] == 'S';
    LeqAt(a, b, 11);
    assert a == "createdFromOwnerAddress" && b == "createdFromSafeAddress";
  }

  lemma MetaKeysSorted()
    ensures IsSorted(["createdFromOwnerAddress", "createdFromSafeAddress", "description", "name"])
  {
    hide Leq;
    OwnerBeforeSafe();
    LeqAt("createdFromSafeAddress", "description", 0);
    LeqAt("description", "name", 0);
    ChainIsSorted(["createdFromOwnerAddress", "createdFromSafeAddress", "description", "name"]);
  }

  lemma MetaText(b: Batch)
    ensures Ser(Obj(BareMeta(b)))
         == ObjectText(["createdFromOwnerAddress", "createdFromSafeAddress", "description", "name"],
                       [Quote(b.owner), Quote(b.safe), Quote(b.description), "null"])
  {
    hide Quote, IsSorted, ObjectText, DistinctKeys;
    MetaKeys(b);
    MetaKeysSorted();
    ObjectTextInOrder(BareMeta(b), [3, 2, 1, 0], [3, 2, 1, 0],
                      ["createdFromOwnerAddress", "createdFromSafeAddress", "description", "name"],
                      [Quote(b.owner), Quote(b.safe), Quote(b.description), "null"]);
  }

  /** The transactions, separated by commas. */
  function TransactionsText(ts: seq<Transaction>): string
  {
    if ts == [] then []
    else
      var first := ObjectText(["data", "to", "value"], [Quote(ts[0].data), Quote(ts[0].to), Quote(ts[0].value)]);
      if |ts| == 1 then first else first + "," + TransactionsText(ts[1..])
  }

  lemma {:induction false} ItemsText(ts: seq<Transaction>)
    ensures SerItems(TransactionsJson(ts)) == TransactionsText(ts)
  {
    hide Ser, TransactionJson, ObjectText, Quote;
    if ts == [] {
    } else {
      TransactionText(ts[0]);
      ItemsText(ts[1..]);
      assert TransactionsJson(ts)[1..] == TransactionsJson(ts[1..]);
    }
  }

  lemma BatchKeysSorted()
    ensures IsSorted(["chainId", "createdAt", "meta", "transactions", "version"])
  {
    LeqAt("chainId", "createdAt", 1);
    LeqAt("createdAt", "meta", 0);
    LeqAt("meta", "transactions", 0);
    LeqAt("transactions", "version", 0);
    hide Leq;
    ChainIsSorted(["chainId", "createdAt", "meta", "transactions", "version"]);
  }

  lemma BatchOrder(b: Batch, meta: seq<Field>)
    ensures Orders(BatchFields(b, meta), [1, 2, 3, 4, 0], [4, 0, 1, 2, 3],
                   ["chainId", "createdAt", "meta", "transactions", "version"])
  {
  }

  lemma BatchText(b: Batch, meta: string, items: string)
    requires Ser(Obj(BareMeta(b))) == meta && SerItems(TransactionsJson(b.transactions)) == items
    requires DistinctKeys(BatchFields(b, BareMeta(b)))
    requires IsSorted(["chainId", "createdAt", "meta", "transactions", "version"])
    ensures Ser(Obj(BatchFields(b, BareMeta(b))))
         == ObjectText(["chainId", "createdAt", "meta", "transactions", "version"],
                       [Quote(b.chainId), Digits(b.createdAt), meta, "[" + items + "]", Quote(b.version)])
  {
    hide Quote, IsSorted, ObjectText, DistinctKeys, Digits, BareMeta, SerItems;
    BatchOrder(b, BareMeta(b));
    hide Orders;
    ObjectTextInOrder(BatchFields(b, BareMeta(b)), [1, 2, 3, 4, 0], [4, 0, 1, 2, 3],
                      ["chainId", "createdAt", "meta", "transactions", "version"],
                      [Quote(b.chainId), Digits(b.createdAt), meta, "[" + items + "]", Quote(b.version)]);
  }

  /** The hashed text of every batch: its keys, their order, and what is written under each. */
  lemma PreimageText(b: Batch)
    ensures var meta := ObjectText(["createdFromOwnerAddress", "createdFromSafeAddress", "description", "name"],
                                   [Quote(b.owner), Quote(b.safe), Quote(b.description), "null"]);
            Ser(Unsigned(b))
            == ObjectText(["chainId", "createdAt", "meta", "transactions", "version"],
                          [Quote(b.chainId), Digits(b.createdAt), meta, "[" + TransactionsText(b.transactions) + "]",
                           Quote(b.version)])
  {
    UnsignedMeta(b);
    MetaText(b);
    ItemsText(b.transactions);
    BatchKeys(b);
    BatchKeysSorted();
    BatchText(b, Ser(Obj(BareMeta(b))), TransactionsText(b.transactions));
    hide Ser, ObjectText, Quote, Digits;
  }
}
