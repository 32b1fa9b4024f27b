/** The canonical text determines the value, and the value determines the text. */
module CanonicalJson {
  import opened SafeJson

  // ---- Well-formed values and sameness ---------------------------------------------------------------------------

  predicate DistinctKeys(fields: seq<Field>)
  {
    forall i, j :: 0 <= i < j < |fields| ==> fields[i].key != fields[j].key
  }

  /** Float texts are numeric, start like a number and are not integer texts. */
  predicate FloatText(text: string)
  {
    && text != [] && (IsDigit(text[0]) || text[0] == '-')
    && (forall i :: 0 <= i < |text| ==> IsNumeric(text[i]))
    && (exists i :: 0 <= i < |text| && (text[i] == '.' || text[i] == 'e'))
  }

  predicate NumOk(n: Num)
  {
    (n.NegInt? ==> n.magnitude > 0) && (n.Float? ==> FloatText(n.text))
  }

  /** Objects never hold a key twice, as in every JSON map. */
  predicate WellFormed(v: Json)
  {
    match v
    case Number(n) => NumOk(n)
    case Arr(items) => forall i :: 0 <= i < |items| ==> WellFormed(items[i])
    case Obj(fields) => DistinctKeys(fields) && forall i :: 0 <= i < |fields| ==> WellFormed(fields[i].value)
    case _ => true
  }

  /** Equal up to the order of object fields. */
  predicate Same(a: Json, b: Json)
    decreases a
  {
    match (a, b)
    case (Arr(x), Arr(y)) => |x| == |y| && forall i :: 0 <= i < |x| ==> Same(x[i], y[i])
    case (Obj(f), Obj(g)) =>
      && (forall i :: 0 <= i < |g| ==> g[i].key in KeysOf(f))
      && (forall i :: 0 <= i < |f| ==> f[i].key in KeysOf(g) && Same(f[i].value, Lookup(g, f[i].key)))
    case _ => a == b
  }

  // ---- Order of keys --------------------------------------------------------------------------------------------------

  lemma {:induction false} LeqTotal(a: string, b: string)
    ensures Leq(a, b) || Leq(b, a)
    ensures Leq(a, b) && Leq(b, a) ==> a == b
  {
    if a == [] || b == [] {
    } else {
      LeqTotal(a[1..], b[1..]);
      if a[0] == b[0] && a[1..] == b[1..] {
        assert a == [a[0]] + a[1..] && b == [b[0]] + b[1..];
      }
    }
  }

  lemma {:induction false} LeqTransitive(a: string, b: string, c: string)
    requires Leq(a, b) && Leq(b, c)
    ensures Leq(a, c)
  {
    if a != [] && a[0] == b[0] == c[0] {
      LeqTransitive(a[1..], b[1..], c[1..]);
    }
  }

  /** Strings are ordered by their first difference, and a prefix comes first. */
  lemma {:induction false} LeqExactly(a: string, b: string)
    ensures Leq(a, b) <==>
      exists i :: 0 <= i <= |a| && i <= |b| && a[..i] == b[..i] && (i == |a| || (i < |b| && a[i] < b[i]))
  {
    if a == [] || b == [] || a[0] != b[0] {
      assert a[..0] == b[..0];
      assert forall i :: 0 < i <= |a| && i <= |b| ==> a[..i][0] == a[0] && b[..i][0] == b[0];
    } else {
      LeqExactly(a[1..], b[1..]);
      if Leq(a[1..], b[1..]) {
        var i :| 0 <= i <= |a[1..]| && i <= |b[1..]| && a[1..][..i] == b[1..][..i]
                 && (i == |a[1..]| || (i < |b[1..]| && a[1..][i] < b[1..][i]));
        assert a[..i + 1] == [a[0]] + a[1..][..i] && b[..i + 1] == [b[0]] + b[1..][..i];
        assert a[..i + 1] == b[..i + 1];
      }
      if i: nat :| i <= |a| && i <= |b| && a[..i] == b[..i] && (i == |a| || (i < |b| && a[i] < b[i])) {
        assert i > 0;
        assert a[1..][..i - 1] == a[..i][1..] == b[..i][1..] == b[1..][..i - 1];
      }
    }
  }

  predicate IsSorted(keys: seq<string>)
  {
    keys == [] || ((forall i :: 0 < i < |keys| ==> Leq(keys[0], keys[i])) && IsSorted(keys[1..]))
  }

  lemma {:induction false} InsertSorts(key: string, keys: seq<string>)
    requires IsSorted(keys)
    ensures IsSorted(Insert(key, keys))
  {
    if keys == [] {
      assert [key][1..] == [];
    } else if Leq(key, keys[0]) {
      var r := [key] + keys;
      assert r[1..] == keys;
      forall i | 0 < i < |r| ensures Leq(r[0], r[i]) {
        if i > 1 {
          LeqTransitive(key, keys[0], keys[i - 1]);
        }
      }
    } else {
      LeqTotal(key, keys[0]);
      InsertSorts(key, keys[1..]);
      var rest := Insert(key, keys[1..]);
      var r := [keys[0]] + rest;
      assert r[1..] == rest;
      forall i | 0 < i < |r| ensures Leq(r[0], r[i]) {
        assert rest[i - 1] in multiset(rest);
        if rest[i - 1] != key {
          assert rest[i - 1] in keys[1..];
        }
      }
    }
  }

  lemma {:induction false} SortSorts(keys: seq<string>)
    ensures IsSorted(Sort(keys))
  {
    if keys == [] {
    } else {
      SortSorts(keys[1..]);
      InsertSorts(keys[0], Sort(keys[1..]));
    }
  }

  lemma SortedHeadsAgree(a: seq<string>, b: seq<string>)
    requires IsSorted(a) && IsSorted(b) && multiset(a) == multiset(b) && a != [] && b != []
    ensures a[0] == b[0]
  {
    hide Leq;
    assert a[0] in multiset(b) && b[0] in multiset(a);
    var i :| 0 <= i < |b| && b[i] == a[0];
    var j :| 0 <= j < |a| && a[j] == b[0];
    LeqTotal(a[0], b[0]);
  }

  lemma {:induction false} SortedIsUnique(a: seq<string>, b: seq<string>)
    requires IsSorted(a) && IsSorted(b) && multiset(a) == multiset(b)
    ensures a == b
  {
    hide Leq;
    assert |a| == |multiset(a)| == |b|;
    if a == [] {
    } else {
      SortedHeadsAgree(a, b);
      assert a == [a[0]] + a[1..] && b == [b[0]] + b[1..];
      assert multiset(a[1..]) == multiset(a) - multiset{a[0]};
      assert multiset(b[1..]) == multiset(b) - multiset{b[0]};
      SortedIsUnique(a[1..], b[1..]);
    }
  }

  lemma {:induction false} LookupAt(fields: seq<Field>, i: nat)
    requires i < |fields| && DistinctKeys(fields)
    ensures fields[i].key in KeysOf(fields) && Lookup(fields, fields[i].key) == fields[i].value
  {
  }

  lemma {:induction false} DistinctCounts(keys: seq<string>, k: string)
    requires forall i, j :: 0 <= i < j < |keys| ==> keys[i] != keys[j]
    ensures multiset(keys)[k] == if k in keys then 1 else 0
  {
    if keys == [] {
    } else {
      var n := |keys| - 1;
      DistinctCounts(keys[..n], k);
      assert keys == keys[..n] + [keys[n]];
    }
  }

  /** Objects with the same keys list them in the same order. */
  lemma SameKeysSortAlike(f: seq<Field>, g: seq<Field>)
    requires DistinctKeys(f) && DistinctKeys(g)
    requires forall k :: k in KeysOf(f) <==> k in KeysOf(g)
    ensures SortedKeys(f) == SortedKeys(g)
  {
    forall k ensures multiset(KeysOf(f))[k] == multiset(KeysOf(g))[k] {
      DistinctCounts(KeysOf(f), k);
      DistinctCounts(KeysOf(g), k);
    }
    assert multiset(KeysOf(f)) == multiset(KeysOf(g));
    SortSorts(KeysOf(f));
    SortSorts(KeysOf(g));
    SortedIsUnique(Sort(KeysOf(f)), Sort(KeysOf(g)));
  }

  // ---- The canonical form --------------------------------------------------------------------------------------------------

  predicate AllWellFormed(items: seq<Json>)
  {
    forall i :: 0 <= i < |items| ==> WellFormed(items[i])
  }

  predicate FieldsWellFormed(fields: seq<Field>)
  {
    DistinctKeys(fields) && forall i :: 0 <= i < |fields| ==> WellFormed(fields[i].value)
  }

  lemma LookupWellFormed(f: seq<Field>, key: string)
    requires FieldsWellFormed(f) && key in KeysOf(f)
    ensures WellFormed(Lookup(f, key))
  {
  }

  lemma SameFromLookups(f: seq<Field>, g: seq<Field>, keys: seq<string>)
    requires DistinctKeys(f) && DistinctKeys(g)
    requires forall k :: (k in keys <==> k in KeysOf(f)) && (k in keys <==> k in KeysOf(g))
    requires forall k :: k in keys ==> Same(Lookup(f, k), Lookup(g, k))
    ensures Same(Obj(f), Obj(g))
  {
    hide Lookup, KeysOf, DistinctKeys;
    forall i | 0 <= i < |g| ensures g[i].key in KeysOf(f) {
      LookupAt(g, i);
    }
    forall i | 0 <= i < |f| ensures f[i].key in KeysOf(g) && Same(f[i].value, Lookup(g, f[i].key)) {
      LookupAt(f, i);
    }
  }

  function CanonFields(fields: seq<Field>, keys: seq<string>): (r: seq<Field>)
    requires forall k :: k in keys ==> k in KeysOf(fields)
    ensures |r| == |keys|
    ensures forall i :: 0 <= i < |keys| ==> keys[i] in keys && r[i] == Field(keys[i], Canon(Lookup(fields, keys[i])))
    decreases fields, 0, |keys|
  {
    if keys == [] then []
    else [Field(keys[0], Canon(Lookup(fields, keys[0])))] + CanonFields(fields, keys[1..])
  }

  /** The same value with every object's fields in canonical order. */
  function Canon(v: Json): Json
    decreases v, 1
  {
    match v
    case Arr(items) => Arr(CanonItems(items))
    case Obj(fields) => Obj(CanonFields(fields, SortedKeys(fields)))
    case _ => v
  }

  function CanonItems(items: seq<Json>): (r: seq<Json>)
    ensures |r| == |items| && forall i :: 0 <= i < |items| ==> r[i] == Canon(items[i])
    decreases items, 0
  {
    if items == [] then [] else [Canon(items[0])] + CanonItems(items[1..])
  }

  lemma {:induction false} CanonIsSame(v: Json)
    requires WellFormed(v)
    ensures Same(Canon(v), v)
    decreases v, 1
  {
    hide SortedKeys, CanonFields, Lookup, KeysOf, DistinctKeys;
    match v
    case Arr(items) =>
      forall i | 0 <= i < |items| ensures Same(Canon(items[i]), items[i]) { CanonIsSame(items[i]); }
    case Obj(f) => CanonObjectIsSame(f);
    case _ =>
  }

  lemma {:induction false} CanonObjectIsSame(f: seq<Field>)
    requires FieldsWellFormed(f)
    ensures Same(Canon(Obj(f)), Obj(f))
    decreases f, 0
  {
    hide WellFormed, FieldsWellFormed, Lookup, SortedKeys;
    var keys := SortedKeys(f);
    var canon := CanonFields(f, keys);
    hide CanonFields;
    assert Canon(Obj(f)) == Obj(canon);
    hide Canon;
    forall i | 0 <= i < |canon| ensures canon[i].key in KeysOf(f) && Same(canon[i].value, Lookup(f, canon[i].key)) {
      assert keys[i] in keys;
      LookupWellFormed(f, keys[i]);
      CanonIsSame(Lookup(f, keys[i]));
    }
    forall i | 0 <= i < |f| ensures f[i].key in KeysOf(canon) {
      assert KeysOf(f)[i] in keys;
      var j :| 0 <= j < |keys| && keys[j] == f[i].key;
      assert KeysOf(canon)[j] == f[i].key;
    }
  }

  /** Canonical objects that are equal list the same keys, with equal canonical values. */
  lemma CanonFieldsDecide(f: seq<Field>, g: seq<Field>)
    requires CanonFields(f, SortedKeys(f)) == CanonFields(g, SortedKeys(g))
    ensures SortedKeys(f) == SortedKeys(g)
    ensures forall k :: k in SortedKeys(f) ==> k in KeysOf(f) && k in KeysOf(g) && Canon(Lookup(f, k)) == Canon(Lookup(g, k))
  {
    hide CanonFields, Canon, Lookup, SortedKeys, KeysOf;
    var ks, ls := SortedKeys(f), SortedKeys(g);
    var cf, cg := CanonFields(f, ks), CanonFields(g, ls);
    forall i | 0 <= i < |ks| ensures ks[i] == ls[i] {
      assert cf[i].key == ks[i] && cg[i].key == ls[i];
    }
    forall k | k in ks ensures k in KeysOf(f) && k in KeysOf(g) && Canon(Lookup(f, k)) == Canon(Lookup(g, k)) {
      var i :| 0 <= i < |ks| && ks[i] == k;
      assert cf[i] == cg[i];
    }
  }

  /** Values with one canonical form are the same. */
  lemma {:induction false} CanonDecides(a: Json, b: Json)
    requires WellFormed(a) && WellFormed(b) && Canon(a) == Canon(b)
    ensures Same(a, b)
    decreases a, 1
  {
    hide SortedKeys, CanonFields, Lookup, KeysOf, DistinctKeys;
    match a
    case Arr(p) =>
      forall i | 0 <= i < |p| ensures Same(p[i], b.items[i]) {
        assert CanonItems(p)[i] == CanonItems(b.items)[i];
        CanonDecides(p[i], b.items[i]);
      }
    case Obj(f) => CanonObjectDecides(f, b.fields);
    case _ =>
  }

  lemma DistinctFields(f: seq<Field>)
    requires FieldsWellFormed(f)
    ensures DistinctKeys(f)
  {
  }

  lemma {:induction false} CanonObjectDecides(f: seq<Field>, g: seq<Field>)
    requires FieldsWellFormed(f) && FieldsWellFormed(g) && Canon(Obj(f)) == Canon(Obj(g))
    ensures Same(Obj(f), Obj(g))
    decreases f, 0
  {
    hide WellFormed, Lookup, SortedKeys, CanonFields, KeysOf, Same, DistinctKeys;
    CanonFieldsDecide(f, g);
    hide Canon, FieldsWellFormed;
    forall k | k in SortedKeys(f) ensures Same(Lookup(f, k), Lookup(g, k)) {
      LookupWellFormed(f, k);
      LookupWellFormed(g, k);
      CanonDecides(Lookup(f, k), Lookup(g, k));
    }
    assert DistinctKeys(f) && DistinctKeys(g) by { DistinctFields(f); DistinctFields(g); }
    SameFromLookups(f, g, SortedKeys(f));
  }

  // ---- The value determines the text ------------------------------------------------------------------------------------

  /** Objects that are the same have the same keys, with the same values under them. */
  lemma LookupsFromSame(f: seq<Field>, g: seq<Field>)
    requires DistinctKeys(f) && Same(Obj(f), Obj(g))
    ensures forall k :: k in KeysOf(f) <==> k in KeysOf(g)
    ensures forall k :: k in KeysOf(f) ==> Same(Lookup(f, k), Lookup(g, k))
  {
    hide Lookup, DistinctKeys;
    forall k | k in KeysOf(f) ensures k in KeysOf(g) && Same(Lookup(f, k), Lookup(g, k)) {
      var i :| 0 <= i < |f| && f[i].key == k;
      LookupAt(f, i);
    }
    forall k | k in KeysOf(g) ensures k in KeysOf(f) {
      var i :| 0 <= i < |g| && g[i].key == k;
    }
  }

  lemma {:induction false} SameValuesText(f: seq<Field>, g: seq<Field>, keys: seq<string>)
    requires FieldsWellFormed(f) && FieldsWellFormed(g)
    requires forall k :: k in keys ==> k in KeysOf(f) && k in KeysOf(g)
    requires forall k :: k in keys ==> Same(Lookup(f, k), Lookup(g, k))
    ensures SerValues(f, keys) == SerValues(g, keys)
    decreases f, 0, |keys|
  {
    if keys == [] {
    } else {
      SameText(Lookup(f, keys[0]), Lookup(g, keys[0]));
      SameValuesText(f, g, keys[1..]);
    }
  }

  lemma {:induction false} SameObjectText(f: seq<Field>, g: seq<Field>)
    requires FieldsWellFormed(f) && FieldsWellFormed(g) && Same(Obj(f), Obj(g))
    ensures Ser(Obj(f)) == Ser(Obj(g))
    decreases f, 2
  {
    hide Same, SortedKeys, JoinKeys, SerValues, Lookup, KeysOf, DistinctKeys, WellFormed;
    LookupsFromSame(f, g);
    SameKeysSortAlike(f, g);
    SameValuesText(f, g, SortedKeys(f));
  }

  lemma {:induction false} SameText(a: Json, b: Json)
    requires WellFormed(a) && WellFormed(b) && Same(a, b)
    ensures Ser(a) == Ser(b)
    decreases a, 1
  {
    hide SortedKeys, JoinKeys, Lookup, KeysOf, DistinctKeys, NumText, Quote;
    match (a, b)
    case (Arr(p), Arr(q)) => SameItemsText(p, q);
    case (Obj(f), Obj(g)) => SameObjectText(f, g);
    case _ =>
  }

  lemma {:induction false} SameItemsText(p: seq<Json>, q: seq<Json>)
    requires AllWellFormed(p) && AllWellFormed(q) && |p| == |q|
    requires forall i :: 0 <= i < |p| ==> Same(p[i], q[i])
    ensures SerItems(p) == SerItems(q)
    decreases p, 0
  {
    if p == [] {
    } else {
      SameText(p[0], q[0]);
      SameItemsText(p[1..], q[1..]);
    }
  }
}
