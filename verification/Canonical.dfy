/** Requests as JSON values, and the canonical form behind their fingerprints. */
module Canonical {
  import opened Base

  datatype Json = Null | Bool(b: bool) | Num(n: int) | Str(s: string) | Arr(items: Items) | Obj(fields: Fields)

  datatype Items = NoItems | Item(head: Json, tail: Items)

  /** The properties of an object in the order they were created. */
  datatype Fields = NoFields | Field(key: string, value: Json, rest: Fields)

  predicate Less(a: string, b: string) {
    b != "" && (a == "" || a[0] < b[0] || (a[0] == b[0] && Less(a[1..], b[1..])))
  }

  /** At `k` the texts first differ: the first one ends there, or has the smaller character. */
  ghost predicate ComesFirst(a: string, b: string, k: nat) {
    k <= |a| && k < |b| && a[..k] == b[..k] && (k == |a| || a[k] < b[k])
  }

  /** This is the dictionary order by code unit. */
  lemma {:induction false} LessExactly(a: string, b: string)
    ensures Less(a, b) <==> exists k: nat :: ComesFirst(a, b, k)
  {
    if a != "" && b != "" {
      LessExactly(a[1..], b[1..]);
      if a[0] == b[0] && Less(a[1..], b[1..]) {
        var k: nat :| ComesFirst(a[1..], b[1..], k);
        assert a == [a[0]] + a[1..] && b == [b[0]] + b[1..];
        assert a[..k + 1] == [a[0]] + a[1..][..k] && b[..k + 1] == [b[0]] + b[1..][..k];
        assert ComesFirst(a, b, k + 1);
      } else if a[0] < b[0] {
        assert ComesFirst(a, b, 0);
      }
      forall k: nat | ComesFirst(a, b, k) ensures Less(a, b) {
        if k > 0 {
          assert a[0] == a[..k][0] && b[0] == b[..k][0];
          assert a[1..][..k - 1] == a[..k][1..] && b[1..][..k - 1] == b[..k][1..];
          assert ComesFirst(a[1..], b[1..], k - 1);
        }
      }
    } else if b != "" {
      assert ComesFirst(a, b, 0);
    }
  }

  lemma {:induction false} LessIsTotal(a: string, b: string)
    ensures Less(a, b) || a == b || Less(b, a)
    ensures !(Less(a, b) && Less(b, a)) && !Less(a, a)
  {
    if a != "" && b != "" {
      LessIsTotal(a[1..], b[1..]);
      assert a == [a[0]] + a[1..] && b == [b[0]] + b[1..];
    }
    if a != "" {
      LessIsTotal(a[1..], a[1..]);
    }
  }

  lemma {:induction false} LessIsTransitive(a: string, b: string, c: string)
    requires Less(a, b) && Less(b, c)
    ensures Less(a, c)
  {
    if a != "" && a[0] == b[0] == c[0] {
      LessIsTransitive(a[1..], b[1..], c[1..]);
    }
  }

  // ----- The canonical form -----

  function Canonicalize(j: Json): Json {
    match j
    case Arr(items) => Arr(CanonicalItems(items))
    case Obj(fields) => Obj(CanonicalFields(fields))
    case _ => j
  }

  function CanonicalItems(items: Items): Items {
    match items
    case NoItems => NoItems
    case Item(head, tail) => Item(Canonicalize(head), CanonicalItems(tail))
  }

  /** The canonical values, sorted by key. */
  function CanonicalFields(fields: Fields): Fields {
    match fields
    case NoFields => NoFields
    case Field(key, value, rest) => Insert(key, Canonicalize(value), CanonicalFields(rest))
  }

  function Insert(key: string, value: Json, fields: Fields): Fields {
    if fields.NoFields? || Less(key, fields.key) then Field(key, value, fields)
    else Field(fields.key, fields.value, Insert(key, value, fields.rest))
  }

  // ----- Equality up to the order of properties -----

  function Size(j: Json): nat {
    match j
    case Arr(items) => 1 + ItemsSize(items)
    case Obj(fields) => 1 + FieldsSize(fields)
    case _ => 1
  }

  function ItemsSize(items: Items): nat {
    match items
    case NoItems => 0
    case Item(head, tail) => 1 + Size(head) + ItemsSize(tail)
  }

  function FieldsSize(fields: Fields): nat {
    match fields
    case NoFields => 0
    case Field(_, value, rest) => 1 + Size(value) + FieldsSize(rest)
  }

  function Lookup(fields: Fields, key: string): (r: Option<Json>)
    ensures r.Some? ==> Size(r.value) < 1 + FieldsSize(fields)
  {
    match fields
    case NoFields => None
    case Field(k, value, rest) => if k == key then Some(value) else Lookup(rest, key)
  }

  /** No object has two properties of one name. */
  predicate WellFormed(j: Json) {
    match j
    case Arr(items) => ItemsWellFormed(items)
    case Obj(fields) => FieldsWellFormed(fields)
    case _ => true
  }

  predicate ItemsWellFormed(items: Items) {
    items.Item? ==> WellFormed(items.head) && ItemsWellFormed(items.tail)
  }

  predicate FieldsWellFormed(fields: Fields) {
    fields.Field? ==>
      WellFormed(fields.value) && Lookup(fields.rest, fields.key).None? && FieldsWellFormed(fields.rest)
  }

  /** The same JSON value: arrays agree item by item, objects property by property. */
  ghost predicate Same(a: Json, b: Json)
    decreases Size(a)
  {
    match (a, b)
    case (Arr(x), Arr(y)) => SameItems(x, y)
    case (Obj(x), Obj(y)) => SameFields(x, y)
    case _ => a == b
  }

  ghost predicate SameItems(a: Items, b: Items)
    decreases ItemsSize(a)
  {
    match (a, b)
    case (Item(x, s), Item(y, t)) => Same(x, y) && SameItems(s, t)
    case _ => a == b
  }

  ghost predicate SameFields(a: Fields, b: Fields)
    decreases FieldsSize(a), 1
  {
    forall key :: SameProperty(a, b, key)
  }

  ghost predicate SameProperty(a: Fields, b: Fields, key: string)
    decreases FieldsSize(a), 0
  {
    var x, y := Lookup(a, key), Lookup(b, key);
    if x.Some? && y.Some? then Same(x.value, y.value) else x.None? && y.None?
  }

  // ----- Canonical forms are equal exactly for the same values -----

  function Mapped(o: Option<Json>): Option<Json> {
    if o.Some? then Some(Canonicalize(o.value)) else None
  }

  lemma {:induction false} LookupInserted(key: string, value: Json, fields: Fields, k: string)
    requires Lookup(fields, key).None?
    ensures Lookup(Insert(key, value, fields), k) == if k == key then Some(value) else Lookup(fields, k)
  {
    if !(fields.NoFields? || Less(key, fields.key)) {
      LookupInserted(key, value, fields.rest, k);
    }
  }

  lemma {:induction false} LookupCanonical(fields: Fields, k: string)
    requires FieldsWellFormed(fields)
    ensures Lookup(CanonicalFields(fields), k) == Mapped(Lookup(fields, k))
  {
    if fields.Field? {
      LookupCanonical(fields.rest, k);
      LookupCanonical(fields.rest, fields.key);
      LookupInserted(fields.key, Canonicalize(fields.value), CanonicalFields(fields.rest), k);
    }
  }

  /** Strictly ascending keys. */
  predicate Ascending(fields: Fields) {
    fields.Field? && fields.rest.Field? ==> Less(fields.key, fields.rest.key) && Ascending(fields.rest)
  }

  lemma {:induction false} InsertAscends(key: string, value: Json, fields: Fields)
    requires Ascending(fields) && Lookup(fields, key).None?
    ensures Ascending(Insert(key, value, fields))
  {
    if fields.Field? && !Less(key, fields.key) {
      LessIsTotal(key, fields.key);
      InsertAscends(key, value, fields.rest);
    }
  }

  lemma {:induction false} CanonicalAscends(fields: Fields)
    requires FieldsWellFormed(fields)
    ensures Ascending(CanonicalFields(fields))
  {
    if fields.Field? {
      CanonicalAscends(fields.rest);
      LookupCanonical(fields.rest, fields.key);
      InsertAscends(fields.key, Canonicalize(fields.value), CanonicalFields(fields.rest));
    }
  }

  lemma {:induction false} NothingBelowFirst(fields: Fields, k: string)
    requires Ascending(fields) && fields.Field? && Less(k, fields.key)
    ensures Lookup(fields, k).None?
  {
    LessIsTotal(k, fields.key);
    if fields.rest.Field? {
      LessIsTransitive(k, fields.key, fields.rest.key);
      NothingBelowFirst(fields.rest, k);
    }
  }

  lemma {:induction false} FirstNotInRest(fields: Fields)
    requires Ascending(fields) && fields.Field?
    ensures Lookup(fields.rest, fields.key).None? && Ascending(fields.rest)
  {
    if fields.rest.Field? {
      NothingBelowFirst(fields.rest, fields.key);
    }
  }

  /** Ascending properties are determined by what they map each key to. */
  lemma {:induction false} AscendingUnique(a: Fields, b: Fields)
    requires Ascending(a) && Ascending(b) && forall k :: Lookup(a, k) == Lookup(b, k)
    ensures a == b
  {
    assert b.Field? ==> Lookup(a, b.key) == Lookup(b, b.key);
    assert a.Field? ==> Lookup(a, a.key) == Lookup(b, a.key);
    if a.Field? && b.Field? {
      SameFirstKey(a, b);
      FirstNotInRest(a);
      FirstNotInRest(b);
      forall k ensures Lookup(a.rest, k) == Lookup(b.rest, k) {
        assert Lookup(a, k) == Lookup(b, k);
      }
      AscendingUnique(a.rest, b.rest);
    }
  }

  lemma {:induction false} SameFirstKey(a: Fields, b: Fields)
    requires Ascending(a) && Ascending(b) && a.Field? && b.Field? && forall k :: Lookup(a, k) == Lookup(b, k)
    ensures a.key == b.key
  {
    LessIsTotal(a.key, b.key);
    assert Lookup(a, a.key) == Lookup(b, a.key) && Lookup(a, b.key) == Lookup(b, b.key);
    if Less(a.key, b.key) {
      NothingBelowFirst(b, a.key);
    } else if Less(b.key, a.key) {
      NothingBelowFirst(a, b.key);
    }
  }

  lemma {:induction false} LookupWellFormed(fields: Fields, k: string)
    requires FieldsWellFormed(fields) && Lookup(fields, k).Some?
    ensures WellFormed(Lookup(fields, k).value)
  {
    if fields.key != k {
      LookupWellFormed(fields.rest, k);
    }
  }

  /** Two property lists map every key to values of one canonical form. */
  ghost predicate AgreeCanonically(a: Fields, b: Fields) {
    forall k :: AgreeOn(a, b, k)
  }

  ghost predicate AgreeOn(a: Fields, b: Fields, k: string) {
    Mapped(Lookup(a, k)) == Mapped(Lookup(b, k))
  }

  lemma {:induction false} CanonicalFieldsExactly(a: Fields, b: Fields)
    requires FieldsWellFormed(a) && FieldsWellFormed(b)
    ensures CanonicalFields(a) == CanonicalFields(b) <==> AgreeCanonically(a, b)
  {
    var x, y := CanonicalFields(a), CanonicalFields(b);
    forall k
      ensures Lookup(x, k) == Lookup(y, k) <==> AgreeOn(a, b, k)
    {
      LookupCanonical(a, k);
      LookupCanonical(b, k);
    }
    if AgreeCanonically(a, b) {
      CanonicalAscends(a);
      CanonicalAscends(b);
      forall k ensures Lookup(x, k) == Lookup(y, k) {
        assert AgreeOn(a, b, k);
      }
      AscendingUnique(x, y);
    } else {
      var k :| !AgreeOn(a, b, k);
      assert Lookup(x, k) != Lookup(y, k);
    }
  }

  /** Two requests have the same canonical form exactly when they are the same JSON value, in
      whatever order their properties were given: nothing else is identified, nothing less. */
  lemma {:induction false} CanonicalExactly(a: Json, b: Json)
    requires WellFormed(a) && WellFormed(b)
    ensures Canonicalize(a) == Canonicalize(b) <==> Same(a, b)
    decreases Size(a), 0
  {
    if a.Arr? && b.Arr? {
      CanonicalItemsExactly(a.items, b.items);
    } else if a.Obj? && b.Obj? {
      CanonicalFieldsExactly(a.fields, b.fields);
      FieldsExactly(a.fields, b.fields);
    }
  }

  lemma {:induction false} FieldsExactly(a: Fields, b: Fields)
    requires FieldsWellFormed(a) && FieldsWellFormed(b)
    ensures AgreeCanonically(a, b) <==> SameFields(a, b)
    decreases FieldsSize(a), 3
  {
    forall k ensures AgreeOn(a, b, k) <==> SameProperty(a, b, k) {
      PropertyExactly(a, b, k);
    }
    if AgreeCanonically(a, b) {
      forall k ensures SameProperty(a, b, k) {
        assert AgreeOn(a, b, k);
      }
    } else {
      var k :| !AgreeOn(a, b, k);
      assert !SameProperty(a, b, k);
    }
  }

  lemma {:induction false} PropertyExactly(a: Fields, b: Fields, k: string)
    requires FieldsWellFormed(a) && FieldsWellFormed(b)
    ensures AgreeOn(a, b, k) <==> SameProperty(a, b, k)
    decreases FieldsSize(a), 2
  {
    if Lookup(a, k).Some? && Lookup(b, k).Some? {
      LookupWellFormed(a, k);
      LookupWellFormed(b, k);
      CanonicalExactly(Lookup(a, k).value, Lookup(b, k).value);
    }
  }

  lemma {:induction false} CanonicalItemsExactly(a: Items, b: Items)
    requires ItemsWellFormed(a) && ItemsWellFormed(b)
    ensures CanonicalItems(a) == CanonicalItems(b) <==> SameItems(a, b)
    decreases ItemsSize(a), 2
  {
    if a.Item? && b.Item? {
      CanonicalExactly(a.head, b.head);
      CanonicalItemsExactly(a.tail, b.tail);
    }
  }
}
