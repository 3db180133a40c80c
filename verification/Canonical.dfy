/**
 `canonicalize` (idempotency-service.ts): a normal form of JSON trees under reordering of object keys.

 An object is the sequence of its entries in the order `Object.keys` enumerates them. Assigning to `__proto__` creates
 no property, so that key alone is lost.
 */
module Canonical {
  import opened Decimals

  datatype Json =
    | JNull
    | JBool(b: bool)
    | JNumber(n: int)
    | JString(s: Text)
    | JArray(items: seq<Json>)
    | JObject(entries: seq<(Text, Json)>)

  type Entries = seq<(Text, Json)>

  const PROTO: Text := [95, 95, 112, 114, 111, 116, 111, 95, 95]

  // ----- orders on keys -----

  /** The default order of `sort`: by UTF-16 code unit. */
  predicate Less(a: Text, b: Text) {
    if b == [] then false
    else if a == [] then true
    else a[0] < b[0] || (a[0] == b[0] && Less(a[1..], b[1..]))
  }

  lemma {:induction false} LessTransitive(a: Text, b: Text, c: Text)
    requires Less(a, b) && Less(b, c)
    ensures Less(a, c)
  {
    if a != [] && a[0] == b[0] && b[0] == c[0] { LessTransitive(a[1..], b[1..], c[1..]); }
  }

  lemma {:induction false} LessTotal(a: Text, b: Text)
    ensures Less(a, b) || a == b || Less(b, a)
    ensures !(Less(a, b) && Less(b, a))
    ensures !Less(a, a)
  {
    if a != [] && b != [] {
      LessTotal(a[1..], b[1..]);
      assert a == [a[0]] + a[1..] && b == [b[0]] + b[1..];
    }
    if a != [] && b == [] { LessTotal(a[1..], b); }
    if a != [] { LessTotal(a[1..], a[1..]); }
  }

  /** Keys that JavaScript enumerates as array indices. */
  predicate IsIndex(key: Text) {
    AllDigits(key) && key == Decimal(Value(key)) && Value(key) < 0xFFFF_FFFF
  }

  /** The order in which an object built from sorted keys enumerates them: indices by value, then the rest as sorted. */
  predicate Precedes(a: Text, b: Text) {
    if IsIndex(a) then !IsIndex(b) || Value(a) < Value(b)
    else !IsIndex(b) && Less(a, b)
  }

  lemma PrecedesTransitive(a: Text, b: Text, c: Text)
    requires Precedes(a, b) && Precedes(b, c)
    ensures Precedes(a, c)
  {
    if !IsIndex(a) { LessTransitive(a, b, c); }
  }

  lemma PrecedesTotal(a: Text, b: Text)
    ensures Precedes(a, b) || a == b || Precedes(b, a)
    ensures !(Precedes(a, b) && Precedes(b, a))
    ensures !Precedes(a, a)
  {
    LessTotal(a, b);
  }

  // ----- building an object -----

  predicate Distinct(es: Entries) {
    forall i, j :: 0 <= i < j < |es| ==> es[i].0 != es[j].0
  }

  function InsertSorted(e: (Text, Json), es: Entries): Entries {
    if es == [] || Less(e.0, es[0].0) then [e] + es else [es[0]] + InsertSorted(e, es[1..])
  }

  /** `Object.keys(value).sort()`, each key with its value. */
  function SortEntries(es: Entries): Entries {
    if es == [] then [] else InsertSorted(es[0], SortEntries(es[1..]))
  }

  /** `result[key] = value` for a new key: an index goes to its numeric place, any other key to the end. */
  function Assign(es: Entries, e: (Text, Json)): Entries {
    if e.0 == PROTO then es
    else if es == [] then [e]
    else if IsIndex(e.0) && Precedes(e.0, es[0].0) then [e] + es
    else [es[0]] + Assign(es[1..], e)
  }

  function AssignAll(es: Entries, more: Entries): Entries
    decreases |more|
  {
    if more == [] then es else AssignAll(Assign(es, more[0]), more[1..])
  }

  function Rebuilt(es: Entries): Entries {
    AssignAll([], SortEntries(es))
  }

  function Canonicalize(v: Json): Json {
    match v
    case JArray(items) => JArray(seq(|items|, i requires 0 <= i < |items| => Canonicalize(items[i])))
    case JObject(es) =>
      JObject(Rebuilt(seq(|es|, i requires 0 <= i < |es| => (es[i].0, Canonicalize(es[i].1)))))
    case _ => v
  }

  // ----- sorting keeps the entries -----

  predicate SortedBy(es: Entries) {
    forall i, j :: 0 <= i < j < |es| ==> Less(es[i].0, es[j].0)
  }

  predicate Enumerated(es: Entries) {
    forall i, j :: 0 <= i < j < |es| ==> Precedes(es[i].0, es[j].0)
  }

  /** The same entries, in any order. */
  ghost predicate SameMembers(a: Entries, b: Entries) {
    forall e :: e in a <==> e in b
  }

  lemma {:induction false} InsertSortedOk(e: (Text, Json), es: Entries)
    requires SortedBy(es) && forall i :: 0 <= i < |es| ==> es[i].0 != e.0
    ensures SortedBy(InsertSorted(e, es))
    ensures forall x :: x in InsertSorted(e, es) <==> x == e || x in es
  {
    if es == [] {
    } else if Less(e.0, es[0].0) {
      forall j | 0 <= j < |es| ensures Less(e.0, es[j].0) {
        if j > 0 { LessTransitive(e.0, es[0].0, es[j].0); }
      }
    } else {
      var rest := InsertSorted(e, es[1..]);
      InsertSortedOk(e, es[1..]);
      LessTotal(e.0, es[0].0);
      assert es == [es[0]] + es[1..];
      forall j | 0 <= j < |rest| ensures Less(es[0].0, rest[j].0) {
        assert rest[j] in rest;
      }
    }
  }

  lemma {:induction false} SortEntriesOk(es: Entries)
    requires Distinct(es)
    ensures SortedBy(SortEntries(es)) && SameMembers(SortEntries(es), es)
  {
    if es != [] {
      var rest := SortEntries(es[1..]);
      SortEntriesOk(es[1..]);
      assert es == [es[0]] + es[1..];
      forall i | 0 <= i < |rest| ensures rest[i].0 != es[0].0 {
        assert rest[i] in rest && rest[i] in es[1..];
      }
      InsertSortedOk(es[0], rest);
    }
  }

  // ----- assigning sorted keys enumerates them in order -----

  /** Every non-index key so far comes before `key`, as it does when keys are assigned in sorted order. */
  predicate AllBefore(es: Entries, key: Text) {
    forall i :: 0 <= i < |es| ==> es[i].0 != key && (IsIndex(es[i].0) || Less(es[i].0, key))
  }

  lemma {:induction false} AssignMembers(es: Entries, e: (Text, Json), x: (Text, Json))
    ensures x in Assign(es, e) <==> x in es || (x == e && e.0 != PROTO)
  {
    if es != [] {
      assert es == [es[0]] + es[1..];
      AssignMembers(es[1..], e, x);
    }
  }

  lemma {:induction false} AssignOk(es: Entries, e: (Text, Json))
    requires Enumerated(es) && AllBefore(es, e.0)
    ensures Enumerated(Assign(es, e))
  {
    if e.0 == PROTO || es == [] {
    } else if IsIndex(e.0) && Precedes(e.0, es[0].0) {
      forall j | 0 <= j < |es| ensures Precedes(e.0, es[j].0) {
        if j > 0 { PrecedesTransitive(e.0, es[0].0, es[j].0); }
      }
    } else {
      var rest := Assign(es[1..], e);
      AssignOk(es[1..], e);
      PrecedesTotal(e.0, es[0].0);
      forall j | 0 <= j < |rest| ensures Precedes(es[0].0, rest[j].0) {
        assert rest[j] in rest;
        AssignMembers(es[1..], e, rest[j]);
      }
    }
  }

  lemma AssignAllBefore(es: Entries, e: (Text, Json), key: Text)
    requires AllBefore(es, key) && Less(e.0, key)
    ensures AllBefore(Assign(es, e), key)
  {
    var after := Assign(es, e);
    LessTotal(e.0, key);
    forall i | 0 <= i < |after| ensures after[i].0 != key && (IsIndex(after[i].0) || Less(after[i].0, key)) {
      AssignMembers(es, e, after[i]);
      assert after[i] in after;
    }
  }

  lemma {:induction false} AssignAllOk(es: Entries, more: Entries)
    requires Enumerated(es) && SortedBy(more) && forall j :: 0 <= j < |more| ==> AllBefore(es, more[j].0)
    ensures Enumerated(AssignAll(es, more))
    ensures forall x :: x in AssignAll(es, more) <==> x in es || (x in more && x.0 != PROTO)
    decreases |more|
  {
    if more != [] {
      var after := Assign(es, more[0]);
      AssignOk(es, more[0]);
      forall j | 0 <= j < |more[1..]| ensures AllBefore(after, more[1..][j].0) {
        AssignAllBefore(es, more[0], more[1..][j].0);
      }
      AssignAllOk(after, more[1..]);
      assert more == [more[0]] + more[1..];
      forall x ensures x in after <==> x in es || (x == more[0] && more[0].0 != PROTO) { AssignMembers(es, more[0], x); }
    }
  }

  /** The rebuilt object: the same entries but `__proto__`, in enumeration order. */
  lemma RebuiltOk(es: Entries)
    requires Distinct(es)
    ensures Enumerated(Rebuilt(es))
    ensures forall x :: x in Rebuilt(es) <==> x in es && x.0 != PROTO
  {
    SortEntriesOk(es);
    AssignAllOk([], SortEntries(es));
  }

  lemma EnumeratedHead(a: Entries, b: Entries)
    requires Enumerated(a) && Enumerated(b) && SameMembers(a, b) && a != []
    ensures b != [] && b[0] == a[0] && SameMembers(a[1..], b[1..])
  {
    assert a[0] in b && b[0] in a;
    PrecedesTotal(a[0].0, b[0].0);
    PrecedesTotal(a[0].0, a[0].0);
    forall e ensures e in a[1..] <==> e in b[1..] {
      TailMember(a, e);
      TailMember(b, e);
    }
  }

  lemma TailMember(es: Entries, e: (Text, Json))
    requires Enumerated(es) && es != []
    ensures e in es[1..] <==> e in es && e != es[0]
  {
    assert es == [es[0]] + es[1..];
    PrecedesTotal(es[0].0, es[0].0);
  }

  /** Enumeration order leaves no choice. */
  lemma {:induction false} EnumeratedUnique(a: Entries, b: Entries)
    requires Enumerated(a) && Enumerated(b) && SameMembers(a, b)
    ensures a == b
  {
    assert b != [] ==> b[0] in b && b[0] in a;
    if a != [] {
      EnumeratedHead(a, b);
      EnumeratedUnique(a[1..], b[1..]);
      assert a == [a[0]] + a[1..] && b == [b[0]] + b[1..];
    }
  }

  lemma EnumeratedDistinct(es: Entries)
    requires Enumerated(es)
    ensures Distinct(es)
  {
    forall i, j | 0 <= i < j < |es| ensures es[i].0 != es[j].0 { PrecedesTotal(es[i].0, es[j].0); }
  }

  /** The same entries, `__proto__` aside. */
  ghost predicate Agree(a: Entries, b: Entries) {
    forall x: (Text, Json) :: x.0 != PROTO ==> (x in a <==> x in b)
  }

  lemma RebuiltIff(a: Entries, b: Entries)
    requires Distinct(a) && Distinct(b)
    ensures Rebuilt(a) == Rebuilt(b) <==> Agree(a, b)
  {
    RebuiltOk(a);
    RebuiltOk(b);
    if Agree(a, b) {
      EnumeratedUnique(Rebuilt(a), Rebuilt(b));
    }
  }

  // ----- the normal form -----

  /** A JSON value: at every level no key occurs twice. */
  predicate WellFormed(v: Json) {
    match v
    case JArray(items) => forall i :: 0 <= i < |items| ==> WellFormed(items[i])
    case JObject(es) => Distinct(es) && forall i :: 0 <= i < |es| ==> WellFormed(es[i].1)
    case _ => true
  }

  /** Equal up to the order of keys at every level, `__proto__` aside. */
  ghost predicate Same(a: Json, b: Json)
    decreases a, 1
  {
    match a
    case JArray(items) =>
      b.JArray? && |b.items| == |items| && forall i :: 0 <= i < |items| ==> Same(items[i], b.items[i])
    case JObject(es) =>
      && b.JObject?
      && (forall i :: 0 <= i < |es| && es[i].0 != PROTO ==> FoundIn(es[i], b.entries))
      && (forall j :: 0 <= j < |b.entries| && b.entries[j].0 != PROTO ==> FoundFor(a, b.entries[j]))
    case _ => a == b
  }

  /** `fs` holds the same value under this key. */
  ghost predicate FoundIn(e: (Text, Json), fs: Entries)
    decreases e, 0
  {
    exists j :: 0 <= j < |fs| && fs[j].0 == e.0 && Same(e.1, fs[j].1)
  }

  ghost predicate FoundFor(a: Json, f: (Text, Json))
    requires a.JObject?
    decreases a, 0
  {
    exists i :: 0 <= i < |a.entries| && a.entries[i].0 == f.0 && Same(a.entries[i].1, f.1)
  }

  function Mapped(es: Entries): Entries {
    seq(|es|, i requires 0 <= i < |es| => (es[i].0, Canonicalize(es[i].1)))
  }

  lemma MappedMember(es: Entries, x: (Text, Json)) returns (i: nat)
    requires x in Mapped(es)
    ensures i < |es| && x == (es[i].0, Canonicalize(es[i].1))
  {
    i :| 0 <= i < |Mapped(es)| && Mapped(es)[i] == x;
  }

  /** The claim of the normal form, for the values of two objects. */
  ghost predicate ValuesIff(es: Entries, fs: Entries) {
    forall i, j :: 0 <= i < |es| && 0 <= j < |fs| ==>
      (Canonicalize(es[i].1) == Canonicalize(fs[j].1) <==> Same(es[i].1, fs[j].1))
  }

  /** Some entry of `fs` has this key and the same value. */
  ghost predicate Covered(e: (Text, Json), fs: Entries) {
    exists j :: 0 <= j < |fs| && fs[j].0 == e.0 && Canonicalize(fs[j].1) == Canonicalize(e.1)
  }

  lemma FoundIsCovered(es: Entries, fs: Entries)
    requires ValuesIff(es, fs)
    ensures forall i :: 0 <= i < |es| ==> (FoundIn(es[i], fs) <==> Covered(es[i], fs))
    ensures forall j :: 0 <= j < |fs| ==> (FoundFor(JObject(es), fs[j]) <==> Covered(fs[j], es))
  {
  }

  lemma SameIsCovered(a: Json, b: Json)
    requires a.JObject? && b.JObject? && ValuesIff(a.entries, b.entries)
    ensures Same(a, b) <==>
      && (forall i :: 0 <= i < |a.entries| && a.entries[i].0 != PROTO ==> Covered(a.entries[i], b.entries))
      && (forall j :: 0 <= j < |b.entries| && b.entries[j].0 != PROTO ==> Covered(b.entries[j], a.entries))
  {
    FoundIsCovered(a.entries, b.entries);
  }

  lemma CoveredIsMapped(e: (Text, Json), fs: Entries)
    ensures Covered(e, fs) <==> (e.0, Canonicalize(e.1)) in Mapped(fs)
  {
    if (e.0, Canonicalize(e.1)) in Mapped(fs) {
      var j := MappedMember(fs, (e.0, Canonicalize(e.1)));
    }
    if Covered(e, fs) {
      var j :| 0 <= j < |fs| && fs[j].0 == e.0 && Canonicalize(fs[j].1) == Canonicalize(e.1);
      assert Mapped(fs)[j] in Mapped(fs);
    }
  }

  lemma AgreeIsCovered(es: Entries, fs: Entries)
    ensures Agree(Mapped(es), Mapped(fs)) <==>
      && (forall i :: 0 <= i < |es| && es[i].0 != PROTO ==> Covered(es[i], fs))
      && (forall j :: 0 <= j < |fs| && fs[j].0 != PROTO ==> Covered(fs[j], es))
  {
    forall i | 0 <= i < |es| ensures Mapped(es)[i] in Mapped(es) && (Covered(es[i], fs) <==> Mapped(es)[i] in Mapped(fs)) {
      CoveredIsMapped(es[i], fs);
    }
    forall j | 0 <= j < |fs| ensures Mapped(fs)[j] in Mapped(fs) && (Covered(fs[j], es) <==> Mapped(fs)[j] in Mapped(es)) {
      CoveredIsMapped(fs[j], es);
    }
  }

  /** Given the claim for the values, the mapped entries agree exactly when the objects are the same. */
  lemma MappedIff(a: Json, b: Json)
    requires a.JObject? && b.JObject? && ValuesIff(a.entries, b.entries)
    ensures Agree(Mapped(a.entries), Mapped(b.entries)) <==> Same(a, b)
  {
    SameIsCovered(a, b);
    AgreeIsCovered(a.entries, b.entries);
  }

  /** Two values canonicalise identically exactly when they are equal up to key order at every level. */
  lemma {:induction false} CanonicalIff(a: Json, b: Json)
    requires WellFormed(a) && WellFormed(b)
    ensures Canonicalize(a) == Canonicalize(b) <==> Same(a, b)
    decreases a
  {
    if a.JArray? && b.JArray? {
      ArraysIff(a, b);
    } else if a.JObject? && b.JObject? {
      forall i, j | 0 <= i < |a.entries| && 0 <= j < |b.entries|
        ensures Canonicalize(a.entries[i].1) == Canonicalize(b.entries[j].1) <==> Same(a.entries[i].1, b.entries[j].1)
      {
        CanonicalIff(a.entries[i].1, b.entries[j].1);
      }
      MappedIff(a, b);
      RebuiltIff(Mapped(a.entries), Mapped(b.entries));
    }
  }

  lemma {:induction false} ArraysIff(a: Json, b: Json)
    requires WellFormed(a) && WellFormed(b) && a.JArray? && b.JArray?
    ensures Canonicalize(a) == Canonicalize(b) <==> Same(a, b)
    decreases a, 0
  {
    if |a.items| == |b.items| {
      forall i | 0 <= i < |a.items|
        ensures Canonicalize(a).items[i] == Canonicalize(b).items[i] <==> Same(a.items[i], b.items[i])
      {
        CanonicalIff(a.items[i], b.items[i]);
      }
    }
  }

  /** Canonicalising twice changes nothing, and the result is a value in enumeration order. */
  lemma {:induction false} CanonicalIdempotent(v: Json)
    requires WellFormed(v)
    ensures WellFormed(Canonicalize(v)) && Canonicalize(Canonicalize(v)) == Canonicalize(v)
    decreases v
  {
    match v
    case JArray(items) =>
      forall i | 0 <= i < |items|
        ensures WellFormed(Canonicalize(items[i])) && Canonicalize(Canonicalize(items[i])) == Canonicalize(items[i])
      {
        CanonicalIdempotent(items[i]);
      }
      assert Canonicalize(Canonicalize(v)).items == Canonicalize(v).items;
    case JObject(es) =>
      forall i | 0 <= i < |es|
        ensures WellFormed(Canonicalize(es[i].1)) && Canonicalize(Canonicalize(es[i].1)) == Canonicalize(es[i].1)
      {
        CanonicalIdempotent(es[i].1);
      }
      ObjectIdempotent(es);
    case _ =>
  }

  lemma ObjectIdempotent(es: Entries)
    requires Distinct(es)
    requires forall i :: 0 <= i < |es| ==>
      WellFormed(Canonicalize(es[i].1)) && Canonicalize(Canonicalize(es[i].1)) == Canonicalize(es[i].1)
    ensures WellFormed(JObject(Rebuilt(Mapped(es))))
    ensures Canonicalize(JObject(Rebuilt(Mapped(es)))) == JObject(Rebuilt(Mapped(es)))
  {
    var once := Rebuilt(Mapped(es));
    RebuiltOk(Mapped(es));
    EnumeratedDistinct(once);
    forall i | 0 <= i < |once|
      ensures WellFormed(once[i].1) && Canonicalize(once[i].1) == once[i].1 && once[i].0 != PROTO
    {
      assert once[i] in once;
      var j := MappedMember(es, once[i]);
    }
    assert Mapped(once) == once;
    RebuiltOk(once);
    EnumeratedUnique(Rebuilt(once), once);
  }

  /** A value is the same as its canonical form. */
  lemma CanonicalIsSame(v: Json)
    requires WellFormed(v)
    ensures Same(Canonicalize(v), v)
  {
    CanonicalIdempotent(v);
    CanonicalIff(Canonicalize(v), v);
  }

  /** With `__proto__` among the keys, different values do collide. */
  lemma ProtoIsLost(v: Json)
    requires WellFormed(v)
    ensures WellFormed(JObject([(PROTO, v)])) && Canonicalize(JObject([(PROTO, v)])) == Canonicalize(JObject([]))
  {
    CanonicalIff(JObject([(PROTO, v)]), JObject([]));
  }
}
