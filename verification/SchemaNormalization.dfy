/** The canonical form of a tool's JSON schema: the arrays that stand for sets are sorted by their elements'
    texts, wherever the value is itself a schema.
 */
module SchemaNormalization {
  import opened JsonText

  type SortKey = Json -> string

  /** The text elements are sorted by, and the keywords with a meaning: arrays under `sets` stand for sets;
      under `maps` are objects of schemas by name, under `schemas` a schema, under `lists` arrays of schemas. */
  datatype Rules = Rules(dumps: SortKey, sets: seq<string>, maps: seq<string>, schemas: seq<string>, lists: seq<string>)

  const SET_KEYWORDS := ["required", "enum"]
  const MAP_KEYWORDS := ["properties", "patternProperties", "$defs", "definitions", "dependentSchemas"]
  const SCHEMA_KEYWORDS := ["not", "items", "additionalProperties", "additionalItems", "contains", "propertyNames",
                            "if", "then", "else", "unevaluatedProperties", "unevaluatedItems"]
  const LIST_KEYWORDS := ["allOf", "anyOf", "oneOf", "prefixItems", "items"]

  /** JSON Schema's keywords, with elements sorted by `json.dumps(item, sort_keys=True)`. */
  const JSON_SCHEMA := Rules(Dumps, SET_KEYWORDS, MAP_KEYWORDS, SCHEMA_KEYWORDS, LIST_KEYWORDS)

  // ---- Sorting ----------------------------------------------------------------------------------------

  function Insert(dumps: SortKey, x: Json, sorted: seq<Json>): seq<Json> {
    if sorted == [] || Before(dumps(x), dumps(sorted[0])) then [x] + sorted
    else [sorted[0]] + Insert(dumps, x, sorted[1..])
  }

  function Sort(dumps: SortKey, items: seq<Json>): seq<Json> {
    if items == [] then [] else Insert(dumps, items[0], Sort(dumps, items[1..]))
  }

  /** The head is before everything else, and so on. */
  ghost predicate Sorted(dumps: SortKey, items: seq<Json>) {
    items == [] || ((forall x :: x in items ==> Before(dumps(items[0]), dumps(x))) && Sorted(dumps, items[1..]))
  }

  lemma {:induction false} InsertKeepsElements(dumps: SortKey, x: Json, sorted: seq<Json>)
    ensures multiset(Insert(dumps, x, sorted)) == multiset{x} + multiset(sorted)
    ensures forall y :: y in Insert(dumps, x, sorted) ==> y == x || y in sorted
  {
    if sorted != [] {
      InsertKeepsElements(dumps, x, sorted[1..]);
      assert sorted == [sorted[0]] + sorted[1..];
    }
  }

  lemma {:induction false} InsertSorts(dumps: SortKey, x: Json, sorted: seq<Json>)
    requires Sorted(dumps, sorted)
    ensures Sorted(dumps, Insert(dumps, x, sorted))
  {
    var out := Insert(dumps, x, sorted);
    InsertKeepsElements(dumps, x, sorted);
    BeforeIsTotal(dumps(x), dumps(x));
    if sorted != [] {
      BeforeIsTotal(dumps(x), dumps(sorted[0]));
      if Before(dumps(x), dumps(sorted[0])) {
        forall y | y in sorted ensures Before(dumps(x), dumps(y)) {
          BeforeIsTransitive(dumps(x), dumps(sorted[0]), dumps(y));
        }
        assert out[1..] == sorted;
      } else {
        InsertSorts(dumps, x, sorted[1..]);
        assert out[1..] == Insert(dumps, x, sorted[1..]);
      }
    }
  }

  lemma {:induction false} SortKeepsElements(dumps: SortKey, items: seq<Json>)
    ensures multiset(Sort(dumps, items)) == multiset(items)
  {
    if items != [] {
      SortKeepsElements(dumps, items[1..]);
      InsertKeepsElements(dumps, items[0], Sort(dumps, items[1..]));
      assert items == [items[0]] + items[1..];
    }
  }

  lemma {:induction false} SortSorts(dumps: SortKey, items: seq<Json>)
    ensures Sorted(dumps, Sort(dumps, items))
  {
    if items != [] {
      SortSorts(dumps, items[1..]);
      InsertSorts(dumps, items[0], Sort(dumps, items[1..]));
    }
  }

  /** The elements have different texts where they differ. */
  ghost predicate TextsTell(dumps: SortKey, items: seq<Json>) {
    forall x, y :: x in items && y in items && dumps(x) == dumps(y) ==> x == y
  }

  lemma SortedHeadIsUnique(dumps: SortKey, a: seq<Json>, b: seq<Json>)
    requires TextsTell(dumps, a) && Sorted(dumps, a) && Sorted(dumps, b) && multiset(a) == multiset(b) && a != []
    ensures b != [] && a[0] == b[0]
  {
    assert a[0] in multiset(b);
    assert b[0] in multiset(a);
    BeforeIsTotal(dumps(a[0]), dumps(b[0]));
  }

  lemma TailBag(a: seq<Json>)
    requires a != []
    ensures multiset(a[1..]) == multiset(a) - multiset{a[0]}
  {
    assert a == [a[0]] + a[1..];
  }

  lemma {:induction false} SortedIsUnique(dumps: SortKey, a: seq<Json>, b: seq<Json>)
    requires TextsTell(dumps, a) && Sorted(dumps, a) && Sorted(dumps, b) && multiset(a) == multiset(b)
    ensures a == b
  {
    if a == [] {
      assert |multiset(b)| == 0;
    } else {
      SortedHeadIsUnique(dumps, a, b);
      TailBag(a);
      TailBag(b);
      SortedIsUnique(dumps, a[1..], b[1..]);
      assert a == [a[0]] + a[1..] && b == [b[0]] + b[1..];
    }
  }

  /** Two arrays whose elements' texts tell them apart sort to the same one exactly when they hold the same
      elements as often. */
  lemma SortIsCanonical(dumps: SortKey, a: seq<Json>, b: seq<Json>)
    requires TextsTell(dumps, a)
    ensures Sort(dumps, a) == Sort(dumps, b) <==> multiset(a) == multiset(b)
  {
    SortSorts(dumps, a);
    SortSorts(dumps, b);
    SortKeepsElements(dumps, a);
    SortKeepsElements(dumps, b);
    if multiset(a) == multiset(b) {
      forall x | x in Sort(dumps, a) ensures x in a {
        assert x in multiset(a);
      }
      SortedIsUnique(dumps, Sort(dumps, a), Sort(dumps, b));
    }
  }

  lemma InsertBehind(dumps: SortKey, x: Json, head: Json, rest: seq<Json>)
    requires !Before(dumps(x), dumps(head))
    ensures Insert(dumps, x, [head] + rest) == [head] + Insert(dumps, x, rest)
  {
    assert ([head] + rest)[1..] == rest;
  }

  lemma InsertInFront(dumps: SortKey, x: Json, sorted: seq<Json>)
    requires sorted == [] || Before(dumps(x), dumps(sorted[0]))
    ensures Insert(dumps, x, sorted) == [x] + sorted
  {
  }

  /** Elements with the same text stay in the order they come in. */
  lemma {:induction false} SameTextKeepsOrder(dumps: SortKey, x: Json, y: Json, sorted: seq<Json>)
    requires dumps(x) == dumps(y) && x != y
    ensures Insert(dumps, x, Insert(dumps, y, sorted)) != Insert(dumps, y, Insert(dumps, x, sorted))
  {
    if sorted != [] && !Before(dumps(x), dumps(sorted[0])) {
      var (head, rest) := (sorted[0], sorted[1..]);
      var (xy, yx) := (Insert(dumps, x, Insert(dumps, y, rest)), Insert(dumps, y, Insert(dumps, x, rest)));
      SameTextKeepsOrder(dumps, x, y, rest);
      InsertBehind(dumps, x, head, Insert(dumps, y, rest));
      InsertBehind(dumps, y, head, Insert(dumps, x, rest));
      assert ([head] + xy)[1..] == xy && ([head] + yx)[1..] == yx;
    } else {
      BeforeIsTotal(dumps(x), dumps(x));
      InsertInFront(dumps, x, sorted);
      InsertInFront(dumps, y, sorted);
      InsertInFront(dumps, x, [y] + sorted);
      InsertInFront(dumps, y, [x] + sorted);
      assert ([x] + ([y] + sorted))[0] == x && ([y] + ([x] + sorted))[0] == y;
    }
  }

  lemma TakeOut(items: seq<Json>, x: Json) returns (rest: seq<Json>)
    requires x in items
    ensures multiset(items) == multiset{x} + multiset(rest)
  {
    var i :| 0 <= i < |items| && items[i] == x;
    rest := items[..i] + items[i + 1..];
    assert items == items[..i] + [x] + items[i + 1..];
  }

  /** Two elements first, the others after them. */
  lemma TwoInFront(items: seq<Json>, x: Json, y: Json) returns (rest: seq<Json>)
    requires x in items && y in items && x != y
    ensures multiset([x, y] + rest) == multiset([y, x] + rest) == multiset(items)
  {
    var others := TakeOut(items, x);
    assert y in multiset(items);
    rest := TakeOut(others, y);
  }

  /** Every order of an array's elements sorts to the same one exactly when their texts tell them apart. */
  lemma SortForgetsOrderExactly(dumps: SortKey, a: seq<Json>)
    ensures (forall b :: multiset(b) == multiset(a) ==> Sort(dumps, b) == Sort(dumps, a)) <==> TextsTell(dumps, a)
  {
    if TextsTell(dumps, a) {
      forall b | multiset(b) == multiset(a) ensures Sort(dumps, b) == Sort(dumps, a) {
        SortIsCanonical(dumps, a, b);
      }
    } else {
      var x, y :| x in a && y in a && dumps(x) == dumps(y) && x != y;
      var rest := TwoInFront(a, x, y);
      var (xy, yx) := ([x, y] + rest, [y, x] + rest);
      assert xy[1..] == [y] + rest && xy[1..][1..] == rest && yx[1..] == [x] + rest && yx[1..][1..] == rest;
      SameTextKeepsOrder(dumps, x, y, Sort(dumps, rest));
      assert Sort(dumps, xy) != Sort(dumps, yx);
    }
  }

  /** A sorted array stays as it is. */
  lemma {:induction false} SortedStays(dumps: SortKey, items: seq<Json>)
    requires Sorted(dumps, items)
    ensures Sort(dumps, items) == items
  {
    if items != [] {
      SortedStays(dumps, items[1..]);
      if |items| > 1 {
        assert items[1] in items;
      }
      assert items == [items[0]] + items[1..];
    }
  }

  // ---- The canonical form -----------------------------------------------------------------------------

  function Normalize(r: Rules, value: Json): Json
    decreases value, 0
  {
    if value.Obj? then Obj(map k | k in value.fields :: NormalField(r, k, value.fields[k])) else value
  }

  function NormalField(r: Rules, keyword: string, v: Json): Json
    decreases v, 1
  {
    if keyword in r.sets && v.Arr? then Arr(Sort(r.dumps, v.items))
    else if keyword in r.maps && v.Obj? then NormalizeNamed(r, v)
    else if keyword in r.schemas && v.Obj? then Normalize(r, v)
    else if keyword in r.lists && v.Arr? then Arr(NormalizeAll(r, v.items))
    else v
  }

  /** An object of schemas, by name. */
  function NormalizeNamed(r: Rules, v: Json): (out: Json)
    requires v.Obj?
    ensures out.Obj? && out.fields.Keys == v.fields.Keys
    decreases v, 0
  {
    Obj(map n | n in v.fields :: Normalize(r, v.fields[n]))
  }

  function NormalizeAll(r: Rules, schemas: seq<Json>): (out: seq<Json>)
    ensures |out| == |schemas|
    decreases schemas, 0
  {
    if schemas == [] then [] else [Normalize(r, schemas[0])] + NormalizeAll(r, schemas[1..])
  }

  // ---- What it identifies -----------------------------------------------------------------------------

  /** The two schemas differ only by the order of arrays that stand for sets, at schema positions. */
  predicate Same(r: Rules, a: Json, b: Json)
    decreases a, 0
  {
    if a.Obj? && b.Obj? then
      a.fields.Keys == b.fields.Keys && forall k :: k in a.fields ==> SameField(r, k, a.fields[k], b.fields[k])
    else a == b
  }

  predicate SameField(r: Rules, keyword: string, v: Json, w: Json)
    decreases v, 1
  {
    if keyword in r.sets && v.Arr? && w.Arr? then multiset(v.items) == multiset(w.items)
    else if keyword in r.maps && v.Obj? && w.Obj? then
      v.fields.Keys == w.fields.Keys && forall n :: n in v.fields ==> Same(r, v.fields[n], w.fields[n])
    else if keyword in r.schemas && v.Obj? && w.Obj? then Same(r, v, w)
    else if keyword in r.lists && v.Arr? && w.Arr? then
      |v.items| == |w.items| && forall i :: 0 <= i < |v.items| ==> Same(r, v.items[i], w.items[i])
    else v == w
  }

  lemma {:induction false} NormalizeAllAt(r: Rules, schemas: seq<Json>, i: nat)
    requires i < |schemas|
    ensures NormalizeAll(r, schemas)[i] == Normalize(r, schemas[i])
  {
    if i > 0 {
      NormalizeAllAt(r, schemas[1..], i - 1);
    }
  }

  /** In every array of the schema that stands for a set, the elements' texts tell them apart. */
  ghost predicate SetsTell(r: Rules, a: Json)
    decreases a, 0
  {
    a.Obj? ==> forall k :: k in a.fields ==> FieldTells(r, k, a.fields[k])
  }

  ghost predicate FieldTells(r: Rules, keyword: string, v: Json)
    decreases v, 1
  {
    if keyword in r.sets && v.Arr? then TextsTell(r.dumps, v.items)
    else if keyword in r.maps && v.Obj? then forall n :: n in v.fields ==> SetsTell(r, v.fields[n])
    else if keyword in r.schemas && v.Obj? then SetsTell(r, v)
    else if keyword in r.lists && v.Arr? then forall i :: 0 <= i < |v.items| ==> SetsTell(r, v.items[i])
    else true
  }

  /** With any text to sort by, a schema whose sets it tells apart has the canonical form of another one exactly
      when they are the same up to the order of sets. */
  lemma {:induction false} CanonicalWhereTextsTell(r: Rules, a: Json, b: Json)
    requires SetsTell(r, a)
    ensures Normalize(r, a) == Normalize(r, b) <==> Same(r, a, b)
    decreases a, 0
  {
    if a.Obj? && b.Obj? {
      var na, nb := Normalize(r, a).fields, Normalize(r, b).fields;
      assert na.Keys == a.fields.Keys && nb.Keys == b.fields.Keys;
      forall k | k in a.fields && k in b.fields
        ensures na[k] == nb[k] <==> SameField(r, k, a.fields[k], b.fields[k])
      {
        FieldIsCanonical(r, k, a.fields[k], b.fields[k]);
      }
      if na == nb {
        assert forall k :: k in a.fields ==> na[k] == nb[k];
      }
    }
  }

  lemma {:induction false} FieldIsCanonical(r: Rules, keyword: string, v: Json, w: Json)
    requires FieldTells(r, keyword, v)
    ensures NormalField(r, keyword, v) == NormalField(r, keyword, w) <==> SameField(r, keyword, v, w)
    decreases v, 1
  {
    if keyword in r.sets && v.Arr? && w.Arr? {
      SortIsCanonical(r.dumps, v.items, w.items);
    } else if keyword in r.maps && v.Obj? && w.Obj? {
      MapIsCanonical(r, v, w);
    } else if keyword in r.schemas && v.Obj? && w.Obj? {
      CanonicalWhereTextsTell(r, v, w);
    } else if keyword in r.lists && v.Arr? && w.Arr? {
      ListIsCanonical(r, v, w);
    }
  }

  lemma {:induction false} MapIsCanonical(r: Rules, v: Json, w: Json)
    requires v.Obj? && w.Obj? && forall n :: n in v.fields ==> SetsTell(r, v.fields[n])
    ensures NormalizeNamed(r, v) == NormalizeNamed(r, w) <==>
            v.fields.Keys == w.fields.Keys && forall n :: n in v.fields ==> Same(r, v.fields[n], w.fields[n])
    decreases v, 0
  {
    var nv, nw := NormalizeNamed(r, v).fields, NormalizeNamed(r, w).fields;
    forall n | n in v.fields && n in w.fields
      ensures nv[n] == nw[n] <==> Same(r, v.fields[n], w.fields[n])
    {
      CanonicalWhereTextsTell(r, v.fields[n], w.fields[n]);
    }
    if nv == nw {
      assert forall n :: n in v.fields ==> nv[n] == nw[n];
    }
  }

  lemma {:induction false} ListIsCanonical(r: Rules, v: Json, w: Json)
    requires v.Arr? && w.Arr? && forall i :: 0 <= i < |v.items| ==> SetsTell(r, v.items[i])
    ensures NormalizeAll(r, v.items) == NormalizeAll(r, w.items) <==>
            |v.items| == |w.items| && forall i :: 0 <= i < |v.items| ==> Same(r, v.items[i], w.items[i])
    decreases v, 0
  {
    var nv, nw := NormalizeAll(r, v.items), NormalizeAll(r, w.items);
    if |v.items| == |w.items| {
      forall i | 0 <= i < |v.items| ensures nv[i] == nw[i] <==> Same(r, v.items[i], w.items[i]) {
        NormalizeAllAt(r, v.items, i);
        NormalizeAllAt(r, w.items, i);
        CanonicalWhereTextsTell(r, v.items[i], w.items[i]);
      }
    }
  }

  /** The texts of `json.dumps` tell all values apart. */
  lemma {:induction false} DumpsTells(r: Rules, a: Json)
    requires r.dumps == JSON_SCHEMA.dumps
    ensures SetsTell(r, a)
    decreases a, 0
  {
    if a.Obj? {
      forall k | k in a.fields ensures FieldTells(r, k, a.fields[k]) {
        DumpsTellsInField(r, k, a.fields[k]);
      }
    }
  }

  lemma {:induction false} DumpsTellsInField(r: Rules, keyword: string, v: Json)
    requires r.dumps == JSON_SCHEMA.dumps
    ensures FieldTells(r, keyword, v)
    decreases v, 1
  {
    if keyword in r.sets && v.Arr? {
      forall x, y | x in v.items && y in v.items && r.dumps(x) == r.dumps(y) ensures x == y {
        DumpsIsInjective(x, y);
      }
    } else if keyword in r.maps && v.Obj? {
      forall n | n in v.fields ensures SetsTell(r, v.fields[n]) {
        DumpsTells(r, v.fields[n]);
      }
    } else if keyword in r.schemas && v.Obj? {
      DumpsTells(r, v);
    } else if keyword in r.lists && v.Arr? {
      forall i | 0 <= i < |v.items| ensures SetsTell(r, v.items[i]) {
        DumpsTells(r, v.items[i]);
      }
    }
  }

  /** Schemas have the same canonical form exactly when they are the same up to the order of sets. */
  lemma NormalizeIsCanonical(a: Json, b: Json)
    ensures Normalize(JSON_SCHEMA, a) == Normalize(JSON_SCHEMA, b) <==> Same(JSON_SCHEMA, a, b)
  {
    DumpsTells(JSON_SCHEMA, a);
    CanonicalWhereTextsTell(JSON_SCHEMA, a, b);
  }

  lemma {:induction false} SameAsItself(r: Rules, a: Json)
    ensures Same(r, a, Normalize(r, a))
    decreases a, 0
  {
    if a.Obj? {
      forall k | k in a.fields ensures SameField(r, k, a.fields[k], NormalField(r, k, a.fields[k])) {
        FieldSameAsItself(r, k, a.fields[k]);
      }
    }
  }

  lemma {:induction false} FieldSameAsItself(r: Rules, keyword: string, v: Json)
    ensures SameField(r, keyword, v, NormalField(r, keyword, v))
    decreases v, 1
  {
    if keyword in r.sets && v.Arr? {
      SortKeepsElements(r.dumps, v.items);
    } else if keyword in r.maps && v.Obj? {
      forall n | n in v.fields ensures Same(r, v.fields[n], Normalize(r, v.fields[n])) {
        SameAsItself(r, v.fields[n]);
      }
    } else if keyword in r.schemas && v.Obj? {
      SameAsItself(r, v);
    } else if keyword in r.lists && v.Arr? {
      forall i | 0 <= i < |v.items| ensures Same(r, v.items[i], NormalizeAll(r, v.items)[i]) {
        NormalizeAllAt(r, v.items, i);
        SameAsItself(r, v.items[i]);
      }
    }
  }

  /** A canonical form is its own, whatever text elements are sorted by. */
  lemma {:induction false} NormalStays(r: Rules, a: Json)
    ensures Normalize(r, Normalize(r, a)) == Normalize(r, a)
    decreases a, 0
  {
    if a.Obj? {
      var n := Normalize(r, a);
      assert n.fields.Keys == a.fields.Keys;
      forall k | k in a.fields ensures NormalField(r, k, n.fields[k]) == n.fields[k] {
        NormalFieldStays(r, k, a.fields[k]);
      }
      assert Normalize(r, n).fields == n.fields;
    }
  }

  lemma {:induction false} NormalFieldStays(r: Rules, keyword: string, v: Json)
    ensures NormalField(r, keyword, NormalField(r, keyword, v)) == NormalField(r, keyword, v)
    decreases v, 1
  {
    if keyword in r.sets && v.Arr? {
      SortSorts(r.dumps, v.items);
      SortedStays(r.dumps, Sort(r.dumps, v.items));
    } else if keyword in r.maps && v.Obj? {
      NormalNamedStays(r, v);
    } else if keyword in r.schemas && v.Obj? {
      NormalStays(r, v);
    } else if keyword in r.lists && v.Arr? {
      NormalAllStays(r, v);
    }
  }

  lemma {:induction false} NormalNamedStays(r: Rules, v: Json)
    requires v.Obj?
    ensures NormalizeNamed(r, NormalizeNamed(r, v)) == NormalizeNamed(r, v)
    decreases v, 0
  {
    var n := NormalizeNamed(r, v);
    forall k | k in v.fields ensures Normalize(r, n.fields[k]) == n.fields[k] {
      NormalStays(r, v.fields[k]);
    }
    assert NormalizeNamed(r, n).fields == n.fields;
  }

  lemma {:induction false} NormalAllStays(r: Rules, v: Json)
    requires v.Arr?
    ensures NormalizeAll(r, NormalizeAll(r, v.items)) == NormalizeAll(r, v.items)
    decreases v, 0
  {
    var all := NormalizeAll(r, v.items);
    forall i | 0 <= i < |all| ensures NormalizeAll(r, all)[i] == all[i] {
      NormalizeAllAt(r, v.items, i);
      NormalizeAllAt(r, all, i);
      NormalStays(r, v.items[i]);
    }
  }

  /** Normalising changes nothing but the order of sets, and normalising again changes nothing at all. */
  lemma NormalizeIsIdempotent(r: Rules, a: Json)
    ensures Same(r, a, Normalize(r, a))
    ensures Normalize(r, Normalize(r, a)) == Normalize(r, a)
  {
    SameAsItself(r, a);
    NormalStays(r, a);
  }

  // ---- The procedure ----------------------------------------------------------------------------------

  predicate Distinct(keywords: seq<string>) {
    forall i, j :: 0 <= i < j < |keywords| ==> keywords[i] != keywords[j]
  }

  /** No keyword is listed twice for the same kind of value. */
  ghost predicate Apart(r: Rules) {
    && Distinct(r.sets) && Distinct(r.maps) && Distinct(r.schemas) && Distinct(r.lists)
    && (forall k :: k in r.maps ==> k !in r.schemas)
    && (forall k :: k in r.sets ==> k !in r.lists)
  }

  lemma ListedKeywordsAreApart()
    ensures Distinct(SET_KEYWORDS) && Distinct(MAP_KEYWORDS) && Distinct(SCHEMA_KEYWORDS) && Distinct(LIST_KEYWORDS)
    ensures forall k :: k in MAP_KEYWORDS ==> k !in SCHEMA_KEYWORDS
    ensures forall k :: k in SET_KEYWORDS ==> k !in LIST_KEYWORDS
  {
  }

  lemma KeywordsAreApart()
    ensures Apart(JSON_SCHEMA)
  {
    ListedKeywordsAreApart();
  }

  /** A field once the first keywords of each list have been dealt with. */
  function Partly(r: Rules, k: string, v: Json, sets: nat, maps: nat, schemas: nat, lists: nat): Json
    requires sets <= |r.sets| && maps <= |r.maps|
    requires schemas <= |r.schemas| && lists <= |r.lists|
  {
    if k in r.sets[..sets] && v.Arr? then Arr(Sort(r.dumps, v.items))
    else if k in r.maps[..maps] && v.Obj? then NormalizeNamed(r, v)
    else if k in r.schemas[..schemas] && v.Obj? then Normalize(r, v)
    else if k in r.lists[..lists] && v.Arr? then Arr(NormalizeAll(r, v.items))
    else v
  }

  ghost predicate Progress(r: Rules, fields: map<string, Json>, result: map<string, Json>,
                           sets: nat, maps: nat, schemas: nat, lists: nat)
    requires sets <= |r.sets| && maps <= |r.maps|
    requires schemas <= |r.schemas| && lists <= |r.lists|
  {
    && result.Keys == fields.Keys
    && forall k :: k in fields ==> result[k] == Partly(r, k, fields[k], sets, maps, schemas, lists)
  }

  lemma TakenGrows(keywords: seq<string>, i: nat)
    requires i < |keywords| && Distinct(keywords)
    ensures keywords[i] !in keywords[..i]
    ensures forall k :: k in keywords[..i + 1] <==> k == keywords[i] || k in keywords[..i]
  {
    assert keywords[..i + 1] == keywords[..i] + [keywords[i]];
  }

  lemma Whole(keywords: seq<string>)
    ensures keywords[..|keywords|] == keywords
  {
  }

  lemma AllTaken(r: Rules, k: string, v: Json)
    ensures Partly(r, k, v, |r.sets|, |r.maps|, |r.schemas|, |r.lists|) == NormalField(r, k, v)
  {
    Whole(r.sets);
    Whole(r.maps);
    Whole(r.schemas);
    Whole(r.lists);
  }

  lemma NormalHas(r: Rules, value: Json, result: map<string, Json>)
    requires value.Obj? && result.Keys == value.fields.Keys
    requires forall k :: k in value.fields ==> result[k] == NormalField(r, k, value.fields[k])
    ensures Obj(result) == Normalize(r, value)
  {
    assert result == Normalize(r, value).fields;
  }

  lemma ProgressEnds(r: Rules, value: Json, result: map<string, Json>)
    requires value.Obj?
    requires Progress(r, value.fields, result, |r.sets|, |r.maps|, |r.schemas|, |r.lists|)
    ensures Obj(result) == Normalize(r, value)
  {
    forall k | k in value.fields ensures result[k] == NormalField(r, k, value.fields[k]) {
      AllTaken(r, k, value.fields[k]);
    }
    NormalHas(r, value, result);
  }

  method SortSets(r: Rules, fields: map<string, Json>) returns (result: map<string, Json>)
    requires Apart(r)
    ensures Progress(r, fields, result, |r.sets|, 0, 0, 0)
  {
    result := fields;
    for i := 0 to |r.sets|
      invariant Progress(r, fields, result, i, 0, 0, 0)
    {
      var keyword := r.sets[i];
      TakenGrows(r.sets, i);
      if keyword in result && result[keyword].Arr? {
        result := result[keyword := Arr(Sort(r.dumps, result[keyword].items))];
      }
    }
  }

  method NormalizeSchema(r: Rules, value: Json) returns (out: Json)
    requires Apart(r)
    ensures out == Normalize(r, value)
    decreases value, 2
  {
    if !value.Obj? {
      return value;
    }
    var result := SortSets(r, value.fields);
    result := NormalizeMaps(r, value, result);
    result := NormalizeSchemas(r, value, result);
    result := NormalizeLists(r, value, result);
    ProgressEnds(r, value, result);
    return Obj(result);
  }

  /** Dealing with the next keyword of one list leaves the other keywords alone ... */
  lemma OthersWait(r: Rules, k: string, v: Json, keywords: seq<string>, i: nat)
    requires Apart(r) && i < |keywords| && Distinct(keywords) && k != keywords[i]
    ensures keywords == r.maps ==> Partly(r, k, v, |r.sets|, i + 1, 0, 0) == Partly(r, k, v, |r.sets|, i, 0, 0)
    ensures keywords == r.schemas ==>
              Partly(r, k, v, |r.sets|, |r.maps|, i + 1, 0) == Partly(r, k, v, |r.sets|, |r.maps|, i, 0)
    ensures keywords == r.lists ==>
              Partly(r, k, v, |r.sets|, |r.maps|, |r.schemas|, i + 1) ==
              Partly(r, k, v, |r.sets|, |r.maps|, |r.schemas|, i)
  {
    TakenGrows(keywords, i);
  }

  /** ... and finds the keyword's own value as it was. */
  lemma MapIsNext(r: Rules, v: Json, i: nat)
    requires Apart(r) && i < |r.maps|
    ensures var before := Partly(r, r.maps[i], v, |r.sets|, i, 0, 0);
            && (before.Obj? <==> v.Obj?) && (v.Obj? ==> before == v)
            && Partly(r, r.maps[i], v, |r.sets|, i + 1, 0, 0) == if v.Obj? then NormalizeNamed(r, v) else before
  {
    TakenGrows(r.maps, i);
  }

  lemma SchemaIsNext(r: Rules, v: Json, i: nat)
    requires Apart(r) && i < |r.schemas|
    ensures var before := Partly(r, r.schemas[i], v, |r.sets|, |r.maps|, i, 0);
            && (before.Obj? <==> v.Obj?) && (v.Obj? ==> before == v)
            && Partly(r, r.schemas[i], v, |r.sets|, |r.maps|, i + 1, 0) == if v.Obj? then Normalize(r, v) else before
  {
    TakenGrows(r.schemas, i);
    Whole(r.maps);
    assert r.schemas[i] in r.schemas;
  }

  lemma ListIsNext(r: Rules, v: Json, i: nat)
    requires Apart(r) && i < |r.lists|
    ensures var before := Partly(r, r.lists[i], v, |r.sets|, |r.maps|, |r.schemas|, i);
            && (before.Arr? <==> v.Arr?) && (v.Arr? ==> before == v)
            && Partly(r, r.lists[i], v, |r.sets|, |r.maps|, |r.schemas|, i + 1)
               == if v.Arr? then Arr(NormalizeAll(r, v.items)) else before
  {
    TakenGrows(r.lists, i);
    Whole(r.sets);
    assert r.lists[i] in r.lists;
  }

  method NormalizeMaps(r: Rules, value: Json, start: map<string, Json>) returns (result: map<string, Json>)
    requires Apart(r) && value.Obj? && Progress(r, value.fields, start, |r.sets|, 0, 0, 0)
    ensures Progress(r, value.fields, result, |r.sets|, |r.maps|, 0, 0)
    decreases value, 1
  {
    result := start;
    for i := 0 to |r.maps|
      invariant Progress(r, value.fields, result, |r.sets|, i, 0, 0)
    {
      var keyword := r.maps[i];
      forall k | k in value.fields && k != keyword
        ensures result[k] == Partly(r, k, value.fields[k], |r.sets|, i + 1, 0, 0)
      {
        OthersWait(r, k, value.fields[k], r.maps, i);
      }
      if keyword in value.fields {
        MapIsNext(r, value.fields[keyword], i);
      }
      if keyword in result && result[keyword].Obj? {
        var named := NormalizeByName(r, result[keyword]);
        result := result[keyword := named];
      }
    }
  }

  method NormalizeByName(r: Rules, v: Json) returns (out: Json)
    requires Apart(r) && v.Obj?
    ensures out == NormalizeNamed(r, v)
    decreases v, 3
  {
    var todo := v.fields.Keys;
    var done: map<string, Json> := map[];
    while todo != {}
      invariant done.Keys == v.fields.Keys - todo && todo <= v.fields.Keys
      invariant forall n :: n in done ==> done[n] == Normalize(r, v.fields[n])
      decreases todo
    {
      var n :| n in todo;
      var schema := NormalizeSchema(r, v.fields[n]);
      done := done[n := schema];
      todo := todo - {n};
    }
    out := Obj(done);
    assert done == NormalizeNamed(r, v).fields;
  }

  method NormalizeSchemas(r: Rules, value: Json, start: map<string, Json>) returns (result: map<string, Json>)
    requires Apart(r) && value.Obj? && Progress(r, value.fields, start, |r.sets|, |r.maps|, 0, 0)
    ensures Progress(r, value.fields, result, |r.sets|, |r.maps|, |r.schemas|, 0)
    decreases value, 1
  {
    result := start;
    for i := 0 to |r.schemas|
      invariant Progress(r, value.fields, result, |r.sets|, |r.maps|, i, 0)
    {
      var keyword := r.schemas[i];
      forall k | k in value.fields && k != keyword
        ensures result[k] == Partly(r, k, value.fields[k], |r.sets|, |r.maps|, i + 1, 0)
      {
        OthersWait(r, k, value.fields[k], r.schemas, i);
      }
      if keyword in value.fields {
        SchemaIsNext(r, value.fields[keyword], i);
      }
      if keyword in result && result[keyword].Obj? {
        var schema := NormalizeSchema(r, result[keyword]);
        result := result[keyword := schema];
      }
    }
  }

  method NormalizeLists(r: Rules, value: Json, start: map<string, Json>) returns (result: map<string, Json>)
    requires Apart(r) && value.Obj? && Progress(r, value.fields, start, |r.sets|, |r.maps|, |r.schemas|, 0)
    ensures Progress(r, value.fields, result, |r.sets|, |r.maps|, |r.schemas|, |r.lists|)
    decreases value, 1
  {
    result := start;
    for i := 0 to |r.lists|
      invariant Progress(r, value.fields, result, |r.sets|, |r.maps|, |r.schemas|, i)
    {
      var keyword := r.lists[i];
      forall k | k in value.fields && k != keyword
        ensures result[k] == Partly(r, k, value.fields[k], |r.sets|, |r.maps|, |r.schemas|, i + 1)
      {
        OthersWait(r, k, value.fields[k], r.lists, i);
      }
      if keyword in value.fields {
        ListIsNext(r, value.fields[keyword], i);
      }
      if keyword in result && result[keyword].Arr? {
        var schemas := NormalizeEach(r, result[keyword].items);
        result := result[keyword := Arr(schemas)];
      }
    }
  }

  method NormalizeEach(r: Rules, schemas: seq<Json>) returns (out: seq<Json>)
    requires Apart(r)
    ensures out == NormalizeAll(r, schemas)
    decreases schemas, 0
  {
    out := [];
    for i := 0 to |schemas|
      invariant |out| == i && forall j :: 0 <= j < i ==> out[j] == NormalizeAll(r, schemas)[j]
    {
      var schema := NormalizeSchema(r, schemas[i]);
      NormalizeAllAt(r, schemas, i);
      out := out + [schema];
    }
  }
}
