/** When two tool schemas mean the same, by the names of JSON Schema's keywords: "required" and "enum" hold sets, and
    a schema is looked into only where one stands. Normalising tells exactly these apart.
 */
module SchemaMeaning {
  import opened JsonText
  import opened SchemaNormalization

  // ---- The keywords -----------------------------------------------------------------------------------

  /** Its array is a set. */
  predicate HoldsSet(k: string) {
    k == "required" || k == "enum"
  }

  /** Its object has a schema under each name. */
  predicate HoldsNamedSchemas(k: string) {
    || k == "properties" || k == "patternProperties" || k == "$defs" || k == "definitions"
    || k == "dependentSchemas"
  }

  /** Its object is a schema. */
  predicate HoldsSchema(k: string) {
    || k == "not" || k == "items" || k == "additionalProperties" || k == "additionalItems" || k == "contains"
    || k == "propertyNames" || k == "if" || k == "then" || k == "else" || k == "unevaluatedProperties"
    || k == "unevaluatedItems"
  }

  /** Its array is a list of schemas. */
  predicate HoldsSchemas(k: string) {
    k == "allOf" || k == "anyOf" || k == "oneOf" || k == "prefixItems" || k == "items"
  }

  // ---- What schemas mean ------------------------------------------------------------------------------

  /** The schemas are the same but for the order of sets. */
  predicate MeansSame(a: Json, b: Json)
    decreases a, 0
  {
    if a.Obj? && b.Obj? then
      a.fields.Keys == b.fields.Keys && forall k :: k in a.fields ==> FieldMeansSame(k, a.fields[k], b.fields[k])
    else a == b
  }

  predicate FieldMeansSame(k: string, v: Json, w: Json)
    decreases v, 1
  {
    if v.Arr? && w.Arr? && HoldsSet(k) then multiset(v.items) == multiset(w.items)
    else if v.Arr? && w.Arr? && HoldsSchemas(k) then
      |v.items| == |w.items| && forall i :: 0 <= i < |v.items| ==> MeansSame(v.items[i], w.items[i])
    else if v.Obj? && w.Obj? && HoldsNamedSchemas(k) then
      v.fields.Keys == w.fields.Keys && forall n :: n in v.fields ==> MeansSame(v.fields[n], w.fields[n])
    else if v.Obj? && w.Obj? && HoldsSchema(k) then MeansSame(v, w)
    else v == w
  }

  /** The rules list exactly these keywords. */
  ghost predicate Lists(r: Rules) {
    && (forall k :: k in r.sets <==> HoldsSet(k)) && (forall k :: k in r.maps <==> HoldsNamedSchemas(k))
    && (forall k :: k in r.schemas <==> HoldsSchema(k)) && (forall k :: k in r.lists <==> HoldsSchemas(k))
  }

  lemma SetsAreListed(k: string)
    ensures k in SET_KEYWORDS <==> HoldsSet(k)
    ensures k in MAP_KEYWORDS <==> HoldsNamedSchemas(k)
  {
  }

  lemma SchemasAreListed(k: string)
    ensures k in SCHEMA_KEYWORDS <==> HoldsSchema(k)
    ensures k in LIST_KEYWORDS <==> HoldsSchemas(k)
  {
  }

  lemma KeywordsAreListed()
    ensures Lists(JSON_SCHEMA)
  {
    forall k: string ensures k in SET_KEYWORDS <==> HoldsSet(k) {
      SetsAreListed(k);
    }
    forall k: string ensures k in MAP_KEYWORDS <==> HoldsNamedSchemas(k) {
      SetsAreListed(k);
    }
    forall k: string ensures k in SCHEMA_KEYWORDS <==> HoldsSchema(k) {
      SchemasAreListed(k);
    }
    forall k: string ensures k in LIST_KEYWORDS <==> HoldsSchemas(k) {
      SchemasAreListed(k);
    }
  }

  lemma {:induction false} SameIsMeaning(r: Rules, a: Json, b: Json)
    requires Lists(r)
    ensures Same(r, a, b) <==> MeansSame(a, b)
    decreases a, 0
  {
    if a.Obj? && b.Obj? {
      forall k | k in a.fields && k in b.fields
        ensures SameField(r, k, a.fields[k], b.fields[k]) <==> FieldMeansSame(k, a.fields[k], b.fields[k])
      {
        FieldIsMeaning(r, k, a.fields[k], b.fields[k]);
      }
    }
  }

  lemma {:induction false} FieldIsMeaning(r: Rules, k: string, v: Json, w: Json)
    requires Lists(r)
    ensures SameField(r, k, v, w) <==> FieldMeansSame(k, v, w)
    decreases v, 1
  {
    if v.Obj? && w.Obj? {
      if k in r.maps {
        forall n | n in v.fields && n in w.fields
          ensures Same(r, v.fields[n], w.fields[n]) <==> MeansSame(v.fields[n], w.fields[n])
        {
          SameIsMeaning(r, v.fields[n], w.fields[n]);
        }
      } else if k in r.schemas {
        SameIsMeaning(r, v, w);
      }
    } else if v.Arr? && w.Arr? && k in r.lists && |v.items| == |w.items| {
      forall i | 0 <= i < |v.items| ensures Same(r, v.items[i], w.items[i]) <==> MeansSame(v.items[i], w.items[i]) {
        SameIsMeaning(r, v.items[i], w.items[i]);
      }
    }
  }

  /** Two schemas normalise to the same value exactly if they mean the same. */
  lemma NormalizeTellsMeaning(a: Json, b: Json)
    ensures Normalize(JSON_SCHEMA, a) == Normalize(JSON_SCHEMA, b) <==> MeansSame(a, b)
  {
    KeywordsAreListed();
    NormalizeIsCanonical(a, b);
    SameIsMeaning(JSON_SCHEMA, a, b);
  }

  /** A set keeps its elements and is sorted by their texts. */
  lemma SetsAreSorted(a: Json, k: string)
    requires a.Obj? && k in a.fields && a.fields[k].Arr? && HoldsSet(k)
    ensures var n := Normalize(JSON_SCHEMA, a);
            && n.Obj? && k in n.fields && n.fields[k].Arr?
            && multiset(n.fields[k].items) == multiset(a.fields[k].items)
            && Sorted(Dumps, n.fields[k].items)
  {
    KeywordsAreListed();
    SortKeepsElements(Dumps, a.fields[k].items);
    SortSorts(Dumps, a.fields[k].items);
  }

  /** What stands under any other keyword, a default or an enum's element, say, is left as it is. */
  lemma OtherValuesAreKept(a: Json, k: string)
    requires a.Obj? && k in a.fields
    requires a.fields[k].Arr? ==> !HoldsSet(k) && !HoldsSchemas(k)
    requires a.fields[k].Obj? ==> !HoldsNamedSchemas(k) && !HoldsSchema(k)
    ensures var n := Normalize(JSON_SCHEMA, a); n.Obj? && k in n.fields && n.fields[k] == a.fields[k]
  {
    KeywordsAreListed();
  }
}
