/** Payloads of event schemas, and exactly when an accepted schema change is safe for them. */
module Payloads {
  import opened Compat

  /** A JSON value as far as these schemas look: an object, or something of another type. */
  datatype Value = Obj(fields: map<string, Value>) | Prim(typ: string)

  /** Section 6.1.1 (type) and section 6.5.3 (required) of JSON Schema Validation 2020-12, with properties. */
  predicate Valid(d: Document, v: Value)
    decreases d
  {
    if d.typ != OBJECT then v == Prim(d.typ)
    else
      && v.Obj? && (forall i :: 0 <= i < |d.required| ==> d.required[i] in v.fields)
      && (forall f :: f in d.props && f in v.fields ==> Valid(d.props[f], v.fields[f]))
  }

  /** The value has no field the schema does not declare, at any depth. */
  predicate Closed(d: Document, v: Value)
    decreases d
  {
    d.typ == OBJECT && v.Obj? ==> forall f :: f in v.fields ==> f in d.props && Closed(d.props[f], v.fields[f])
  }

  /** What a consumer of the schema reads of a value. */
  function Strip(d: Document, v: Value): Value
    decreases d
  {
    if d.typ == OBJECT && v.Obj? then Obj(map f | f in v.fields && f in d.props :: Strip(d.props[f], v.fields[f]))
    else v
  }

  /** Every required field is declared, at every depth. */
  predicate Declared(d: Document)
    decreases d
  {
    d.typ == OBJECT ==>
      && (forall i :: 0 <= i < |d.required| ==> d.required[i] in d.props)
      && (forall f :: f in d.props ==> Declared(d.props[f]))
  }

  /** The candidate declares what it requires wherever the old schema has an object too. */
  predicate DeclaredWhereShared(prev: Document, cand: Document)
    decreases prev
  {
    cand.typ == OBJECT ==>
      && (forall i :: 0 <= i < |cand.required| ==> cand.required[i] in cand.props)
      && (forall f :: f in prev.props && f in cand.props ==> DeclaredWhereShared(prev.props[f], cand.props[f]))
  }

  lemma {:induction false} DeclaredIsShared(prev: Document, cand: Document)
    requires Declared(cand)
    ensures DeclaredWhereShared(prev, cand)
    decreases prev
  {
    if cand.typ == OBJECT {
      forall f | f in prev.props && f in cand.props ensures DeclaredWhereShared(prev.props[f], cand.props[f]) {
        DeclaredIsShared(prev.props[f], cand.props[f]);
      }
    }
  }

  // Old payloads under a new schema

  lemma {:induction false} OldPayloadStaysValid(prev: Document, cand: Document, v: Value)
    requires Accepts(prev, cand) && prev.typ == cand.typ && DeclaredWhereShared(prev, cand)
    requires Valid(prev, v) && Closed(prev, v)
    ensures Valid(cand, v)
    decreases prev
  {
    if prev.typ == OBJECT {
      forall i | 0 <= i < |cand.required| ensures cand.required[i] in v.fields {
        var f := cand.required[i];
        assert f in cand.props && f in cand.required;
        assert FieldAccepts(prev, cand, f) by { assert f in prev.props; }
        var j :| 0 <= j < |prev.required| && prev.required[j] == f;
      }
      forall f | f in cand.props && f in v.fields ensures Valid(cand.props[f], v.fields[f]) {
        assert f in prev.props && FieldAccepts(prev, cand, f);
        if prev.props[f].typ == OBJECT {
          OldPayloadStaysValid(prev.props[f], cand.props[f], v.fields[f]);
        }
      }
    }
  }

  /** A value with every declared field, and every required one declared or not. */
  function Sample(d: Document): Value
    decreases d
  {
    if d.typ != OBJECT then Prim(d.typ)
    else Obj((map f | f in d.required :: Prim("")) + (map f | f in d.props :: Sample(d.props[f])))
  }

  lemma {:induction false} SampleIsValid(d: Document)
    ensures Valid(d, Sample(d)) && (Declared(d) ==> Closed(d, Sample(d)))
    decreases d
  {
    if d.typ == OBJECT {
      forall f | f in d.props ensures Valid(d.props[f], Sample(d).fields[f]) && (Declared(d.props[f]) ==> Closed(d.props[f], Sample(d).fields[f])) {
        SampleIsValid(d.props[f]);
      }
      forall f | Declared(d) && f in Sample(d).fields ensures f in d.props {
        if f in d.required { var i :| 0 <= i < |d.required| && d.required[i] == f; }
      }
    }
  }

  lemma {:induction false} SampleDemandsDeclared(prev: Document, cand: Document)
    requires Accepts(prev, cand) && prev.typ == cand.typ && Declared(prev) && Valid(cand, Sample(prev))
    ensures DeclaredWhereShared(prev, cand)
    decreases prev
  {
    if prev.typ == OBJECT {
      forall i | 0 <= i < |cand.required| ensures cand.required[i] in cand.props {
        var f := cand.required[i];
        assert f in Sample(prev).fields;
        assert f in prev.props by {
          if f in prev.required { var j :| 0 <= j < |prev.required| && prev.required[j] == f; }
        }
        assert FieldAccepts(prev, cand, f);
      }
      forall f | f in prev.props && f in cand.props ensures DeclaredWhereShared(prev.props[f], cand.props[f]) {
        assert FieldAccepts(prev, cand, f);
        if prev.props[f].typ == OBJECT {
          assert Valid(cand.props[f], Sample(prev).fields[f]);
          SampleDemandsDeclared(prev.props[f], cand.props[f]);
        }
      }
    }
  }

  ghost predicate KeepsOldPayloads(prev: Document, cand: Document)
  {
    forall v :: Valid(prev, v) && Closed(prev, v) ==> Valid(cand, v)
  }

  /** An accepted change keeps every closed payload of a well-declared schema valid exactly
      when the candidate declares the fields it requires wherever the two share an object. */
  lemma OldPayloadsKeptIff(prev: Document, cand: Document)
    requires Accepts(prev, cand) && prev.typ == cand.typ && Declared(prev)
    ensures KeepsOldPayloads(prev, cand) <==> DeclaredWhereShared(prev, cand)
  {
    if DeclaredWhereShared(prev, cand) {
      forall v | Valid(prev, v) && Closed(prev, v) ensures Valid(cand, v) {
        OldPayloadStaysValid(prev, cand, v);
      }
    }
    if KeepsOldPayloads(prev, cand) {
      SampleIsValid(prev);
      SampleDemandsDeclared(prev, cand);
    }
  }

  // New payloads for old consumers

  lemma {:induction false} StrippedPayloadIsValid(prev: Document, cand: Document, v: Value)
    requires Accepts(prev, cand) && prev.typ == cand.typ && Declared(prev) && Valid(cand, v)
    ensures Valid(prev, Strip(prev, v))
    decreases prev
  {
    if prev.typ == OBJECT {
      forall i | 0 <= i < |prev.required| ensures prev.required[i] in Strip(prev, v).fields {
        var f := prev.required[i];
        assert f in prev.required && FieldAccepts(prev, cand, f);
        var j :| 0 <= j < |cand.required| && cand.required[j] == f;
      }
      forall f | f in prev.props && f in v.fields ensures Valid(prev.props[f], Strip(prev.props[f], v.fields[f])) {
        assert FieldAccepts(prev, cand, f);
        assert Valid(cand.props[f], v.fields[f]);
        if prev.props[f].typ == OBJECT {
          StrippedPayloadIsValid(prev.props[f], cand.props[f], v.fields[f]);
        }
      }
    }
  }

  lemma {:induction false} StrippedSampleDemandsDeclared(prev: Document, cand: Document)
    requires Accepts(prev, cand) && prev.typ == cand.typ && Valid(prev, Strip(prev, Sample(cand)))
    ensures Declared(prev)
    decreases prev
  {
    if prev.typ == OBJECT {
      forall f | f in prev.props ensures Declared(prev.props[f]) {
        assert FieldAccepts(prev, cand, f);
        assert f in Sample(cand).fields;
        if prev.props[f].typ == OBJECT {
          assert Valid(prev.props[f], Strip(prev, Sample(cand)).fields[f]);
          StrippedSampleDemandsDeclared(prev.props[f], cand.props[f]);
        }
      }
    }
  }

  ghost predicate ServesOldConsumers(prev: Document, cand: Document)
  {
    forall v :: Valid(cand, v) ==> Valid(prev, Strip(prev, v))
  }

  /** Payloads of an accepted candidate, stripped to what the old schema declares, are valid
      under the old schema exactly when that schema declares the fields it requires. */
  lemma OldConsumersServedIff(prev: Document, cand: Document)
    requires Accepts(prev, cand) && prev.typ == cand.typ
    ensures ServesOldConsumers(prev, cand) <==> Declared(prev)
  {
    if Declared(prev) {
      forall v | Valid(cand, v) ensures Valid(prev, Strip(prev, v)) {
        StrippedPayloadIsValid(prev, cand, v);
      }
    }
    if ServesOldConsumers(prev, cand) {
      SampleIsValid(cand);
      StrippedSampleDemandsDeclared(prev, cand);
    }
  }

  /** The condition matters: an accepted candidate that requires a field it does not declare. */
  lemma UndeclaredRequirementBreaks() returns (prev: Document, cand: Document)
    ensures Accepts(prev, cand) && prev.typ == cand.typ == OBJECT && Declared(prev)
    ensures !KeepsOldPayloads(prev, cand)
  {
    prev, cand := Document(OBJECT, map[], []), Document(OBJECT, map[], ["extra"]);
    assert cand.required[0] !in cand.props;
    OldPayloadsKeptIff(prev, cand);
  }
}
