/** Event schema documents, the compatibility check between two of them, and what the
    check promises about payloads. */
module Compat {
  import opened Common

  /** A document or a field schema; properties count only where the type is "object". */
  datatype Document = Document(typ: string, props: map<string, Document>, required: seq<string>)

  const OBJECT := "object"

  // The envelope every event carries

  const ENVELOPE := ["event_id", "event_type", "occurred_at", "correlation_id", "causation_id", "schema_version", "merchant_id", "payload"]

  datatype SchemaError = NotAnObject | MissingField(field: string) | NotRequired(field: string) | PayloadNotObject

  predicate FieldOk(doc: Document, field: string)
  {
    field in doc.props && field in doc.required && (field == "payload" ==> doc.props[field].typ == OBJECT)
  }

  predicate EnvelopeOk(doc: Document)
  {
    doc.typ == OBJECT && forall i :: 0 <= i < |ENVELOPE| ==> FieldOk(doc, ENVELOPE[i])
  }

  /** The complaint names the first envelope field that is wrong, and what is wrong with it. */
  predicate IsFirstError(doc: Document, e: SchemaError)
  {
    match e
    case NotAnObject => doc.typ != OBJECT
    case _ =>
      && doc.typ == OBJECT
      && exists i :: 0 <= i < |ENVELOPE| && !FieldOk(doc, ENVELOPE[i]) && (forall j :: 0 <= j < i ==> FieldOk(doc, ENVELOPE[j]))
                     && e == FieldError(doc, ENVELOPE[i])
  }

  function FieldError(doc: Document, field: string): SchemaError
  {
    if field !in doc.props then MissingField(field)
    else if field !in doc.required then NotRequired(field)
    else PayloadNotObject
  }

  /** All eight envelope fields are declared and required, the payload as an object. */
  predicate CarriesEnvelope(doc: Document)
  {
    && {"event_id", "event_type", "occurred_at", "correlation_id", "causation_id", "schema_version", "merchant_id", "payload"}
       <= doc.props.Keys
    && "event_id" in doc.required && "event_type" in doc.required && "occurred_at" in doc.required
    && "correlation_id" in doc.required && "causation_id" in doc.required && "schema_version" in doc.required
    && "merchant_id" in doc.required && "payload" in doc.required
    && doc.props["payload"].typ == "object"
  }

  lemma EnvelopeOkIff(doc: Document)
    ensures EnvelopeOk(doc) <==> doc.typ == "object" && CarriesEnvelope(doc)
  {
    if EnvelopeOk(doc) {
      assert FieldOk(doc, ENVELOPE[0]) && FieldOk(doc, ENVELOPE[1]) && FieldOk(doc, ENVELOPE[2]) && FieldOk(doc, ENVELOPE[3]);
      assert FieldOk(doc, ENVELOPE[4]) && FieldOk(doc, ENVELOPE[5]) && FieldOk(doc, ENVELOPE[6]) && FieldOk(doc, ENVELOPE[7]);
    }
    if doc.typ == "object" && CarriesEnvelope(doc) {
      forall i | 0 <= i < |ENVELOPE| ensures FieldOk(doc, ENVELOPE[i]) {
        assert i == 0 || i == 1 || i == 2 || i == 3 || i == 4 || i == 5 || i == 6 || i == 7;
      }
    }
  }

  method ValidateDocument(doc: Document) returns (e: Option<SchemaError>)
    ensures e == None <==> EnvelopeOk(doc)
    ensures e == None <==> doc.typ == "object" && CarriesEnvelope(doc)
    ensures e.Some? ==> IsFirstError(doc, e.value)
  {
    EnvelopeOkIff(doc);
    if doc.typ != "object" {
      return Some(NotAnObject);
    }
    for i := 0 to |ENVELOPE|
      invariant forall j :: 0 <= j < i ==> FieldOk(doc, ENVELOPE[j])
    {
      var field := ENVELOPE[i];
      if field !in doc.props {
        return Some(MissingField(field));
      }
      if field !in doc.required {
        return Some(NotRequired(field));
      }
      if field == "payload" && doc.props[field].typ != "object" {
        return Some(PayloadNotObject);
      }
    }
    e := None;
  }

  // Acceptance

  /** No backward problem: every old field keeps its type and whether it is required, at
      every depth, and no new field is required. */
  predicate Accepts(prev: Document, cand: Document)
    decreases prev
  {
    && (forall f :: f in prev.props ==> FieldAccepts(prev, cand, f))
    && (forall f :: f in cand.props && f !in prev.props ==> f !in cand.required)
  }

  predicate FieldAccepts(prev: Document, cand: Document, f: string)
    requires f in prev.props
    decreases prev, 0
  {
    && f in cand.props && prev.props[f].typ == cand.props[f].typ
    && (f in prev.required <==> f in cand.required)
    && (prev.props[f].typ == OBJECT ==> Accepts(prev.props[f], cand.props[f]))
  }

  /** No forward problem: a shared field keeps its type and stays required if it was. */
  predicate AcceptsForward(future: Document, current: Document)
    decreases future
  {
    forall f :: f in future.props ==> FieldAcceptsForward(future, current, f)
  }

  predicate FieldAcceptsForward(future: Document, current: Document, f: string)
    requires f in future.props
    decreases future, 0
  {
    if f !in current.props then f !in future.required
    else
      && future.props[f].typ == current.props[f].typ
      && (f in current.required ==> f in future.required)
      && (future.props[f].typ == OBJECT ==> AcceptsForward(future.props[f], current.props[f]))
  }

  lemma {:induction false} AcceptsReflexive(d: Document)
    ensures Accepts(d, d)
  {
    forall f | f in d.props ensures FieldAccepts(d, d, f) {
      AcceptsReflexive(d.props[f]);
    }
  }

  lemma {:induction false} AcceptsTransitive(a: Document, b: Document, c: Document)
    requires Accepts(a, b) && Accepts(b, c)
    ensures Accepts(a, c)
  {
    forall f | f in a.props ensures FieldAccepts(a, c, f) {
      assert FieldAccepts(a, b, f) && FieldAccepts(b, c, f);
      if a.props[f].typ == OBJECT {
        AcceptsTransitive(a.props[f], b.props[f], c.props[f]);
      }
    }
    forall f | f in c.props && f !in a.props ensures f !in c.required {
      if f in b.props { assert FieldAccepts(b, c, f); }
    }
  }

  /** The forward check never refuses what the backward check accepts. */
  lemma {:induction false} AcceptsImpliesForward(prev: Document, cand: Document)
    requires Accepts(prev, cand)
    ensures AcceptsForward(cand, prev)
    decreases cand
  {
    forall f | f in cand.props ensures FieldAcceptsForward(cand, prev, f) {
      if f in prev.props {
        assert FieldAccepts(prev, cand, f);
        if prev.props[f].typ == OBJECT {
          AcceptsImpliesForward(prev.props[f], cand.props[f]);
        }
      }
    }
  }

  /** A version accepted after a valid one carries the envelope too, as long as it is an object. */
  lemma EnvelopeSurvives(prev: Document, cand: Document)
    requires EnvelopeOk(prev) && Accepts(prev, cand)
    ensures EnvelopeOk(cand) <==> cand.typ == OBJECT
  {
    forall i | 0 <= i < |ENVELOPE| ensures FieldOk(cand, ENVELOPE[i]) {
      assert FieldOk(prev, ENVELOPE[i]);
      assert FieldAccepts(prev, cand, ENVELOPE[i]);
    }
  }

  // The problems the two checks report

  datatype Problem =
    | Missing(path: seq<string>)
    | TypeChanged(path: seq<string>, from: string, to: string)
    | NoLongerRequired(path: seq<string>)
    | NewlyRequired(path: seq<string>)
    | NewIsRequired(path: seq<string>)

  /** What one old field contributes. */
  ghost function FieldProblems(prev: Document, cand: Document, prefix: seq<string>, f: string): set<Problem>
    requires f in prev.props
    decreases prev, 0
  {
    var path := prefix + [f];
    if f !in cand.props then {Missing(path)}
    else if prev.props[f].typ != cand.props[f].typ then {TypeChanged(path, prev.props[f].typ, cand.props[f].typ)}
    else
      (if f in prev.required && f !in cand.required then {NoLongerRequired(path)} else {})
      + (if f !in prev.required && f in cand.required then {NewlyRequired(path)} else {})
      + (if prev.props[f].typ == OBJECT then Problems(prev.props[f], cand.props[f], path) else {})
  }

  ghost function Problems(prev: Document, cand: Document, prefix: seq<string>): set<Problem>
    decreases prev
  {
    (set f, p | f in prev.props && p in FieldProblems(prev, cand, prefix, f) :: p)
    + (set f | f in cand.props && f !in prev.props && f in cand.required :: NewIsRequired(prefix + [f]))
  }

  ghost function FieldForwardProblems(future: Document, current: Document, prefix: seq<string>, f: string): set<Problem>
    requires f in future.props
    decreases future, 0
  {
    var path := prefix + [f];
    if f !in current.props then (if f in future.required then {Missing(path)} else {})
    else if future.props[f].typ != current.props[f].typ then {TypeChanged(path, current.props[f].typ, future.props[f].typ)}
    else
      (if f in current.required && f !in future.required then {NoLongerRequired(path)} else {})
      + (if future.props[f].typ == OBJECT then ForwardProblems(future.props[f], current.props[f], path) else {})
  }

  ghost function ForwardProblems(future: Document, current: Document, prefix: seq<string>): set<Problem>
    decreases future
  {
    set f, p | f in future.props && p in FieldForwardProblems(future, current, prefix, f) :: p
  }

  ghost function Elements<T>(s: seq<T>): set<T>
  {
    set x | x in s
  }

  lemma ElementsAppend<T>(a: seq<T>, b: seq<T>)
    ensures Elements(a + b) == Elements(a) + Elements(b)
  {
  }

  lemma {:induction false} NoProblemsIff(prev: Document, cand: Document, prefix: seq<string>)
    ensures Problems(prev, cand, prefix) == {} <==> Accepts(prev, cand)
    decreases prev
  {
    forall f | f in prev.props ensures FieldProblems(prev, cand, prefix, f) == {} <==> FieldAccepts(prev, cand, f) {
      if f in cand.props {
        NoProblemsIff(prev.props[f], cand.props[f], prefix + [f]);
      }
    }
    if Accepts(prev, cand) {
      assert forall f :: f in prev.props ==> FieldAccepts(prev, cand, f);
    } else if f :| f in prev.props && !FieldAccepts(prev, cand, f) {
      var p :| p in FieldProblems(prev, cand, prefix, f);
      assert p in Problems(prev, cand, prefix);
    } else {
      var f :| f in cand.props && f !in prev.props && f in cand.required;
      assert NewIsRequired(prefix + [f]) in Problems(prev, cand, prefix);
    }
  }

  lemma {:induction false} NoForwardProblemsIff(future: Document, current: Document, prefix: seq<string>)
    ensures ForwardProblems(future, current, prefix) == {} <==> AcceptsForward(future, current)
    decreases future
  {
    forall f | f in future.props
      ensures FieldForwardProblems(future, current, prefix, f) == {} <==> FieldAcceptsForward(future, current, f)
    {
      if f in current.props {
        NoForwardProblemsIff(future.props[f], current.props[f], prefix + [f]);
      }
    }
    if AcceptsForward(future, current) {
      assert forall f :: f in future.props ==> FieldAcceptsForward(future, current, f);
    } else {
      var f :| f in future.props && !FieldAcceptsForward(future, current, f);
      var p :| p in FieldForwardProblems(future, current, prefix, f);
      assert p in ForwardProblems(future, current, prefix);
    }
  }

  // The problems by their paths

  /** The two objects a path of fields leads to, through fields that are objects on both sides. */
  function Pair(prev: Document, cand: Document, path: seq<string>): Option<(Document, Document)>
    decreases |path|
  {
    if path == [] then Some((prev, cand))
    else if path[0] in prev.props && path[0] in cand.props
            && prev.props[path[0]].typ == "object" && cand.props[path[0]].typ == "object" then
      Pair(prev.props[path[0]], cand.props[path[0]], path[1..])
    else None
  }

  /** What is wrong with one field of the candidate for readers of the previous version. */
  predicate Explains(prev: Document, cand: Document, f: string, q: Problem)
  {
    var before, after := f in prev.props, f in cand.props;
    var same := before && after && prev.props[f].typ == cand.props[f].typ;
    match q
    case Missing(_) => before && !after
    case TypeChanged(_, from, to) => before && after && prev.props[f].typ == from && cand.props[f].typ == to && from != to
    case NoLongerRequired(_) => same && f in prev.required && f !in cand.required
    case NewlyRequired(_) => same && f !in prev.required && f in cand.required
    case NewIsRequired(_) => !before && after && f in cand.required
  }

  /** The same for readers of the current version who meet a future document. */
  predicate ExplainsForward(future: Document, current: Document, f: string, q: Problem)
  {
    match q
    case Missing(_) => f in future.props && f !in current.props && f in future.required
    case TypeChanged(_, from, to) =>
      f in current.props && f in future.props && current.props[f].typ == from && future.props[f].typ == to && from != to
    case NoLongerRequired(_) =>
      && f in current.props && f in future.props && future.props[f].typ == current.props[f].typ
      && f in current.required && f !in future.required
    case _ => false
  }

  predicate AtPath(prev: Document, cand: Document, path: seq<string>, q: Problem)
  {
    && |path| > 0 && Pair(prev, cand, path[..|path| - 1]).Some?
    && var (p, c) := Pair(prev, cand, path[..|path| - 1]).value;
       Explains(p, c, path[|path| - 1], q)
  }

  predicate AtPathForward(future: Document, current: Document, path: seq<string>, q: Problem)
  {
    && |path| > 0 && Pair(future, current, path[..|path| - 1]).Some?
    && var (f, c) := Pair(future, current, path[..|path| - 1]).value;
       ExplainsForward(f, c, path[|path| - 1], q)
  }

  /** A longer path goes on inside its first field. */
  lemma PairStep(prev: Document, cand: Document, path: seq<string>)
    requires |path| > 1
    ensures var f := path[0];
            Pair(prev, cand, path[..|path| - 1])
            == if f in prev.props && f in cand.props && prev.props[f].typ == "object" && cand.props[f].typ == "object"
               then Pair(prev.props[f], cand.props[f], path[1..][..|path| - 2]) else None
  {
    assert path[..|path| - 1][1..] == path[1..][..|path| - 2];
  }

  /** A problem is reported exactly where the two documents, walked along its path, differ that way. */
  lemma {:induction false} ProblemIff(prev: Document, cand: Document, prefix: seq<string>, path: seq<string>, q: Problem)
    requires q.path == prefix + path
    ensures q in Problems(prev, cand, prefix) <==> AtPath(prev, cand, path, q)
    decreases prev, 1
  {
    if path == [] {
      ProblemsReachDeeper(prev, cand, prefix, q);
    } else {
      FieldOfProblem(prev, cand, prefix, path, q);
      if path[0] in prev.props {
        FieldProblemIff(prev, cand, prefix, path, q);
      } else if |path| > 1 {
        PairStep(prev, cand, path);
      }
    }
  }

  lemma {:induction false} FieldProblemIff(prev: Document, cand: Document, prefix: seq<string>, path: seq<string>, q: Problem)
    requires path != [] && path[0] in prev.props && q.path == prefix + path
    ensures q in FieldProblems(prev, cand, prefix, path[0]) <==> AtPath(prev, cand, path, q)
    decreases prev, 0
  {
    var f := path[0];
    if f in cand.props {
      assert q.path == (prefix + [f]) + path[1..];
      ProblemIff(prev.props[f], cand.props[f], prefix + [f], path[1..], q);
    }
    if |path| > 1 {
      PairStep(prev, cand, path);
      assert |q.path| != |prefix + [f]|;
    } else {
      assert path == [f];
    }
  }

  /** Every path reported below a prefix is longer than it and starts with it. */
  lemma {:induction false} ProblemsReachDeeper(prev: Document, cand: Document, prefix: seq<string>, q: Problem)
    ensures q in Problems(prev, cand, prefix) ==> |q.path| > |prefix| && q.path[..|prefix|] == prefix
    decreases prev
  {
    forall f | f in prev.props && q in FieldProblems(prev, cand, prefix, f)
      ensures |q.path| > |prefix| && q.path[..|prefix|] == prefix && q.path[|prefix|] == f
    {
      FieldProblemsReachDeeper(prev, cand, prefix, f, q);
    }
  }

  lemma {:induction false} FieldProblemsReachDeeper(prev: Document, cand: Document, prefix: seq<string>, f: string, q: Problem)
    requires f in prev.props && q in FieldProblems(prev, cand, prefix, f)
    ensures |q.path| > |prefix| && q.path[..|prefix|] == prefix && q.path[|prefix|] == f
    decreases prev, 0
  {
    if f in cand.props {
      ProblemsReachDeeper(prev.props[f], cand.props[f], prefix + [f], q);
      assert |q.path| > |prefix| + 1 && q.path[..|prefix| + 1] == prefix + [f] ==>
               q.path[..|prefix|] == q.path[..|prefix| + 1][..|prefix|] && q.path[|prefix|] == q.path[..|prefix| + 1][|prefix|];
    }
  }

  /** A problem comes from the field its path goes through. */
  lemma FieldOfProblem(prev: Document, cand: Document, prefix: seq<string>, path: seq<string>, q: Problem)
    requires path != [] && q.path == prefix + path
    ensures q in Problems(prev, cand, prefix)
            <==> || (path[0] in prev.props && q in FieldProblems(prev, cand, prefix, path[0]))
                 || (|path| == 1 && q.NewIsRequired? && path[0] in cand.props && path[0] !in prev.props && path[0] in cand.required)
  {
    forall f | f in prev.props && q in FieldProblems(prev, cand, prefix, f) ensures f == path[0] {
      FieldProblemsReachDeeper(prev, cand, prefix, f, q);
    }
    assert |path| == 1 ==> prefix + path == prefix + [path[0]];
    forall f | q == NewIsRequired(prefix + [f]) ensures path == [f] {
      assert |path| == 1;
      assert (prefix + path)[|prefix|] == (prefix + [f])[|prefix|];
    }
  }

  lemma {:induction false} ForwardProblemIff(
    future: Document, current: Document, prefix: seq<string>, path: seq<string>, q: Problem)
    requires q.path == prefix + path
    ensures q in ForwardProblems(future, current, prefix) <==> AtPathForward(future, current, path, q)
    decreases future, 1
  {
    forall f | f in future.props && q in FieldForwardProblems(future, current, prefix, f) ensures path != [] && path[0] == f {
      ForwardProblemsReachDeeper(future, current, prefix, f, q);
    }
    if path != [] {
      if path[0] in future.props {
        FieldForwardProblemIff(future, current, prefix, path, q);
      } else if |path| > 1 {
        PairStep(future, current, path);
      }
    }
  }

  lemma {:induction false} FieldForwardProblemIff(
    future: Document, current: Document, prefix: seq<string>, path: seq<string>, q: Problem)
    requires path != [] && path[0] in future.props && q.path == prefix + path
    ensures q in FieldForwardProblems(future, current, prefix, path[0]) <==> AtPathForward(future, current, path, q)
    decreases future, 0
  {
    var f := path[0];
    if f in current.props {
      assert q.path == (prefix + [f]) + path[1..];
      ForwardProblemIff(future.props[f], current.props[f], prefix + [f], path[1..], q);
    }
    if |path| > 1 {
      PairStep(future, current, path);
      assert |q.path| != |prefix + [f]|;
    } else {
      assert path == [f];
    }
  }

  lemma {:induction false} ForwardProblemsReachDeeper(
    future: Document, current: Document, prefix: seq<string>, f: string, q: Problem)
    requires f in future.props && q in FieldForwardProblems(future, current, prefix, f)
    ensures |q.path| > |prefix| && q.path[..|prefix|] == prefix && q.path[|prefix|] == f
    decreases future
  {
    if f in current.props && q in ForwardProblems(future.props[f], current.props[f], prefix + [f]) {
      var g :| g in future.props[f].props && q in FieldForwardProblems(future.props[f], current.props[f], prefix + [f], g);
      ForwardProblemsReachDeeper(future.props[f], current.props[f], prefix + [f], g, q);
      assert q.path[..|prefix|] == q.path[..|prefix| + 1][..|prefix|] && q.path[|prefix|] == q.path[..|prefix| + 1][|prefix|];
    }
  }

  /** A candidate is accepted exactly when no path shows a problem. */
  lemma AcceptedIff(prev: Document, cand: Document)
    ensures Accepts(prev, cand) <==> forall q: Problem :: !AtPath(prev, cand, q.path, q)
  {
    NoProblemsIff(prev, cand, []);
    forall q: Problem ensures AtPath(prev, cand, q.path, q) <==> q in Problems(prev, cand, []) {
      ProblemIff(prev, cand, [], q.path, q);
    }
  }

  // The two loops

  /** What the fields visited so far contribute. */
  ghost function Visited(prev: Document, cand: Document, prefix: seq<string>, fields: set<string>): set<Problem>
    requires fields <= prev.props.Keys
  {
    set f, p | f in fields && p in FieldProblems(prev, cand, prefix, f) :: p
  }

  lemma VisitOne(prev: Document, cand: Document, prefix: seq<string>, fields: set<string>, f: string)
    requires fields <= prev.props.Keys && f in prev.props
    ensures Visited(prev, cand, prefix, fields + {f}) == Visited(prev, cand, prefix, fields) + FieldProblems(prev, cand, prefix, f)
  {
  }

  method CompareField(prev: Document, cand: Document, prefix: seq<string>, f: string) returns (problems: seq<Problem>)
    requires f in prev.props
    ensures Elements(problems) == FieldProblems(prev, cand, prefix, f)
    decreases prev, 0
  {
    var path := prefix + [f];
    if f !in cand.props {
      return [Missing(path)];
    }
    if prev.props[f].typ != cand.props[f].typ {
      return [TypeChanged(path, prev.props[f].typ, cand.props[f].typ)];
    }
    problems := [];
    if f in prev.required && f !in cand.required {
      problems := problems + [NoLongerRequired(path)];
    }
    if f !in prev.required && f in cand.required {
      problems := problems + [NewlyRequired(path)];
    }
    if prev.props[f].typ == "object" {
      var nested := CompareFields(prev.props[f], cand.props[f], path);
      ElementsAppend(problems, nested);
      problems := problems + nested;
    }
  }

  ghost function NewFieldProblems(prev: Document, cand: Document, prefix: seq<string>, fields: set<string>): set<Problem>
  {
    set f | f in fields && f !in prev.props && f in cand.required :: NewIsRequired(prefix + [f])
  }

  /** Additions are fine unless they are required at once. */
  method CompareNewFields(prev: Document, cand: Document, prefix: seq<string>) returns (problems: seq<Problem>)
    ensures Elements(problems) == NewFieldProblems(prev, cand, prefix, cand.props.Keys)
  {
    problems := [];
    var rest := cand.props.Keys;
    while rest != {}
      invariant rest <= cand.props.Keys
      invariant Elements(problems) == NewFieldProblems(prev, cand, prefix, cand.props.Keys - rest)
      decreases |rest|
    {
      var f :| f in rest;
      if f !in prev.props && f in cand.required {
        ElementsAppend(problems, [NewIsRequired(prefix + [f])]);
        problems := problems + [NewIsRequired(prefix + [f])];
      }
      rest := rest - {f};
    }
  }

  method CompareFields(prev: Document, cand: Document, prefix: seq<string>) returns (problems: seq<Problem>)
    ensures Elements(problems) == Problems(prev, cand, prefix)
    ensures problems == [] <==> Accepts(prev, cand)
    decreases prev, 1
  {
    problems := [];
    var rest := prev.props.Keys;
    while rest != {}
      invariant rest <= prev.props.Keys
      invariant Elements(problems) == Visited(prev, cand, prefix, prev.props.Keys - rest)
      decreases |rest|
    {
      var f :| f in rest;
      var more := CompareField(prev, cand, prefix, f);
      VisitOne(prev, cand, prefix, prev.props.Keys - rest, f);
      ElementsAppend(problems, more);
      problems := problems + more;
      assert prev.props.Keys - (rest - {f}) == prev.props.Keys - rest + {f};
      rest := rest - {f};
    }
    var added := CompareNewFields(prev, cand, prefix);
    ElementsAppend(problems, added);
    problems := problems + added;
    NoProblemsIff(prev, cand, prefix);
    NoElementsIff(problems);
  }

  lemma NoElementsIff<T>(s: seq<T>)
    ensures Elements(s) == {} <==> s == []
  {
    if s != [] { assert s[0] in Elements(s); }
  }

  ghost function VisitedForward(future: Document, current: Document, prefix: seq<string>, fields: set<string>): set<Problem>
    requires fields <= future.props.Keys
  {
    set f, p | f in fields && p in FieldForwardProblems(future, current, prefix, f) :: p
  }

  method CompareForwardField(future: Document, current: Document, prefix: seq<string>, f: string) returns (problems: seq<Problem>)
    requires f in future.props
    ensures Elements(problems) == FieldForwardProblems(future, current, prefix, f)
    decreases future, 0
  {
    var path := prefix + [f];
    if f !in current.props {
      if f in future.required {
        return [Missing(path)];
      }
      return [];
    }
    if future.props[f].typ != current.props[f].typ {
      return [TypeChanged(path, current.props[f].typ, future.props[f].typ)];
    }
    problems := [];
    if f in current.required && f !in future.required {
      problems := problems + [NoLongerRequired(path)];
    }
    if future.props[f].typ == "object" {
      var nested := CompareForwardCompatibleFields(future.props[f], current.props[f], path);
      ElementsAppend(problems, nested);
      problems := problems + nested;
    }
  }

  method CompareForwardCompatibleFields(future: Document, current: Document, prefix: seq<string>) returns (problems: seq<Problem>)
    ensures Elements(problems) == ForwardProblems(future, current, prefix)
    ensures problems == [] <==> AcceptsForward(future, current)
    decreases future, 1
  {
    problems := [];
    var rest := future.props.Keys;
    while rest != {}
      invariant rest <= future.props.Keys
      invariant Elements(problems) == VisitedForward(future, current, prefix, future.props.Keys - rest)
      decreases |rest|
    {
      var f :| f in rest;
      var more := CompareForwardField(future, current, prefix, f);
      ElementsAppend(problems, more);
      problems := problems + more;
      assert future.props.Keys - (rest - {f}) == future.props.Keys - rest + {f};
      rest := rest - {f};
    }
    NoForwardProblemsIff(future, current, prefix);
    NoElementsIff(problems);
  }

  /** Both checks pass exactly when the backward one does. */
  method CheckCompatibility(prev: Document, cand: Document) returns (backward: seq<Problem>, forward: seq<Problem>)
    ensures Elements(backward) == Problems(prev, cand, []) && Elements(forward) == ForwardProblems(cand, prev, [])
    ensures backward == [] && forward == [] <==> Accepts(prev, cand)
    ensures forall q :: q in backward <==> AtPath(prev, cand, q.path, q)
    ensures forall q :: q in forward <==> AtPathForward(cand, prev, q.path, q)
  {
    backward := CompareFields(prev, cand, []);
    forward := CompareForwardCompatibleFields(cand, prev, []);
    forall q ensures q in backward <==> AtPath(prev, cand, q.path, q) {
      ProblemIff(prev, cand, [], q.path, q);
      assert q in backward <==> q in Elements(backward);
    }
    forall q ensures q in forward <==> AtPathForward(cand, prev, q.path, q) {
      ForwardProblemIff(cand, prev, [], q.path, q);
      assert q in forward <==> q in Elements(forward);
    }
    if Accepts(prev, cand) {
      AcceptsImpliesForward(prev, cand);
    }
  }
}
