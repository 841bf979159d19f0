/** The event schema registry: versions are checked against the active one, activated one
    at a time, and published alone or in pairs. */
module Registry {
  import opened Common
  import opened Compat
  import opened Payloads

  datatype Status = Draft | Active | Deprecated | Retired

  datatype Key = Key(subject: string, version: string)

  datatype Version = Version(doc: Document, status: Status, activatedAt: Option<int>, createdAt: int)

  /** `dual` is the status dual_publish; activating the target completes the rollout. */
  datatype Rollout = Rollout(subject: string, from: string, to: string, dual: bool)

  /** `first` is a history: the version each subject started with. Rollouts are listed in
      order of creation. */
  datatype Reg = Reg(subjects: set<string>, versions: map<Key, Version>, rollouts: seq<Rollout>, first: map<string, string>, now: int)

  datatype RegisterResult = Registered | Invalid | Incompatible | VersionExists | UnknownSubject

  predicate IsActive(reg: Reg, subject: string, version: string)
  {
    Key(subject, version) in reg.versions && reg.versions[Key(subject, version)].status == Active
  }

  predicate NoVersions(reg: Reg, subject: string)
  {
    forall k :: k in reg.versions ==> k.subject != subject
  }

  predicate NoActive(reg: Reg, subject: string)
  {
    forall k :: k in reg.versions && k.subject == subject ==> reg.versions[k].status != Active
  }

  /** GetActiveVersion: the active row activated and then created last, if there is an active row. */
  predicate IsCurrent(reg: Reg, subject: string, active: Option<string>)
  {
    match active
    case None => NoActive(reg, subject)
    case Some(v) =>
      && IsActive(reg, subject, v)
      && forall k :: k in reg.versions && k.subject == subject && reg.versions[k].status == Active ==>
           NotAfter(reg.versions[k], reg.versions[Key(subject, v)])
  }

  /** Latest activation first with nulls last, then latest creation: the right row comes no later. */
  predicate NotAfter(a: Version, b: Version)
  {
    if a.activatedAt == b.activatedAt then a.createdAt <= b.createdAt
    else a.activatedAt == None || (b.activatedAt.Some? && a.activatedAt.value < b.activatedAt.value)
  }

  /** ValidateDocument and, against an active version, the compatibility check. */
  function Screen(reg: Reg, subject: string, doc: Document, active: Option<string>): RegisterResult
    requires active.Some? ==> Key(subject, active.value) in reg.versions
  {
    if !EnvelopeOk(doc) then Invalid
    else if active.Some? && !Accepts(reg.versions[Key(subject, active.value)].doc, doc) then Incompatible
    else Registered
  }

  function CreateVersion(reg: Reg, subject: string, version: string, doc: Document): (Reg, RegisterResult)
  {
    if Key(subject, version) in reg.versions then (reg, VersionExists)
    else if subject !in reg.subjects then (reg, UnknownSubject)
    else
      var first := if subject in reg.first then reg.first else reg.first[subject := version];
      (reg.(versions := reg.versions[Key(subject, version) := Version(doc, Draft, None, reg.now)], first := first), Registered)
  }

  function Register(reg: Reg, subject: string, version: string, doc: Document, active: Option<string>): (Reg, RegisterResult)
    requires active.Some? ==> Key(subject, active.value) in reg.versions
  {
    var screened := Screen(reg, subject, doc, active);
    if screened != Registered then (reg, screened) else CreateVersion(reg, subject, version, doc)
  }

  function Deprecate(versions: map<Key, Version>, subject: string): map<Key, Version>
  {
    map k | k in versions ::
      if k.subject == subject && versions[k].status == Active then versions[k].(status := Deprecated) else versions[k]
  }

  function CompleteRollouts(rollouts: seq<Rollout>, subject: string, version: string): seq<Rollout>
  {
    seq(|rollouts|, i requires 0 <= i < |rollouts| =>
      if rollouts[i].subject == subject && rollouts[i].to == version then rollouts[i].(dual := false) else rollouts[i])
  }

  /** One serialised transaction; an unknown version rolls it back. */
  function Activate(reg: Reg, subject: string, version: string): (Reg, bool)
  {
    var k := Key(subject, version);
    if k !in reg.versions || !EnvelopeOk(reg.versions[k].doc) then (reg, false)
    else
      var versions := Deprecate(reg.versions, subject);
      (reg.(versions := versions[k := versions[k].(status := Active, activatedAt := Some(reg.now))],
            rollouts := CompleteRollouts(reg.rollouts, subject, version)), true)
  }

  /** The checks before a rollout row is written. */
  predicate RolloutAllowed(reg: Reg, subject: string, from: string, to: string, active: Option<string>)
  {
    && from != to && active == Some(from)
    && Key(subject, to) in reg.versions && reg.versions[Key(subject, to)].status != Retired
  }

  /** GetActiveRollout: the newest rollout of the subject still publishing both versions. */
  function ActiveRollout(rollouts: seq<Rollout>, subject: string): Option<Rollout>
  {
    if |rollouts| == 0 then None
    else
      var last := rollouts[|rollouts| - 1];
      if last.subject == subject && last.dual then Some(last) else ActiveRollout(rollouts[..|rollouts| - 1], subject)
  }

  function ResolvePublishVersions(reg: Reg, subject: string, active: Option<string>): Option<seq<string>>
  {
    if active == None then None
    else match ActiveRollout(reg.rollouts, subject)
      case Some(r) => if r.from != active.value then Some([active.value]) else Some([r.from, r.to])
      case None => Some([active.value])
  }

  // Concurrent callers

  /** A caller between its reads and its write. A registration may also run undisturbed, as one step. */
  datatype Pending =
    | Registering(subject: string, version: string, doc: Document, baseline: Option<Document>)
    | RollingOut(subject: string, from: string, to: string)

  datatype Sys = Sys(reg: Reg, pending: map<nat, Pending>)

  datatype Step =
    | DoCreateSchema(subject: string)
    | DoRegister(subject: string, version: string, doc: Document, active: Option<string>)
    | DoScreen(c: nat, subject: string, version: string, doc: Document, active: Option<string>)
    | DoCreate(c: nat)
    | DoActivate(subject: string, version: string)
    | DoCheckRollout(c: nat, subject: string, from: string, to: string, active: Option<string>)
    | DoInsertRollout(c: nat)
    | DoTick(now: int)

  function Apply(s: Sys, step: Step): Sys
  {
    match step
    case DoCreateSchema(subject) => s.(reg := s.reg.(subjects := s.reg.subjects + {subject}))
    case DoRegister(subject, version, doc, active) =>
      if IsCurrent(s.reg, subject, active) then s.(reg := Register(s.reg, subject, version, doc, active).0) else s
    case DoScreen(c, subject, version, doc, active) =>
      if c in s.pending || !IsCurrent(s.reg, subject, active) || Screen(s.reg, subject, doc, active) != Registered then s
      else
        var baseline := if active.Some? then Some(s.reg.versions[Key(subject, active.value)].doc) else None;
        s.(pending := s.pending[c := Registering(subject, version, doc, baseline)])
    case DoCreate(c) =>
      if c !in s.pending || !s.pending[c].Registering? then s
      else
        var p := s.pending[c];
        Sys(CreateVersion(s.reg, p.subject, p.version, p.doc).0, s.pending - {c})
    case DoActivate(subject, version) => s.(reg := Activate(s.reg, subject, version).0)
    case DoCheckRollout(c, subject, from, to, active) =>
      if c in s.pending || !IsCurrent(s.reg, subject, active) || !RolloutAllowed(s.reg, subject, from, to, active) then s
      else s.(pending := s.pending[c := RollingOut(subject, from, to)])
    case DoInsertRollout(c) =>
      if c !in s.pending || !s.pending[c].RollingOut? then s
      else
        var p := s.pending[c];
        Sys(s.reg.(rollouts := s.reg.rollouts + [Rollout(p.subject, p.from, p.to, true)]), s.pending - {c})
    case DoTick(now) => if now >= s.reg.now then s.(reg := s.reg.(now := now)) else s
  }

  function Exec(s: Sys, steps: seq<Step>): Sys
  {
    if |steps| == 0 then s else Apply(Exec(s, steps[..|steps| - 1]), steps[|steps| - 1])
  }

  const EMPTY := Sys(Reg({}, map[], [], map[], 0), map[])

  // What every run keeps

  predicate OneActive(reg: Reg)
  {
    forall j, k | j in reg.versions && k in reg.versions && j.subject == k.subject
                  && reg.versions[j].status == Active && reg.versions[k].status == Active :: j == k
  }

  predicate RowsOk(reg: Reg)
  {
    && (forall k :: k in reg.versions ==>
          EnvelopeOk(reg.versions[k].doc) && k.subject in reg.first)
    && (forall x :: x in reg.first ==> Key(x, reg.first[x]) in reg.versions)
    && (forall i :: 0 <= i < |reg.rollouts| ==>
          reg.rollouts[i].from != reg.rollouts[i].to
          && Key(reg.rollouts[i].subject, reg.rollouts[i].from) in reg.versions
          && Key(reg.rollouts[i].subject, reg.rollouts[i].to) in reg.versions)
  }

  predicate PendingOk(reg: Reg, p: Pending)
  {
    match p
    case Registering(_, _, doc, _) => EnvelopeOk(doc)
    case RollingOut(subject, from, to) => from != to && Key(subject, from) in reg.versions && Key(subject, to) in reg.versions
  }

  predicate Inv(s: Sys)
  {
    OneActive(s.reg) && RowsOk(s.reg) && forall c :: c in s.pending ==> PendingOk(s.reg, s.pending[c])
  }

  /** Versions are never removed and their documents never change. */
  predicate Grown(reg: Reg, reg': Reg)
  {
    && (forall k :: k in reg.versions ==> k in reg'.versions && reg'.versions[k].doc == reg.versions[k].doc)
    && (forall x :: x in reg.first ==> x in reg'.first && reg'.first[x] == reg.first[x])
  }

  lemma ActivateKeepsRows(reg: Reg, subject: string, version: string)
    requires RowsOk(reg)
    ensures var reg' := Activate(reg, subject, version).0; RowsOk(reg') && Grown(reg, reg')
  {
    ActivateGrows(reg, subject, version);
    var reg' := Activate(reg, subject, version).0;
    forall i | 0 <= i < |reg'.rollouts|
      ensures reg'.rollouts[i].from != reg'.rollouts[i].to
      ensures Key(reg'.rollouts[i].subject, reg'.rollouts[i].from) in reg'.versions
      ensures Key(reg'.rollouts[i].subject, reg'.rollouts[i].to) in reg'.versions
    {
      assert reg.rollouts[i].from != reg.rollouts[i].to;
    }
  }

  lemma ActivateGrows(reg: Reg, subject: string, version: string)
    ensures var reg' := Activate(reg, subject, version).0; Grown(reg, reg') && reg'.versions.Keys == reg.versions.Keys && reg'.first == reg.first
  {
  }

  lemma ActivateKeepsOneActive(reg: Reg, subject: string, version: string)
    requires OneActive(reg)
    ensures OneActive(Activate(reg, subject, version).0)
  {
  }

  lemma CreateGrows(reg: Reg, subject: string, version: string, doc: Document)
    ensures Grown(reg, CreateVersion(reg, subject, version, doc).0)
  {
  }

  lemma CreateKeepsOneActive(reg: Reg, subject: string, version: string, doc: Document)
    requires OneActive(reg)
    ensures OneActive(CreateVersion(reg, subject, version, doc).0)
  {
  }

  lemma CreateKeepsRows(reg: Reg, subject: string, version: string, doc: Document)
    requires RowsOk(reg) && EnvelopeOk(doc)
    ensures RowsOk(CreateVersion(reg, subject, version, doc).0)
  {
    var k, reg' := Key(subject, version), CreateVersion(reg, subject, version, doc).0;
    assert forall j :: j in reg.versions ==> j in reg'.versions;
    if reg' != reg {
      assert forall j :: j in reg'.versions ==> j == k || j in reg.versions;
    }
  }

  lemma PendingStaysOk(s: Sys, reg': Reg, c: nat)
    requires c in s.pending && PendingOk(s.reg, s.pending[c]) && Grown(s.reg, reg')
    ensures PendingOk(reg', s.pending[c])
  {
  }

  lemma CreateKeepsReg(reg: Reg, subject: string, version: string, doc: Document)
    requires OneActive(reg) && RowsOk(reg) && EnvelopeOk(doc)
    ensures var reg' := CreateVersion(reg, subject, version, doc).0; OneActive(reg') && RowsOk(reg') && Grown(reg, reg')
  {
    CreateGrows(reg, subject, version, doc);
    CreateKeepsOneActive(reg, subject, version, doc);
    CreateKeepsRows(reg, subject, version, doc);
  }

  lemma StepKeepsReg(s: Sys, step: Step)
    requires Inv(s)
    ensures var reg' := Apply(s, step).reg; OneActive(reg') && RowsOk(reg') && Grown(s.reg, reg')
  {
    match step {
      case DoActivate(subject, version) =>
        ActivateKeepsRows(s.reg, subject, version);
        ActivateKeepsOneActive(s.reg, subject, version);
      case DoCreate(c) =>
        if c in s.pending && s.pending[c].Registering? {
          assert PendingOk(s.reg, s.pending[c]);
          CreateKeepsReg(s.reg, s.pending[c].subject, s.pending[c].version, s.pending[c].doc);
        }
      case DoRegister(subject, version, doc, active) =>
        if EnvelopeOk(doc) { CreateKeepsReg(s.reg, subject, version, doc); }
      case _ => OtherStepsKeepReg(s, step);
    }
  }

  lemma InsertRolloutKeepsReg(s: Sys, c: nat)
    requires RowsOk(s.reg) && OneActive(s.reg) && c in s.pending && s.pending[c].RollingOut? && PendingOk(s.reg, s.pending[c])
    ensures var reg' := Apply(s, DoInsertRollout(c)).reg; OneActive(reg') && RowsOk(reg') && Grown(s.reg, reg')
  {
  }

  /** The other steps touch neither versions nor rollouts. */
  lemma OtherStepsTouchNoRows(s: Sys, step: Step)
    requires step.DoCreateSchema? || step.DoScreen? || step.DoCheckRollout? || step.DoTick?
    ensures var reg' := Apply(s, step).reg;
            reg'.versions == s.reg.versions && reg'.rollouts == s.reg.rollouts && reg'.first == s.reg.first
  {
  }

  lemma SameRowsKeepReg(reg: Reg, reg': Reg)
    requires OneActive(reg) && RowsOk(reg)
    requires reg'.versions == reg.versions && reg'.rollouts == reg.rollouts && reg'.first == reg.first
    ensures OneActive(reg') && RowsOk(reg') && Grown(reg, reg')
  {
  }

  lemma OtherStepsKeepReg(s: Sys, step: Step)
    requires Inv(s) && !step.DoActivate? && !step.DoCreate? && !step.DoRegister?
    ensures var reg' := Apply(s, step).reg; OneActive(reg') && RowsOk(reg') && Grown(s.reg, reg')
  {
    if step.DoInsertRollout? {
      if step.c in s.pending && s.pending[step.c].RollingOut? {
        assert PendingOk(s.reg, s.pending[step.c]);
        InsertRolloutKeepsReg(s, step.c);
      }
    } else {
      OtherStepsTouchNoRows(s, step);
      SameRowsKeepReg(s.reg, Apply(s, step).reg);
    }
  }

  lemma StepKeepsInv(s: Sys, step: Step)
    requires Inv(s)
    ensures Inv(Apply(s, step)) && Grown(s.reg, Apply(s, step).reg)
  {
    var s' := Apply(s, step);
    StepKeepsReg(s, step);
    forall c | c in s'.pending ensures PendingOk(s'.reg, s'.pending[c]) {
      if c in s.pending { PendingStaysOk(s, s'.reg, c); }
    }
  }

  lemma {:induction false} RunKeepsInv(steps: seq<Step>)
    ensures Inv(Exec(EMPTY, steps))
  {
    if |steps| > 0 {
      RunKeepsInv(steps[..|steps| - 1]);
      StepKeepsInv(Exec(EMPTY, steps[..|steps| - 1]), steps[|steps| - 1]);
    }
  }

  /** At most one version of a subject is active, and a subject that has one keeps one. */
  lemma OneActiveForEver(steps: seq<Step>, step: Step, subject: string, v: string, w: string)
    ensures var s := Exec(EMPTY, steps);
            && (IsActive(s.reg, subject, v) && IsActive(s.reg, subject, w) ==> v == w)
            && (!NoActive(s.reg, subject) ==> !NoActive(Apply(s, step).reg, subject))
  {
    var s := Exec(EMPTY, steps);
    RunKeepsInv(steps);
    if !NoActive(s.reg, subject) {
      StillActive(s, step, subject);
    }
  }

  lemma StillActive(s: Sys, step: Step, subject: string)
    requires !NoActive(s.reg, subject)
    ensures !NoActive(Apply(s, step).reg, subject)
  {
    var k :| k in s.reg.versions && k.subject == subject && s.reg.versions[k].status == Active;
    var reg' := Apply(s, step).reg;
    if step.DoActivate? && step.subject == subject && Key(subject, step.version) in s.reg.versions {
      assert k in reg'.versions;
      assert Key(subject, step.version) in reg'.versions;
    } else {
      assert k in reg'.versions && reg'.versions[k].status == Active;
    }
  }

  /** What is published is registered, carries the envelope and starts with the active version. */
  lemma PublishedVersionsAreRegistered(steps: seq<Step>, subject: string, active: Option<string>)
    requires IsCurrent(Exec(EMPTY, steps).reg, subject, active)
    ensures var reg := Exec(EMPTY, steps).reg;
            var r := ResolvePublishVersions(reg, subject, active);
            && (r == None <==> NoActive(reg, subject))
            && (r.Some? ==> 1 <= |r.value| <= 2 && Distinct(r.value) && IsActive(reg, subject, r.value[0])
                            && forall v :: v in r.value ==> Key(subject, v) in reg.versions && EnvelopeOk(reg.versions[Key(subject, v)].doc))
  {
    RunKeepsInv(steps);
    ResolvedAreRegistered(Exec(EMPTY, steps).reg, subject, active);
  }

  lemma ResolvedAreRegistered(reg: Reg, subject: string, active: Option<string>)
    requires RowsOk(reg) && IsCurrent(reg, subject, active)
    ensures var r := ResolvePublishVersions(reg, subject, active);
            && (r == None <==> NoActive(reg, subject))
            && (r.Some? ==> 1 <= |r.value| <= 2 && Distinct(r.value) && IsActive(reg, subject, r.value[0])
                            && forall v :: v in r.value ==> Key(subject, v) in reg.versions && EnvelopeOk(reg.versions[Key(subject, v)].doc))
  {
    ActiveRolloutIsListed(reg.rollouts, subject);
  }

  lemma {:induction false} ActiveRolloutIsListed(rollouts: seq<Rollout>, subject: string)
    ensures var r := ActiveRollout(rollouts, subject); r.Some? ==> r.value in rollouts && r.value.subject == subject && r.value.dual
  {
    if |rollouts| > 0 {
      ActiveRolloutIsListed(rollouts[..|rollouts| - 1], subject);
    }
  }

  // Everything is compatible with the first version

  function FirstDoc(reg: Reg, subject: string): Document
    requires subject in reg.first && Key(subject, reg.first[subject]) in reg.versions
  {
    reg.versions[Key(subject, reg.first[subject])].doc
  }

  predicate HasFirst(reg: Reg, subject: string)
  {
    subject in reg.first && Key(subject, reg.first[subject]) in reg.versions
  }

  predicate FollowsFirst(reg: Reg, subject: string, doc: Document)
  {
    HasFirst(reg, subject) && Accepts(FirstDoc(reg, subject), doc)
  }

  datatype Unchecked = Unchecked(subject: string, version: string, doc: Document)

  /** The version a step writes without having compared it with any other. */
  function UncheckedWrite(s: Sys, step: Step): Option<Unchecked>
  {
    match step
    case DoRegister(subject, version, doc, active) =>
      if active == None && IsCurrent(s.reg, subject, active) && Register(s.reg, subject, version, doc, active).1 == Registered
      then Some(Unchecked(subject, version, doc)) else None
    case DoCreate(c) =>
      if c in s.pending && s.pending[c].Registering? && s.pending[c].baseline == None
         && CreateVersion(s.reg, s.pending[c].subject, s.pending[c].version, s.pending[c].doc).1 == Registered
      then Some(Unchecked(s.pending[c].subject, s.pending[c].version, s.pending[c].doc)) else None
    case _ => None
  }

  /** Such a version is the first of its subject, or the first would have accepted it. */
  predicate Fits(s: Sys, step: Step)
  {
    match UncheckedWrite(s, step)
    case Some(u) => NoVersions(s.reg, u.subject) || FollowsFirst(s.reg, u.subject, u.doc)
    case None => true
  }

  predicate FitsRun(steps: seq<Step>)
  {
    forall i :: 0 <= i < |steps| ==> Fits(Exec(EMPTY, steps[..i]), steps[i])
  }

  /** Every version of every subject is backward compatible with the first. */
  predicate VersionsFollow(reg: Reg)
  {
    forall k :: k in reg.versions ==> FollowsFirst(reg, k.subject, reg.versions[k].doc)
  }

  predicate AllFollow(s: Sys)
  {
    && VersionsFollow(s.reg)
    && (forall c :: c in s.pending && s.pending[c].Registering? && s.pending[c].baseline.Some? ==>
          FollowsFirst(s.reg, s.pending[c].subject, s.pending[c].doc))
  }

  lemma FollowingLasts(reg: Reg, reg': Reg, subject: string, doc: Document)
    requires FollowsFirst(reg, subject, doc) && Grown(reg, reg')
    ensures FollowsFirst(reg', subject, doc)
  {
  }

  lemma FirstIsItself(reg: Reg, subject: string, version: string, doc: Document)
    requires RowsOk(reg) && NoVersions(reg, subject) && CreateVersion(reg, subject, version, doc).1 == Registered
    ensures FollowsFirst(CreateVersion(reg, subject, version, doc).0, subject, doc)
  {
    AcceptsReflexive(doc);
    assert subject !in reg.first;
  }

  lemma ScreenedFollows(s: Sys, subject: string, doc: Document, active: string)
    requires AllFollow(s) && Key(subject, active) in s.reg.versions && Screen(s.reg, subject, doc, Some(active)) == Registered
    ensures FollowsFirst(s.reg, subject, doc)
  {
    var k := Key(subject, active);
    assert FollowsFirst(s.reg, subject, s.reg.versions[k].doc);
    AcceptsTransitive(FirstDoc(s.reg, subject), s.reg.versions[k].doc, doc);
  }

  /** A new version follows the first: it was checked against one that does, or it is the first. */
  lemma CreatedFollows(reg: Reg, subject: string, version: string, doc: Document)
    requires RowsOk(reg) && CreateVersion(reg, subject, version, doc).1 == Registered
    requires FollowsFirst(reg, subject, doc) || NoVersions(reg, subject)
    ensures FollowsFirst(CreateVersion(reg, subject, version, doc).0, subject, doc)
  {
    if FollowsFirst(reg, subject, doc) {
      CreateGrows(reg, subject, version, doc);
      FollowingLasts(reg, CreateVersion(reg, subject, version, doc).0, subject, doc);
    } else {
      FirstIsItself(reg, subject, version, doc);
    }
  }

  lemma RegisteredFollows(s: Sys, subject: string, version: string, doc: Document, active: Option<string>)
    requires RowsOk(s.reg) && AllFollow(s) && (active.Some? ==> Key(subject, active.value) in s.reg.versions)
    requires active == None ==> NoVersions(s.reg, subject) || FollowsFirst(s.reg, subject, doc)
    requires Register(s.reg, subject, version, doc, active).1 == Registered
    ensures FollowsFirst(Register(s.reg, subject, version, doc, active).0, subject, doc)
  {
    if active.Some? { ScreenedFollows(s, subject, doc, active.value); }
    CreatedFollows(s.reg, subject, version, doc);
  }

  lemma WrittenFollows(s: Sys, c: nat)
    requires RowsOk(s.reg) && AllFollow(s) && Fits(s, DoCreate(c)) && c in s.pending && s.pending[c].Registering?
    requires var p := s.pending[c]; CreateVersion(s.reg, p.subject, p.version, p.doc).1 == Registered
    ensures var p := s.pending[c]; FollowsFirst(CreateVersion(s.reg, p.subject, p.version, p.doc).0, p.subject, p.doc)
  {
    CreatedFollows(s.reg, s.pending[c].subject, s.pending[c].version, s.pending[c].doc);
  }

  /** A version that appears in a step follows the first. */
  lemma NewVersionFollows(s: Sys, step: Step, k: Key)
    requires RowsOk(s.reg) && AllFollow(s) && Fits(s, step)
    requires k in Apply(s, step).reg.versions && k !in s.reg.versions
    ensures FollowsFirst(Apply(s, step).reg, k.subject, Apply(s, step).reg.versions[k].doc)
  {
    match step
    case DoCreate(c) => WrittenFollows(s, c);
    case DoRegister(subject, version, doc, active) => RegisteredFollows(s, subject, version, doc, active);
    case _ => OtherStepsAddNone(s, step);
  }

  lemma OtherStepsAddNone(s: Sys, step: Step)
    requires !step.DoCreate? && !step.DoRegister?
    ensures Apply(s, step).reg.versions.Keys == s.reg.versions.Keys
  {
  }

  /** A registration screened in a step against an active version follows the first. */
  lemma NewPendingFollows(s: Sys, step: Step, c: nat)
    requires AllFollow(s) && c in Apply(s, step).pending && c !in s.pending
    requires Apply(s, step).pending[c].Registering? && Apply(s, step).pending[c].baseline.Some?
    ensures FollowsFirst(Apply(s, step).reg, Apply(s, step).pending[c].subject, Apply(s, step).pending[c].doc)
  {
    ScreenedFollows(s, step.subject, step.doc, step.active.value);
  }

  lemma StepKeepsVersionsFollowing(s: Sys, step: Step)
    requires RowsOk(s.reg) && AllFollow(s) && Fits(s, step) && Grown(s.reg, Apply(s, step).reg)
    ensures VersionsFollow(Apply(s, step).reg)
  {
    var reg' := Apply(s, step).reg;
    forall k | k in reg'.versions ensures FollowsFirst(reg', k.subject, reg'.versions[k].doc) {
      if k in s.reg.versions {
        FollowingLasts(s.reg, reg', k.subject, s.reg.versions[k].doc);
      } else {
        NewVersionFollows(s, step, k);
      }
    }
  }

  lemma PendingKeepsFollowing(s: Sys, step: Step, c: nat)
    requires AllFollow(s) && Grown(s.reg, Apply(s, step).reg) && c in Apply(s, step).pending
    requires Apply(s, step).pending[c].Registering? && Apply(s, step).pending[c].baseline.Some?
    ensures FollowsFirst(Apply(s, step).reg, Apply(s, step).pending[c].subject, Apply(s, step).pending[c].doc)
  {
    if c in s.pending {
      FollowingLasts(s.reg, Apply(s, step).reg, s.pending[c].subject, s.pending[c].doc);
    } else {
      NewPendingFollows(s, step, c);
    }
  }

  lemma StepKeepsFollowing(s: Sys, step: Step)
    requires Inv(s) && AllFollow(s) && Fits(s, step)
    ensures AllFollow(Apply(s, step))
  {
    StepKeepsReg(s, step);
    StepKeepsVersionsFollowing(s, step);
    var s' := Apply(s, step);
    forall c | c in s'.pending && s'.pending[c].Registering? && s'.pending[c].baseline.Some?
      ensures FollowsFirst(s'.reg, s'.pending[c].subject, s'.pending[c].doc)
    {
      PendingKeepsFollowing(s, step, c);
    }
  }

  lemma {:induction false} RunKeepsFollowing(steps: seq<Step>)
    requires FitsRun(steps)
    ensures AllFollow(Exec(EMPTY, steps))
  {
    if |steps| > 0 {
      var init := steps[..|steps| - 1];
      forall i | 0 <= i < |init| ensures Fits(Exec(EMPTY, init[..i]), init[i]) {
        assert init[..i] == steps[..i];
      }
      RunKeepsFollowing(init);
      RunKeepsInv(init);
      StepKeepsFollowing(Exec(EMPTY, init), steps[|steps| - 1]);
    }
  }

  lemma {:induction false} RunGrows(steps: seq<Step>, i: nat)
    requires i <= |steps|
    ensures Grown(Exec(EMPTY, steps[..i]).reg, Exec(EMPTY, steps).reg)
  {
    if i == |steps| {
      assert steps[..i] == steps;
    } else {
      var init := steps[..|steps| - 1];
      assert init[..i] == steps[..i];
      RunGrows(init, i);
      RunKeepsInv(init);
      StepKeepsInv(Exec(EMPTY, init), steps[|steps| - 1]);
    }
  }

  /** The unchecked version is in the table after its step. */
  lemma UncheckedIsWritten(s: Sys, step: Step)
    ensures var u := UncheckedWrite(s, step);
            u.Some? ==> var k := Key(u.value.subject, u.value.version);
                        k in Apply(s, step).reg.versions && Apply(s, step).reg.versions[k].doc == u.value.doc
  {
  }

  lemma FollowedBefore(reg: Reg, reg': Reg, subject: string, doc: Document)
    requires RowsOk(reg) && !NoVersions(reg, subject) && Grown(reg, reg') && FollowsFirst(reg', subject, doc)
    ensures FollowsFirst(reg, subject, doc)
  {
    var k :| k in reg.versions && k.subject == subject;
    assert subject in reg.first;
  }

  lemma FitsIfFollowed(s: Sys, step: Step, end: Reg)
    requires RowsOk(s.reg) && Grown(s.reg, end) && Grown(Apply(s, step).reg, end) && VersionsFollow(end)
    ensures Fits(s, step)
  {
    var u := UncheckedWrite(s, step);
    if u.Some? && !NoVersions(s.reg, u.value.subject) {
      UncheckedIsWritten(s, step);
      var k := Key(u.value.subject, u.value.version);
      assert FollowsFirst(end, k.subject, end.versions[k].doc);
      FollowedBefore(s.reg, end, u.value.subject, u.value.doc);
    }
  }

  lemma ExecNext(steps: seq<Step>, i: nat)
    requires i < |steps|
    ensures Exec(EMPTY, steps[..i + 1]) == Apply(Exec(EMPTY, steps[..i]), steps[i])
  {
    assert steps[..i + 1][..i] == steps[..i];
  }

  /** The state before a step of a run, and the tables at its end. */
  lemma Around(steps: seq<Step>, i: nat) returns (s: Sys, end: Reg)
    requires i < |steps|
    ensures s == Exec(EMPTY, steps[..i]) && end == Exec(EMPTY, steps).reg
    ensures RowsOk(s.reg) && Grown(s.reg, end) && Grown(Apply(s, steps[i]).reg, end)
  {
    s, end := Exec(EMPTY, steps[..i]), Exec(EMPTY, steps).reg;
    RunGrows(steps, i);
    RunKeepsInv(steps[..i]);
    assert Grown(Apply(s, steps[i]).reg, end) by {
      ExecNext(steps, i);
      RunGrows(steps, i + 1);
    }
  }

  lemma FollowersFit(steps: seq<Step>, i: nat)
    requires i < |steps| && VersionsFollow(Exec(EMPTY, steps).reg)
    ensures Fits(Exec(EMPTY, steps[..i]), steps[i])
  {
    var s, end := Around(steps, i);
    FitsIfFollowed(s, steps[i], end);
  }

  /** After any run, every version ever registered is backward compatible with the first of
      its subject exactly when every version written unchecked was itself the first or one
      the first accepts. */
  lemma AllCompatibleIff(steps: seq<Step>)
    ensures VersionsFollow(Exec(EMPTY, steps).reg) <==> FitsRun(steps)
  {
    if FitsRun(steps) {
      RunKeepsFollowing(steps);
    }
    if VersionsFollow(Exec(EMPTY, steps).reg) {
      forall i | 0 <= i < |steps| ensures Fits(Exec(EMPTY, steps[..i]), steps[i]) {
        FollowersFit(steps, i);
      }
    }
  }

  /** A version that was checked against nothing is created only as the first of its
      subject. For undisturbed registrations: only one version is registered before the
      first activation. */
  predicate FirstOnly(s: Sys, step: Step)
  {
    match step
    case DoRegister(subject, _, _, active) => active == None ==> NoVersions(s.reg, subject)
    case DoCreate(c) =>
      c in s.pending && s.pending[c].Registering? && s.pending[c].baseline == None ==> NoVersions(s.reg, s.pending[c].subject)
    case _ => true
  }

  predicate FirstOnlyRun(steps: seq<Step>)
  {
    forall i :: 0 <= i < |steps| ==> FirstOnly(Exec(EMPTY, steps[..i]), steps[i])
  }

  /** Closed payloads of the first version stay valid under one that follows it and declares what it requires. */
  lemma FollowerKeepsPayloads(first: Document, doc: Document)
    requires Accepts(first, doc) && first.typ == doc.typ && DeclaredWhereShared(first, doc)
    ensures KeepsOldPayloads(first, doc)
  {
    forall v | Valid(first, v) && Closed(first, v) ensures Valid(doc, v) {
      OldPayloadStaysValid(first, doc, v);
    }
  }

  /** In particular when only first versions are written unchecked: every version is backward
      compatible with the first one, so closed payloads of the first stay valid under it
      wherever it declares what it requires. */
  lemma AllCompatibleWithFirst(steps: seq<Step>, k: Key)
    requires FirstOnlyRun(steps) && k in Exec(EMPTY, steps).reg.versions
    ensures var reg := Exec(EMPTY, steps).reg;
            && FollowsFirst(reg, k.subject, reg.versions[k].doc)
            && (DeclaredWhereShared(FirstDoc(reg, k.subject), reg.versions[k].doc) ==>
                  KeepsOldPayloads(FirstDoc(reg, k.subject), reg.versions[k].doc))
  {
    forall i | 0 <= i < |steps| ensures Fits(Exec(EMPTY, steps[..i]), steps[i]) {
      assert FirstOnly(Exec(EMPTY, steps[..i]), steps[i]);
    }
    AllCompatibleIff(steps);
    RunKeepsInv(steps);
    var reg := Exec(EMPTY, steps).reg;
    assert FollowsFirst(reg, k.subject, reg.versions[k].doc);
    if DeclaredWhereShared(FirstDoc(reg, k.subject), reg.versions[k].doc) {
      FollowerKeepsPayloads(FirstDoc(reg, k.subject), reg.versions[k].doc);
    }
  }

  // When the check is skipped

  /** An envelope whose event ids have the given type. */
  function PlainEnvelope(idType: string): Document
  {
    Document(OBJECT,
             map f | f in ENVELOPE :: if f == "payload" then Document(OBJECT, map[], [])
                                      else Document(if f == "event_id" then idType else "string", map[], []),
             ENVELOPE)
  }

  lemma PlainEnvelopeOk(idType: string)
    ensures EnvelopeOk(PlainEnvelope(idType))
    ensures "event_id" in PlainEnvelope(idType).props && PlainEnvelope(idType).props["event_id"].typ == idType
  {
    assert ENVELOPE[0] == "event_id" && "event_id" in ENVELOPE;
    assert |"event_id"| != |"payload"|;
  }

  /** Two valid documents the check refuses, as the race below needs them. */
  lemma IncompatibleEnvelopes()
    ensures EnvelopeOk(PlainEnvelope("string")) && EnvelopeOk(PlainEnvelope("number"))
    ensures !Accepts(PlainEnvelope("string"), PlainEnvelope("number"))
  {
    var a, b := PlainEnvelope("string"), PlainEnvelope("number");
    PlainEnvelopeOk("string");
    PlainEnvelopeOk("number");
    assert "string"[0] != "number"[0];
    assert !FieldAccepts(a, b, "event_id");
  }

  lemma ExecSnoc(s: Sys, steps: seq<Step>, step: Step)
    ensures Exec(s, steps + [step]) == Apply(Exec(s, steps), step)
  {
    assert (steps + [step])[..|steps|] == steps;
  }

  lemma ScreenedAlone(steps: seq<Step>, reg: Reg, pending: map<nat, Pending>, c: nat, version: string, doc: Document)
    requires Exec(EMPTY, steps) == Sys(reg, pending) && reg.versions == map[] && c !in pending && EnvelopeOk(doc)
    ensures Exec(EMPTY, steps + [DoScreen(c, "x", version, doc, None)])
            == Sys(reg, pending[c := Registering("x", version, doc, None)])
  {
    ExecSnoc(EMPTY, steps, DoScreen(c, "x", version, doc, None));
  }

  const RACING := Reg({"x"}, map[], [], map[], 0)

  lemma SubjectCreated() returns (steps: seq<Step>)
    ensures Exec(EMPTY, steps) == Sys(RACING, map[])
  {
    steps := [] + [DoCreateSchema("x")];
    ExecSnoc(EMPTY, [], DoCreateSchema("x"));
  }

  lemma OneScreened(a: Document) returns (steps: seq<Step>)
    requires EnvelopeOk(a)
    ensures Exec(EMPTY, steps) == Sys(RACING, map[0 := Registering("x", "1", a, None)])
  {
    var before := SubjectCreated();
    ScreenedAlone(before, RACING, map[], 0, "1", a);
    steps := before + [DoScreen(0, "x", "1", a, None)];
  }

  lemma BothScreened(a: Document, b: Document) returns (steps: seq<Step>)
    requires EnvelopeOk(a) && EnvelopeOk(b)
    ensures Exec(EMPTY, steps) == Sys(RACING, map[0 := Registering("x", "1", a, None), 1 := Registering("x", "2", b, None)])
  {
    var before := OneScreened(a);
    ScreenedAlone(before, RACING, map[0 := Registering("x", "1", a, None)], 1, "2", b);
    steps := before + [DoScreen(1, "x", "2", b, None)];
  }

  lemma OneWritten(a: Document, b: Document) returns (steps: seq<Step>)
    requires EnvelopeOk(a) && EnvelopeOk(b)
    ensures Exec(EMPTY, steps) == Sys(Reg({"x"}, map[Key("x", "1") := Version(a, Draft, None, 0)], [], map["x" := "1"], 0),
                                      map[1 := Registering("x", "2", b, None)])
  {
    var before := BothScreened(a, b);
    ExecSnoc(EMPTY, before, DoCreate(0));
    steps := before + [DoCreate(0)];
    assert map[0 := Registering("x", "1", a, None), 1 := Registering("x", "2", b, None)] - {0}
           == map[1 := Registering("x", "2", b, None)];
  }

  lemma SecondWritten(reg: Reg, a: Document, b: Document)
    requires reg == Reg({"x"}, map[Key("x", "1") := Version(a, Draft, None, 0)], [], map["x" := "1"], 0) && EnvelopeOk(a)
    ensures var s' := Apply(Apply(Sys(reg, map[1 := Registering("x", "2", b, None)]), DoActivate("x", "1")), DoCreate(1));
            && Key("x", "2") in s'.reg.versions && IsActive(s'.reg, "x", "1")
            && s'.reg.versions[Key("x", "1")].doc == a && s'.reg.versions[Key("x", "2")].doc == b
  {
    assert "1"[0] != "2"[0];
  }

  /** Two registrations screened before the first activation: only one of them is written
      before it, and yet the other, written after it, is never checked. */
  lemma RacingRegistrationEscapesCheck(a: Document, b: Document) returns (steps: seq<Step>)
    requires EnvelopeOk(a) && EnvelopeOk(b)
    ensures var s, s' := Exec(EMPTY, steps), Exec(EMPTY, steps + [DoActivate("x", "1")] + [DoCreate(1)]);
            && s.reg.versions.Keys == {Key("x", "1")} && NoActive(s.reg, "x")
            && Key("x", "2") in s'.reg.versions && IsActive(s'.reg, "x", "1")
            && s'.reg.versions[Key("x", "1")].doc == a && s'.reg.versions[Key("x", "2")].doc == b
  {
    steps := OneWritten(a, b);
    ExecSnoc(EMPTY, steps, DoActivate("x", "1"));
    ExecSnoc(EMPTY, steps + [DoActivate("x", "1")], DoCreate(1));
    SecondWritten(Exec(EMPTY, steps).reg, a, b);
  }
}
