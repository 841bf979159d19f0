/** The registry tables updated in place, and the start-up loop that loads fixtures. */
module RegistryService {
  import opened Common
  import opened Compat
  import opened Registry
  import opened RegistryLaws

  datatype Fixture = Fixture(version: string, doc: Document)

  /** Active rows of the subject among some keys come no later than the one found. */
  ghost predicate BestOf(versions: map<Key, Version>, subject: string, keys: set<Key>, best: Option<string>)
  {
    match best
    case None => forall k :: k in keys && k in versions && k.subject == subject ==> versions[k].status != Active
    case Some(v) =>
      && Key(subject, v) in versions && versions[Key(subject, v)].status == Active
      && forall k :: k in keys && k in versions && k.subject == subject && versions[k].status == Active ==>
           NotAfter(versions[k], versions[Key(subject, v)])
  }

  class Service {
    var subjects: set<string>
    var versions: map<Key, Version>
    var rollouts: seq<Rollout>
    ghost var first: map<string, string>
    var now: int

    ghost function State(): Reg
      reads this
    {
      Reg(subjects, versions, rollouts, first, now)
    }

    constructor ()
      ensures State() == EMPTY.reg
    {
      subjects, versions, rollouts, first, now := {}, map[], [], map[], 0;
    }

    method GetActiveVersion(subject: string) returns (active: Option<string>)
      ensures IsCurrent(State(), subject, active)
      ensures active == None <==> forall k :: k in versions && k.subject == subject ==> versions[k].status != Active
      ensures active.Some? ==> forall k :: k in versions && k.subject == subject && versions[k].status == Active ==>
                var a, b := versions[k], versions[Key(subject, active.value)];
                && (a.activatedAt.Some? ==> b.activatedAt.Some? && a.activatedAt.value <= b.activatedAt.value)
                && (a.activatedAt == b.activatedAt ==> a.createdAt <= b.createdAt)
    {
      active := None;
      var rest := versions.Keys;
      while rest != {}
        invariant rest <= versions.Keys
        invariant BestOf(versions, subject, versions.Keys - rest, active)
        decreases |rest|
      {
        var k :| k in rest;
        if k.subject == subject && versions[k].status == Active
           && (active == None || NotAfter(versions[Key(subject, active.value)], versions[k])) {
          active := Some(k.version);
          assert k == Key(subject, k.version);
        }
        rest := rest - {k};
      }
    }

    method RegisterVersion(subject: string, version: string, doc: Document)
      returns (r: RegisterResult, ghost active: Option<string>)
      modifies this`versions, this`first
      ensures IsCurrent(old(State()), subject, active)
      ensures (State(), r) == Register(old(State()), subject, version, doc, active)
    {
      var e := ValidateDocument(doc);
      var previous := GetActiveVersion(subject);
      active := previous;
      if e.Some? {
        return Invalid, active;
      }
      if previous.Some? {
        var backward, forward := CheckCompatibility(versions[Key(subject, previous.value)].doc, doc);
        if |backward| > 0 || |forward| > 0 {
          return Incompatible, active;
        }
      }
      if Key(subject, version) in versions {
        return VersionExists, active;
      }
      if subject !in subjects {
        return UnknownSubject, active;
      }
      versions := versions[Key(subject, version) := Version(doc, Draft, None, now)];
      first := if subject in first then first else first[subject := version];
      r := Registered;
    }

    method ActivateVersion(subject: string, version: string) returns (ok: bool)
      modifies this`versions, this`rollouts
      ensures (State(), ok) == Activate(old(State()), subject, version)
    {
      var k := Key(subject, version);
      if k !in versions {
        return false;
      }
      var e := ValidateDocument(versions[k].doc);
      if e.Some? {
        return false;
      }
      versions := Deprecate(versions, subject);
      versions := versions[k := versions[k].(status := Active, activatedAt := Some(now))];
      var updated: seq<Rollout> := [];
      for i := 0 to |rollouts|
        invariant |updated| == i && rollouts == old(rollouts)
        invariant forall j :: 0 <= j < i ==> updated[j] == CompleteRollouts(rollouts, subject, version)[j]
        invariant State() == Activate(old(State()), subject, version).0.(rollouts := old(rollouts))
      {
        var r := rollouts[i];
        if r.subject == subject && r.dual && r.to == version {
          r := r.(dual := false);
        }
        updated := updated + [r];
      }
      assert updated == CompleteRollouts(old(rollouts), subject, version);
      rollouts := updated;
      ok := true;
    }

    method CreateRollout(subject: string, from: string, to: string) returns (ok: bool)
      modifies this`rollouts
      ensures exists active :: IsCurrent(old(State()), subject, active) && ok == RolloutAllowed(old(State()), subject, from, to, active)
      ensures rollouts == if ok then old(rollouts) + [Rollout(subject, from, to, true)] else old(rollouts)
      ensures ok ==> from != to && IsActive(State(), subject, from)
      ensures OneActive(old(State())) ==>
                (ok <==> from != to && IsActive(State(), subject, from)
                         && Key(subject, to) in versions && versions[Key(subject, to)].status != Retired)
    {
      var active := GetActiveVersion(subject);
      assert IsCurrent(old(State()), subject, active);
      if from == to || active == None || active.value != from || Key(subject, to) !in versions
         || versions[Key(subject, to)].status == Retired {
        return false;
      }
      rollouts := rollouts + [Rollout(subject, from, to, true)];
      ok := true;
    }

    method GetActiveRollout(subject: string) returns (r: Option<Rollout>)
      ensures r == ActiveRollout(rollouts, subject)
      ensures r.Some? ==> exists i :: IsNewestDual(rollouts, subject, i) && rollouts[i] == r.value
      ensures r == None ==> forall i :: 0 <= i < |rollouts| ==> !(rollouts[i].subject == subject && rollouts[i].dual)
    {
      ActiveRolloutIsNewest(rollouts, subject);
      var i := |rollouts|;
      assert rollouts[..i] == rollouts;
      while i > 0
        invariant 0 <= i <= |rollouts|
        invariant ActiveRollout(rollouts, subject) == ActiveRollout(rollouts[..i], subject)
      {
        i := i - 1;
        assert rollouts[..i + 1][..i] == rollouts[..i];
        if rollouts[i].subject == subject && rollouts[i].dual {
          return Some(rollouts[i]);
        }
      }
      r := None;
    }

    method ResolvePublish(subject: string) returns (r: Option<seq<string>>)
      ensures r == None <==> NoActive(State(), subject)
      ensures exists active :: IsCurrent(State(), subject, active) && r == ResolvePublishVersions(State(), subject, active)
    {
      var active := GetActiveVersion(subject);
      if active == None {
        return None;
      }
      var rollout := GetActiveRollout(subject);
      if rollout.Some? && rollout.value.from == active.value {
        return Some([rollout.value.from, rollout.value.to]);
      }
      r := Some([active.value]);
    }

    /** Register a fixture version unless it is already there. */
    method EnsureRegistered(subject: string, fixture: Fixture) returns (ok: bool)
      requires OneActive(State()) && RowsOk(State())
      modifies this`versions, this`first
      ensures OneActive(State()) && RowsOk(State()) && OnlyAdds(old(State()), State(), subject, fixture)
      ensures ok <==> Key(subject, fixture.version) in versions
    {
      if Key(subject, fixture.version) in versions {
        return true;
      }
      ghost var reg := State();
      var r, active := RegisterVersion(subject, fixture.version, fixture.doc);
      ok := r == Registered;
      if ok {
        CreateKeepsReg(reg, subject, fixture.version, fixture.doc);
        RegisterOnlyAdds(reg, subject, fixture, active);
      }
    }

    method StartLoading(subject: string, fixtures: seq<Fixture>, ghost clean: bool) returns (active: Option<string>)
      requires OneActive(State()) && RowsOk(State()) && |fixtures| > 0 && clean == NoVersions(State(), subject)
      ensures Loaded(clean, State(), subject, fixtures, 0, active)
    {
      active := GetActiveVersion(subject);
    }

    /** One turn of the start-up loop: register the version, and activate the very first. */
    method LoadNext(subject: string, fixtures: seq<Fixture>, i: nat, current: Option<string>, ghost clean: bool)
      returns (ok: bool, active: Option<string>)
      requires i < |fixtures| && Loaded(clean, State(), subject, fixtures, i, current)
      modifies this`versions, this`first, this`rollouts
      ensures OneActive(State()) && RowsOk(State())
      ensures if ok then Loaded(clean, State(), subject, fixtures, i + 1, active)
              else Key(subject, fixtures[i].version) !in versions && (clean ==> CompatibleWith(State(), subject, fixtures[0].doc))
    {
      active := current;
      ok := EnsureRegistered(subject, fixtures[i]);
      LoadsOne(clean, old(State()), State(), subject, fixtures, i, current);
      if ok && active == None {
        ActivatesBaseline(clean, State(), subject, fixtures);
        ok := ActivateVersion(subject, fixtures[0].version);
        active := Some(fixtures[0].version);
      }
    }

    /** Start-up for one subject: afterwards every fixture version is registered, the latest
        is active, and from a clean slate each one is compatible with the first. */
    method Bootstrap(subject: string, fixtures: seq<Fixture>) returns (ok: bool)
      requires OneActive(State()) && RowsOk(State())
      modifies this`subjects, this`versions, this`first, this`rollouts
      ensures OneActive(State()) && RowsOk(State())
      ensures ok && |fixtures| > 0 ==> IsActive(State(), subject, fixtures[|fixtures| - 1].version)
      ensures ok <==> forall j :: 0 <= j < |fixtures| ==> Key(subject, fixtures[j].version) in versions
      ensures NoVersions(old(State()), subject) && |fixtures| > 0 ==>
                CompatibleWith(State(), subject, fixtures[0].doc)
    {
      subjects := subjects + {subject};
      if |fixtures| == 0 {
        return true;
      }
      ghost var clean := NoVersions(State(), subject);
      var active := StartLoading(subject, fixtures, clean);
      for i := 0 to |fixtures|
        invariant Loaded(clean, State(), subject, fixtures, i, active)
      {
        ok, active := LoadNext(subject, fixtures, i, active, clean);
        if !ok {
          return;
        }
      }
      ok := true;
      if active.value != fixtures[|fixtures| - 1].version {
        ok := ActivateKnown(subject, fixtures[|fixtures| - 1].version);
      }
    }

    method ActivateKnown(subject: string, version: string) returns (ok: bool)
      requires OneActive(State()) && RowsOk(State()) && Key(subject, version) in versions
      modifies this`versions, this`rollouts
      ensures OneActive(State()) && RowsOk(State()) && IsActive(State(), subject, version) && ok
      ensures versions.Keys == old(versions).Keys && forall k :: k in versions ==> versions[k].doc == old(versions)[k].doc
    {
      ActivateKeepsRows(State(), subject, version);
      ActivateKeepsOneActive(State(), subject, version);
      ok := ActivateVersion(subject, version);
    }
  }

  /** Only the fixture's row may appear, as a draft checked against every active version. */
  ghost predicate OnlyAdds(reg: Reg, reg': Reg, subject: string, fixture: Fixture)
  {
    && (forall k :: k in reg.versions ==> k in reg'.versions && reg'.versions[k] == reg.versions[k])
    && (forall k :: k in reg'.versions && k !in reg.versions ==>
          k == Key(subject, fixture.version) && reg'.versions[k] == Version(fixture.doc, Draft, None, reg.now))
    && (reg'.versions != reg.versions ==>
          forall v :: IsActive(reg, subject, v) ==> Accepts(reg.versions[Key(subject, v)].doc, fixture.doc))
  }

  lemma RegisterOnlyAdds(reg: Reg, subject: string, fixture: Fixture, active: Option<string>)
    requires OneActive(reg) && IsCurrent(reg, subject, active)
    requires Register(reg, subject, fixture.version, fixture.doc, active).1 == Registered
    ensures OnlyAdds(reg, Register(reg, subject, fixture.version, fixture.doc, active).0, subject, fixture)
  {
    forall v | IsActive(reg, subject, v) ensures Accepts(reg.versions[Key(subject, v)].doc, fixture.doc) {
      assert active == Some(v);
    }
  }

  /** Where the loop stands after some fixtures; `clean` when the subject had no version before. */
  ghost predicate Loaded(clean: bool, reg: Reg, subject: string, fixtures: seq<Fixture>, i: nat, active: Option<string>)
    requires i <= |fixtures| && |fixtures| > 0
  {
    && OneActive(reg) && RowsOk(reg)
    && (forall j :: 0 <= j < i ==> Key(subject, fixtures[j].version) in reg.versions)
    && (active.Some? ==> IsActive(reg, subject, active.value))
    && (active == None ==> NoActive(reg, subject) && i == 0)
    && (clean && i == 0 ==> NoVersions(reg, subject) && active == None)
    && (clean && i > 0 ==> active == Some(fixtures[0].version) && AllAfter(reg, subject, fixtures[0]))
  }

  /** Every version of the subject is backward compatible with the document. */
  ghost predicate CompatibleWith(reg: Reg, subject: string, doc: Document)
  {
    forall k :: k in reg.versions && k.subject == subject ==> Accepts(doc, reg.versions[k].doc)
  }

  /** The first fixture is in place and every version of the subject is compatible with it. */
  ghost predicate AllAfter(reg: Reg, subject: string, fixture: Fixture)
  {
    && Key(subject, fixture.version) in reg.versions && reg.versions[Key(subject, fixture.version)].doc == fixture.doc
    && CompatibleWith(reg, subject, fixture.doc)
  }

  lemma LoadsOne(clean: bool, reg: Reg, reg': Reg, subject: string, fixtures: seq<Fixture>, i: nat, active: Option<string>)
    requires i < |fixtures| && Loaded(clean, reg, subject, fixtures, i, active)
    requires OneActive(reg') && RowsOk(reg') && OnlyAdds(reg, reg', subject, fixtures[i])
    ensures active.Some? && Key(subject, fixtures[i].version) in reg'.versions ==> Loaded(clean, reg', subject, fixtures, i + 1, active)
    ensures active == None ==> i == 0 && NoActive(reg', subject)
    ensures clean && (i > 0 || Key(subject, fixtures[0].version) in reg'.versions) ==> AllAfter(reg', subject, fixtures[0])
    ensures clean && i == 0 && Key(subject, fixtures[0].version) !in reg'.versions ==> NoVersions(reg', subject)
  {
    if clean && i == 0 {
      FirstFixtureAlone(reg, reg', subject, fixtures[0]);
    }
    if clean && i > 0 {
      NextFixtureFits(reg, reg', subject, fixtures[0], fixtures[i]);
    }
    if active.Some? { assert IsActive(reg', subject, active.value); }
  }

  lemma FirstFixtureAlone(reg: Reg, reg': Reg, subject: string, fixture: Fixture)
    requires NoVersions(reg, subject) && OnlyAdds(reg, reg', subject, fixture)
    ensures if Key(subject, fixture.version) in reg'.versions then AllAfter(reg', subject, fixture) else NoVersions(reg', subject)
  {
    AcceptsReflexive(fixture.doc);
  }

  lemma NextFixtureFits(reg: Reg, reg': Reg, subject: string, base: Fixture, fixture: Fixture)
    requires AllAfter(reg, subject, base) && IsActive(reg, subject, base.version) && OnlyAdds(reg, reg', subject, fixture)
    ensures AllAfter(reg', subject, base)
  {
  }

  lemma ActivatesBaseline(clean: bool, reg: Reg, subject: string, fixtures: seq<Fixture>)
    requires |fixtures| > 0 && OneActive(reg) && RowsOk(reg) && Key(subject, fixtures[0].version) in reg.versions
    requires clean ==> AllAfter(reg, subject, fixtures[0])
    ensures Activate(reg, subject, fixtures[0].version).1
    ensures Loaded(clean, Activate(reg, subject, fixtures[0].version).0, subject, fixtures, 1, Some(fixtures[0].version))
  {
    ActivateKeepsRows(reg, subject, fixtures[0].version);
    ActivateKeepsOneActive(reg, subject, fixtures[0].version);
  }
}
