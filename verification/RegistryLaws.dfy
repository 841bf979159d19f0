/** What each registry operation decides and writes, in terms of the rows. */
module RegistryLaws {
  import opened Common
  import opened Compat
  import opened Registry

  /** A registration is refused for the first of: an incomplete envelope, a problem with the active
      version, a version that exists, an unknown subject. Otherwise it adds one draft. */
  lemma RegisterLaw(reg: Reg, subject: string, version: string, doc: Document, active: Option<string>)
    requires IsCurrent(reg, subject, active)
    ensures var out := Register(reg, subject, version, doc, active);
            var enveloped := doc.typ == "object" && CarriesEnvelope(doc);
            var compatible := active.Some? ==> forall q: Problem :: !AtPath(reg.versions[Key(subject, active.value)].doc, doc, q.path, q);
            && (out.1 == Invalid <==> !enveloped)
            && (out.1 == Incompatible <==> enveloped && !compatible)
            && (out.1 == VersionExists <==> enveloped && compatible && Key(subject, version) in reg.versions)
            && (out.1 == UnknownSubject
                <==> enveloped && compatible && Key(subject, version) !in reg.versions && subject !in reg.subjects)
            && (out.1 != Registered ==> out.0 == reg)
            && (out.1 == Registered ==>
                  && out.0.versions == reg.versions[Key(subject, version) := Version(doc, Draft, None, reg.now)]
                  && out.0.rollouts == reg.rollouts && out.0.subjects == reg.subjects)
  {
    EnvelopeOkIff(doc);
    if active.Some? { AcceptedIff(reg.versions[Key(subject, active.value)].doc, doc); }
  }

  /** An activation goes through for a registered version that carries the envelope. It alone becomes
      active, the active versions of the subject before it are deprecated, rollouts to it are over,
      and nothing else changes. */
  lemma ActivateLaw(reg: Reg, subject: string, version: string)
    ensures var (reg', ok) := Activate(reg, subject, version);
            var k := Key(subject, version);
            && (ok <==> k in reg.versions && reg.versions[k].doc.typ == "object" && CarriesEnvelope(reg.versions[k].doc))
            && (!ok ==> reg' == reg)
            && (ok ==>
                  && reg'.versions.Keys == reg.versions.Keys
                  && reg'.versions[k] == reg.versions[k].(status := Active, activatedAt := Some(reg.now))
                  && (forall j :: j in reg.versions && j != k ==>
                        reg'.versions[j] == if j.subject == subject && reg.versions[j].status == Active
                                            then reg.versions[j].(status := Deprecated) else reg.versions[j])
                  && |reg'.rollouts| == |reg.rollouts|
                  && (forall i :: 0 <= i < |reg.rollouts| ==>
                        reg'.rollouts[i] == if reg.rollouts[i].subject == subject && reg.rollouts[i].to == version
                                            then reg.rollouts[i].(dual := false) else reg.rollouts[i])
                  && reg'.subjects == reg.subjects && reg'.now == reg.now)
  {
    if Key(subject, version) in reg.versions { EnvelopeOkIff(reg.versions[Key(subject, version)].doc); }
  }

  /** The newest rollout of the subject that still publishes both versions. */
  predicate IsNewestDual(rollouts: seq<Rollout>, subject: string, i: int)
  {
    && 0 <= i < |rollouts| && rollouts[i].subject == subject && rollouts[i].dual
    && forall j :: i < j < |rollouts| ==> !(rollouts[j].subject == subject && rollouts[j].dual)
  }

  lemma {:induction false} ActiveRolloutIsNewest(rollouts: seq<Rollout>, subject: string)
    ensures var r := ActiveRollout(rollouts, subject);
            && (r.Some? ==> exists i :: IsNewestDual(rollouts, subject, i) && rollouts[i] == r.value)
            && (r == None ==> forall i :: 0 <= i < |rollouts| ==> !(rollouts[i].subject == subject && rollouts[i].dual))
  {
    if |rollouts| > 0 {
      var n := |rollouts| - 1;
      ActiveRolloutIsNewest(rollouts[..n], subject);
      if rollouts[n].subject == subject && rollouts[n].dual {
        assert IsNewestDual(rollouts, subject, n);
      } else if i :| IsNewestDual(rollouts[..n], subject, i) {
        assert IsNewestDual(rollouts, subject, i);
      }
    }
  }

  lemma NewestDualIsUnique(rollouts: seq<Rollout>, subject: string, i: int, j: int)
    requires IsNewestDual(rollouts, subject, i) && IsNewestDual(rollouts, subject, j)
    ensures i == j
  {
  }

  /** Both versions are published exactly when the newest rollout still publishing both starts from
      the active version; otherwise the active version is published alone, and nothing without one. */
  lemma BothPublishedIff(reg: Reg, subject: string, active: Option<string>)
    ensures var r := ResolvePublishVersions(reg, subject, active);
            && (r == None <==> active == None)
            && (active.Some? ==>
                  && (forall i :: IsNewestDual(reg.rollouts, subject, i) && reg.rollouts[i].from == active.value ==>
                        r == Some([active.value, reg.rollouts[i].to]))
                  && ((forall i :: IsNewestDual(reg.rollouts, subject, i) ==> reg.rollouts[i].from != active.value) ==>
                        r == Some([active.value])))
  {
    ActiveRolloutIsNewest(reg.rollouts, subject);
    var r := ActiveRollout(reg.rollouts, subject);
    if r.Some? {
      var i :| IsNewestDual(reg.rollouts, subject, i) && reg.rollouts[i] == r.value;
      forall j | IsNewestDual(reg.rollouts, subject, j) ensures j == i {
        NewestDualIsUnique(reg.rollouts, subject, i, j);
      }
    }
  }
}
