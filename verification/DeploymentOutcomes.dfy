/** What deploys and teardowns leave behind, said of the directory, the registry and the event. */
module DeploymentOutcomes {
  import opened Text
  import opened HoneyNames
  import opened DeploymentHistory
  import opened Provisioning
  import opened ProvisionedEntries
  import opened Deception
  import opened DeploymentTheorems
  import opened Detection
  import Monitoring
  import Runs

  // ---------------------------------------------------------------- dry runs

  /** A dry-run teardown changes nothing at all: directory, history and registry stay. */
  lemma DryRunTeardownChangesNothing(e: Env, w: World, c: TeardownCall)
    requires c.dryRun
    ensures Teardown(e, w, c) == w
  {
    if ToTear(w, c).Some? {
      DryTearChangesNothing(e.t, e.p, w.dir, ToTear(w, c).value, c.replies);
    }
  }

  /** A dry-run deploy leaves the directory alone; it does register its objects and add a record. */
  lemma DryRunDeployKeepsDirectory(e: Env, w: World, c: DeployCall)
    requires c.dryRun
    ensures Deploy(e, w, c).dir == w.dir
    ensures Deploy(e, w, c).history == Added(w.history, RecordOf(e, w.dir, c), e.maxRecords)
    ensures RecordOf(e, w.dir, c).status == PlanOnly
  {
    DryProvisionChangesNothing(e.t, e.p, w.dir, StampAll(e, c.objects), c.servers);
  }

  // ---------------------------------------------------------------- the gates

  /** The directory can only change in a live deploy that asks for it, passes the policy, has a host,
      passes the preflight and connects. */
  lemma DirectoryNeedsEveryGate(e: Env, w: World, c: DeployCall)
    requires !c.provisionAd || c.dryRun || c.blocked || !c.ldapHost || !c.preflight || c.connectRaises
    ensures Deploy(e, w, c).dir == w.dir
  {
    if c.dryRun { DryRunDeployKeepsDirectory(e, w, c); }
  }

  /** And then a willing server gets every object of the plan. */
  lemma EveryGatePassed(e: Env, w: World, c: DeployCall, dn: string)
    requires c.provisionAd && !c.dryRun && !c.blocked && c.ldapHost && c.preflight && !c.connectRaises
    requires (forall k: nat :: c.servers(k) == WILLING) && dn in PlanDns(e.t, e.p, StampAll(e, c.objects))
    ensures dn in Deploy(e, w, c).dir
  {
    var stamped := StampAll(e, c.objects);
    WillingRecordsPlan(e.t, e.p, w.dir, stamped, c.servers, false);
    WillingLosesNothing(e.t, e.p, w.dir, stamped, c.servers);
    ProvisionEffect(e.t, e.p, w.dir, stamped, c.servers);
    var rs := Recorded(Provision(e.t, e.p, w.dir, stamped, c.servers, false).results);
    var i :| 0 <= i < |Dns(rs)| && Dns(rs)[i] == dn;
    assert rs[i].dn == dn;
  }

  /** A live deploy the policy blocks leaves an empty plan on record, and its objects registered. */
  lemma BlockedDeployIsOnRecord(e: Env, w: World, c: DeployCall)
    requires c.provisionAd && c.blocked && !c.dryRun
    ensures var w' := Deploy(e, w, c);
      && w'.dir == w.dir && w'.honey == Monitoring.Named(HoneyOf(StampAll(e, c.objects)))
      && w'.history == Added(w.history, Record(c.id, [], false, false, false, PlanOnly), e.maxRecords)
  {
    assert AdWork(e, w.dir, c).results == [];
  }

  /** What a deploy puts on record, unless its graph sync raises: active exactly when something was
      provisioned live, without an exception or a failure; synced exactly when the sync ran and worked. */
  lemma RecordSaysWhatHappened(e: Env, w: World, c: DeployCall)
    requires e.maxRecords >= 1 && (c.syncGraph && !c.dryRun && !(c.provisionAd && c.blocked) ==> !c.graph.GraphRaises?)
    ensures var found, work := Find(Deploy(e, w, c).history, c.id), AdWork(e, w.dir, c);
      && found.Some?
      && var r := found.value;
         && r.id == c.id && r.dryRun == c.dryRun && r.provisioned == Recorded(work.results)
         && (r.status == Active || r.status == PlanOnly) && (r.adProvisioned <==> r.status == Active)
         && (r.status == Active <==>
              && r.provisioned != [] && !c.dryRun && !work.raised
              && forall k :: 0 <= k < |work.results| ==> work.results[k].action == "skipped" || work.results[k].success)
         && (r.graphSynced <==> c.syncGraph && !c.dryRun && !(c.provisionAd && c.blocked) && c.graph.success)
  {
    AddedFinds(w.history, RecordOf(e, w.dir, c), e.maxRecords, "");
  }

  /** A live teardown marks its record exactly when it got through every entry with success, or there
      was none; a torn-down one stays so. */
  lemma TeardownMarksIff(e: Env, w: World, c: TeardownCall)
    requires Find(w.history, c.id).Some? && !c.dryRun
    ensures var r := Find(w.history, c.id).value;
      var end := Tear(e.t, e.p, w.dir, r.provisioned, c.replies, false);
      && Find(Teardown(e, w, c).history, c.id).Some?
      && (Find(Teardown(e, w, c).history, c.id).value.status == TornDown
          <==> || r.status == TornDown || r.provisioned == []
               || (c.ldapHost && c.preflight && !c.connectRaises && !end.raised
                   && forall k :: 0 <= k < |end.results| ==> end.results[k].action == "skipped" || end.results[k].success))
      && (Teardown(e, w, c).dir == if r.status != TornDown && r.provisioned != [] && c.ldapHost && c.preflight && !c.connectRaises
                                   then end.dir else w.dir)
      && Teardown(e, w, c).honey == w.honey
  {
    MarkedFinds(w.history, c.id, c.id);
    var r := Find(w.history, c.id).value;
    if r.provisioned == [] {
      assert Tear(e.t, e.p, w.dir, [], c.replies, false).dir == w.dir;
    }
  }

  // ---------------------------------------------------------------- what a deploy makes

  /** Every entry a deploy makes is a disabled, tagged account of some planned object's kind and name,
      locked to its workstations if it is a hardened user's. */
  lemma DeployedEntriesAreBait(e: Env, w: World, c: DeployCall, dn: string)
    requires Sane(e.t) && dn in Deploy(e, w, c).dir && dn !in w.dir
    ensures var entry, stamped := Deploy(e, w, c).dir[dn], StampAll(e, c.objects);
      && Bait(e.p, entry)
      && (exists i :: 0 <= i < |stamped| && IsAccountAt(e.t, e.p, stamped[i], dn, entry))
      && (e.p.harden && entry.kind == "user" ==> entry.workstations == e.p.workstationsLock)
  {
    if c.dryRun {
      DryRunDeployKeepsDirectory(e, w, c);
    } else {
      NewEntriesAreBait(e.t, e.p, w.dir, StampAll(e, c.objects), c.servers, dn);
    }
  }

  /** Everything a live deploy puts on record, created or refreshed, is bait in the directory, unless the
      server refused a refresh. */
  lemma RecordedEntriesAreBait(e: Env, w: World, c: DeployCall)
    requires Sane(e.t) && LiveDeploy(c) && forall k: nat :: !RefusesRefresh(StampAll(e, c.objects), c.servers, k)
    ensures forall r :: r in RecordOf(e, w.dir, c).provisioned ==>
              r.dn in Deploy(e, w, c).dir && Bait(e.p, Deploy(e, w, c).dir[r.dn])
  {
    var stamped := StampAll(e, c.objects);
    forall r | r in RecordOf(e, w.dir, c).provisioned ensures BaitAt(e.p, At(Deploy(e, w, c).dir, r.dn)) {
      RecordedAreWritten(e.t, e.p, w.dir, stamped, c.servers, r);
      BaitIff(e.t, e.p, w.dir, stamped, c.servers, r.dn);
    }
  }

  // ---------------------------------------------------------------- what is detected afterwards

  /** After a deploy an event is correlated exactly when it touches a planned object that has a name,
      as stamped - by name in its target or as its actor, or by a service principal name. */
  lemma DeployDetectsIff(e: Env, w: World, c: DeployCall, a: Monitoring.RecordArgs)
    ensures var stamped := StampAll(e, c.objects);
      Monitoring.Decide(e.t, Deploy(e, w, c).honey, a).honeyObject != ""
      <==> a.autoCorrelate && exists i :: 0 <= i < |stamped| && PlannedTouches(e.t, stamped[i], a)
  {
    var stamped := StampAll(e, c.objects);
    var all := HoneyOf(stamped);
    CorrelateTouchesIff(e.t, Monitoring.Named(all), a.actor, a.target, a.eventId);
    forall h ensures h in Monitoring.Named(all) <==> h in all && h.name != "" {
      Monitoring.NamedMembers(all, h);
    }
    if i :| 0 <= i < |stamped| && PlannedTouches(e.t, stamped[i], a) {
      assert all[i] in all;
    }
  }

  predicate PlannedTouches(t: CharTable, o: PlanObject, a: Monitoring.RecordArgs) {
    Touches(t, Monitoring.Honey(o.name, o.objectType, o.spns), a.actor, a.target)
  }

  /** End to end: an event whose actor is a planned object's provisioned name, whatever its target, and
      one whose target holds a planned service principal name, is detected. */
  lemma NamedActorIsDetected(e: Env, w: World, c: DeployCall, i: nat, a: Monitoring.RecordArgs)
    requires Sane(e.t) && PrefixFits(e.t, e.p.names) && a.autoCorrelate
    requires i < |c.objects| && Provisionable(c.objects[i])
    requires || FoldedSame(e.t, ProvisionedName(e.t, e.p, StampAll(e, c.objects)[i]), a.actor)
             || exists s | s in c.objects[i].spns :: s != "" && FoldedIn(e.t, s, a.target)
    ensures Detected(e.t, Deploy(e, w, c).honey, a)
  {
    var o := StampAll(e, c.objects)[i];
    var h := Monitoring.Honey(o.name, o.objectType, o.spns);
    PlannedObjectIsRegistered(e, c.objects, i);
    MatchesTouches(e.t, h, a.actor, a.target);
    MatchIsDetected(e.t, Deploy(e, w, c).honey, h, a);
  }

  // ---------------------------------------------------------------- the deletion guard

  /** The DN ends in the honey OU, whatever the case of its letters. */
  predicate InOu(t: CharTable, p: Settings, dn: string) {
    FoldedAt(t, p.honeyOu, dn, |dn| - |p.honeyOu|)
  }

  lemma EndsInOu(t: CharTable, p: Settings, dn: string)
    ensures EndsWith(Lower(t, dn), Lower(t, p.honeyOu)) <==> InOu(t, p, dn)
  {
    var ou, at := p.honeyOu, |dn| - |p.honeyOu|;
    if |ou| <= |dn| {
      var tail := Lower(t, dn)[at..];
      forall k | 0 <= k < |ou| ensures tail[k] == t.lower(dn[at + k]) && Lower(t, ou)[k] == t.lower(ou[k]) {
      }
    }
  }

  lemma StartsFolded(t: CharTable, s: string, part: string)
    ensures StartsWith(Lower(t, s), Lower(t, part)) <==> FoldedAt(t, part, s, 0)
  {
    if StartsWith(Lower(t, s), Lower(t, part)) {
      forall k | 0 <= k < |part| ensures t.lower(s[0 + k]) == t.lower(part[k]) {
        assert Lower(t, part)[k] == Lower(t, s)[k];
      }
    }
  }

  /** Of an entry with a common name the guard asks that it stand in the honey OU and, where a prefix is
      required, that the name start with it. */
  lemma GuardMeans(t: CharTable, p: Settings, dn: string, cn: string, rest: string)
    requires dn == "CN=" + cn + "," + rest && ',' !in cn
    ensures IsSafeDn(t, p, dn) <==> InOu(t, p, dn) && (p.requirePrefix ==> FoldedAt(t, p.prefix, cn, 0))
  {
    EndsInOu(t, p, dn);
    StartsFolded(t, cn, p.prefix);
    assert dn == ("CN=" + cn) + [','] + rest;
    CutAtFirst("CN=" + cn, ',', rest);
    ValueAfterCn(cn);
  }

  lemma BuiltDnIsInOu(t: CharTable, p: Provisioner, o: PlanObject)
    ensures InOu(t, p.names, ObjectDn(t, p, o))
  {
    LowerSuffix(t, p.names, ProvisionedName(t, p, o));
    EndsInOu(t, p.names, ObjectDn(t, p, o));
  }

  lemma {:induction false} ProvisionKeepsOutside(
      t: CharTable, p: Provisioner, dir: Directory, objects: seq<PlanObject>, servers: nat -> Server, dryRun: bool, dn: string)
    requires !InOu(t, p.names, dn)
    ensures At(Provision(t, p, dir, objects, servers, dryRun).dir, dn) == At(dir, dn)
  {
    if objects != [] {
      var n := |objects| - 1;
      ProvisionKeepsOutside(t, p, dir, objects[..n], servers, dryRun, dn);
      BuiltDnIsInOu(t, p, objects[n]);
      NextKeepsOthers(t, p, Provision(t, p, dir, objects[..n], servers, dryRun), objects[n], servers(n), dryRun, dn);
    }
  }

  lemma NextKeepsOthers(t: CharTable, p: Provisioner, before: Progress, o: PlanObject, server: Server, dryRun: bool, dn: string)
    requires dn != ObjectDn(t, p, o)
    ensures At(ProvisionNext(t, p, before, o, server, dryRun).dir, dn) == At(before.dir, dn)
  {
  }

  /** Over every run of deploys and teardowns, whatever the prefix, the records and the server, no entry
      outside the honey OU is made, changed or deleted. */
  lemma {:induction false} OutsideOuNothingChanges(e: Env, w: World, ops: seq<Op>, dn: string)
    requires !InOu(e.t, e.p.names, dn)
    ensures At(Run(e, w, ops).dir, dn) == At(w.dir, dn)
  {
    if ops != [] {
      var rest, op := ops[..|ops| - 1], ops[|ops| - 1];
      var before := Run(e, w, rest);
      OutsideOuNothingChanges(e, w, rest, dn);
      match op
      case DeployOp(c) => ProvisionKeepsOutside(e.t, e.p, before.dir, StampAll(e, c.objects), c.servers, c.dryRun, dn);
      case TeardownOp(c) =>
        EndsInOu(e.t, e.p.names, dn);
        if ToTear(before, c).Some? {
          TearUntouched(e.t, e.p, before.dir, ToTear(before, c).value, c.replies, c.dryRun);
        }
    }
  }
}
