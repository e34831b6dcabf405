/** What a deploy, its record and its teardown guarantee about the directory and about detection. */
module DeploymentTheorems {
  import opened Text
  import opened HoneyNames
  import opened DeploymentHistory
  import opened Provisioning
  import opened Deception
  import opened Runs
  import Monitoring

  // ---------------------------------------------------------------- the record

  predicate OnRecord(history: seq<Record>, id: string, dn: string) {
    Find(history, id).Some? && dn in Dns(Find(history, id).value.provisioned)
  }

  lemma CoversIsIn(rs: seq<Provisioned>, dn: string)
    ensures Covers(rs, dn) <==> dn in Dns(rs)
  {
    if Covers(rs, dn) {
      var i :| 0 <= i < |rs| && rs[i].dn == dn;
      assert Dns(rs)[i] == dn;
    }
  }

  /** After a live deploy every entry it made is on its record exactly when no applied add lost
      its answer and the graph sync did not raise, or no add was applied at all. */
  lemma NewEntriesAreOnRecordIff(e: Env, w: World, c: DeployCall)
    requires e.maxRecords >= 1 && ReachesAd(c) && !c.dryRun && Find(w.history, c.id).None?
    ensures var w', stamped := Deploy(e, w, c), StampAll(e, c.objects);
      (forall dn :: dn in w'.dir && dn !in w.dir ==> OnRecord(w'.history, c.id, dn))
      <==> (!EndsEarly(c) && !LostAdd(e.t, e.p, w.dir, stamped, c.servers))
           || !SomeAdd(e.t, e.p, w.dir, stamped, c.servers)
  {
    var w', stamped := Deploy(e, w, c), StampAll(e, c.objects);
    NewEntriesRecordedIff(e.t, e.p, w.dir, stamped, c.servers);
    NewEntriesIffSomeAdd(e.t, e.p, w.dir, stamped, c.servers);
    var rs := RecordOf(e, w.dir, c).provisioned;
    forall dn ensures Covers(rs, dn) <==> dn in Dns(rs) {
      CoversIsIn(rs, dn);
    }
    if !EndsEarly(c) {
      AddedFinds(w.history, RecordOf(e, w.dir, c), e.maxRecords, "");
      assert forall dn :: OnRecord(w'.history, c.id, dn) <==> Covers(rs, dn);
    }
  }

  // ---------------------------------------------------------------- teardown undoes deploy

  predicate LiveDeploy(c: DeployCall) { ReachesAd(c) && !c.dryRun && !EndsEarly(c) }

  /** A live teardown of `id` against a server that does every delete it can. */
  ghost predicate WillingTeardown(d: TeardownCall, id: string) {
    d.id == id && !d.dryRun && d.ldapHost && d.preflight && !d.connectRaises && forall k: nat :: d.replies(k) == Done
  }

  lemma RecordIsDeletable(e: Env, dir: Directory, c: DeployCall)
    requires Sane(e.t) && SoundPrefix(e.p)
    ensures Deletable(e.t, e.p, RecordOf(e, dir, c).provisioned)
  {
    if ReachesAd(c) {
      var stamped, rs := StampAll(e, c.objects), RecordOf(e, dir, c).provisioned;
      forall k | 0 <= k < |rs| ensures rs[k].dn != "" && IsSafeDn(e.t, e.p.names, rs[k].dn) {
        RecordIsOnPlan(e.t, e.p, dir, stamped, c.servers, c.dryRun, k);
        var i :| 0 <= i < |stamped| && IsFor(e.t, e.p, stamped[i], rs[k]);
        ObjectDnIsSafe(e.t, e.p, stamped[i]);
      }
    }
  }

  /** The state after deploying and tearing down, in terms of the record. */
  lemma DeployThenTeardown(e: Env, w: World, c: DeployCall, d: TeardownCall)
    requires e.maxRecords >= 1 && Sane(e.t) && SoundPrefix(e.p) && !EndsEarly(c) && WillingTeardown(d, c.id)
    ensures var w1 := Deploy(e, w, c);
      var w2, rs := Teardown(e, w1, d), RecordOf(e, w.dir, c).provisioned;
      && (forall dn :: dn in w2.dir <==> dn in w1.dir && dn !in Dns(rs))
      && (forall dn :: dn in w2.dir ==> w2.dir[dn] == w1.dir[dn])
      && Find(w2.history, c.id).Some?
      && (Find(w2.history, c.id).value.status == TornDown <==> Distinct(Dns(rs)) && AllIn(rs, w1.dir))
  {
    var w1, record := Deploy(e, w, c), RecordOf(e, w.dir, c);
    var rs := record.provisioned;
    AddedFinds(w.history, record, e.maxRecords, "");
    MarkedFinds(w1.history, c.id, c.id);
    RecordIsDeletable(e, w.dir, c);
    TearEffect(e.t, e.p, w1.dir, rs, d.replies);
    forall dn ensures Covers(rs, dn) <==> dn in Dns(rs) {
      CoversIsIn(rs, dn);
    }
  }

  predicate NoneIn(dns: seq<string>, dir: Directory) {
    forall i :: 0 <= i < |dns| ==> dns[i] !in dir
  }

  predicate AllPresent(dns: seq<string>, dir: Directory) {
    forall i :: 0 <= i < |dns| ==> dns[i] in dir
  }

  lemma SameDirectory(dir: Directory, dir1: Directory, dir2: Directory, dns: seq<string>)
    requires forall dn :: dn in dir2 <==> dn in dir1 && dn !in dns
    requires forall dn :: dn in dir2 ==> dir2[dn] == dir1[dn]
    requires forall dn :: dn !in dns ==> (dn in dir <==> dn in dir1) && (dn in dir ==> dir1[dn] == dir[dn])
    ensures dir2 == dir <==> NoneIn(dns, dir)
  {
    if NoneIn(dns, dir) {
      assert forall dn :: dn in dir ==> dn !in dns;
      assert dir2.Keys == dir.Keys;
    } else {
      var i :| 0 <= i < |dns| && dns[i] in dir;
      assert dns[i] !in dir2;
    }
  }

  /** The directory after deploy and teardown, when one write in provisioning was lost. */
  lemma RestoredAfterLoss(
      dir: Directory, mid: Progress, dn: string, entry: Entry, rs: seq<Provisioned>, dir2: Directory)
    requires Effect(dir, mid) && rs == Recorded(mid.results)
    requires forall d :: d in dir2 <==> d in mid.dir[dn := entry] && d !in Dns(rs)
    requires forall d :: d in dir2 ==> dir2[d] == mid.dir[dn := entry][d]
    ensures dir2 == dir <==>
              NoneIn(Dns(rs), dir) && !(dn !in mid.dir) && !(dn in mid.dir && !Covers(rs, dn) && entry != mid.dir[dn])
  {
    forall d ensures Covers(rs, d) <==> d in Dns(rs) {
      CoversIsIn(rs, d);
    }
    if dn in mid.dir && (Covers(rs, dn) || entry == mid.dir[dn]) {
      SameDirectory(dir, mid.dir, dir2, Dns(rs));
    } else if dn !in mid.dir {
      assert dn in dir2 && dn !in dir;
    } else {
      assert dn in dir2 && dn in dir && dir2[dn] != dir[dn];
    }
  }

  lemma RecordedExist(e: Env, dir: Directory, c: DeployCall)
    requires LiveDeploy(c)
    ensures AllIn(RecordOf(e, dir, c).provisioned, AdWork(e, dir, c).dir)
  {
    var stamped := StampAll(e, c.objects);
    if LostWrite(e.t, e.p, dir, stamped, c.servers) {
      var mid, dn, entry := TheLostWrite(e.t, e.p, dir, stamped, c.servers);
    } else {
      ProvisionEffect(e.t, e.p, dir, stamped, c.servers);
    }
  }

  lemma ObjectDnIsBlocked(t: CharTable, p: Provisioner, o: PlanObject)
    requires Sane(t) && !SoundPrefix(p)
    ensures ObjectDn(t, p, o) != "" && !IsSafeDn(t, p.names, ObjectDn(t, p, o))
  {
    var name := EnsurePrefix(t, p.names, o.name);
    NotPlainIsUnsafe(t, p.names, o.name);
    ProvisionedNameHasNoDollar(t, p.names, o.name);
    DnIsNotBlank(p.names, name);
    assert ObjectDn(t, p, o) == DnOf(p.names, name);
  }

  lemma DnIsNotBlank(p: Settings, cn: string)
    ensures DnOf(p, cn) != ""
  {
    assert DnOf(p, cn)[0] == 'C';
  }

  lemma RecordIsBlocked(e: Env, dir: Directory, c: DeployCall)
    requires Sane(e.t) && !SoundPrefix(e.p)
    ensures AllBlocked(e, RecordOf(e, dir, c).provisioned)
  {
    if ReachesAd(c) {
      var stamped, rs := StampAll(e, c.objects), RecordOf(e, dir, c).provisioned;
      forall k | 0 <= k < |rs| ensures rs[k].dn != "" && !IsSafeDn(e.t, e.p.names, rs[k].dn) {
        RecordIsOnPlan(e.t, e.p, dir, stamped, c.servers, c.dryRun, k);
        var i :| 0 <= i < |stamped| && IsFor(e.t, e.p, stamped[i], rs[k]);
        ObjectDnIsBlocked(e.t, e.p, stamped[i]);
      }
    }
  }

  ghost predicate AllBlocked(e: Env, rs: seq<Provisioned>) {
    forall k :: 0 <= k < |rs| ==> rs[k].dn != "" && !IsSafeDn(e.t, e.p.names, rs[k].dn)
  }

  lemma {:induction false} BlockedTear(e: Env, dir: Directory, rs: seq<Provisioned>, replies: nat -> Reply, dryRun: bool)
    requires AllBlocked(e, rs)
    ensures var end := Tear(e.t, e.p, dir, rs, replies, dryRun);
      end.dir == dir && !end.raised && (rs != [] ==> end.results != [] && !AllWell(end.results))
  {
    if rs != [] {
      var n := |rs| - 1;
      BlockedTear(e, dir, rs[..n], replies, dryRun);
      var end := Tear(e.t, e.p, dir, rs, replies, dryRun);
      assert !end.results[|end.results| - 1].success;
    }
  }

  /** With a prefix the guard does not recognise every delete is blocked, whatever the teardown call
      and the server: the directory stays as deploy left it, and the record ends torn down exactly
      when it is empty and the teardown live. */
  lemma UnsoundPrefixBlocksTeardown(e: Env, w: World, c: DeployCall, d: TeardownCall)
    requires e.maxRecords >= 1 && Sane(e.t) && !SoundPrefix(e.p) && !EndsEarly(c) && d.id == c.id
    ensures var w1 := Deploy(e, w, c);
      var w2 := Teardown(e, w1, d);
      && w2.dir == w1.dir && Find(w2.history, c.id).Some?
      && (Find(w2.history, c.id).value.status == TornDown <==> RecordOf(e, w.dir, c).provisioned == [] && !d.dryRun)
  {
    var w1, record := Deploy(e, w, c), RecordOf(e, w.dir, c);
    AddedFinds(w.history, record, e.maxRecords, "");
    MarkedFinds(w1.history, c.id, c.id);
    RecordIsBlocked(e, w.dir, c);
    BlockedTear(e, w1.dir, record.provisioned, d.replies, d.dryRun);
  }

  lemma SoundTeardownRestoresIff(e: Env, w: World, c: DeployCall, d: TeardownCall)
    requires e.maxRecords >= 1 && Sane(e.t) && SoundPrefix(e.p) && LiveDeploy(c) && WillingTeardown(d, c.id)
    ensures var w2, stamped := Teardown(e, Deploy(e, w, c), d), StampAll(e, c.objects);
      var dns := Dns(RecordOf(e, w.dir, c).provisioned);
      && (w2.dir == w.dir
          <==> NoneIn(dns, w.dir) && !LostAdd(e.t, e.p, w.dir, stamped, c.servers)
               && !LostRefresh(e.t, e.p, w.dir, stamped, c.servers))
      && Find(w2.history, c.id).Some?
      && (Find(w2.history, c.id).value.status == TornDown <==> Distinct(dns))
  {
    var w1, stamped := Deploy(e, w, c), StampAll(e, c.objects);
    var rs := RecordOf(e, w.dir, c).provisioned;
    DeployThenTeardown(e, w, c, d);
    RecordedExist(e, w.dir, c);
    if LostWrite(e.t, e.p, w.dir, stamped, c.servers) {
      var mid, dn, entry := TheLostWrite(e.t, e.p, w.dir, stamped, c.servers);
      RestoredAfterLoss(w.dir, mid, dn, entry, rs, Teardown(e, w1, d).dir);
    } else {
      NoWriteNoLoss(e.t, e.p, w.dir, stamped, c.servers);
      ProvisionEffect(e.t, e.p, w.dir, stamped, c.servers);
      forall dn ensures Covers(rs, dn) <==> dn in Dns(rs) {
        CoversIsIn(rs, dn);
      }
      SameDirectory(w.dir, w1.dir, Teardown(e, w1, d).dir, Dns(rs));
    }
  }

  /** A live deploy, whatever the server accepted, refused or raised, and then a teardown with every
      delete done.  If the guard recognises the prefix, the directory is what it was before exactly
      when nothing on record existed before (an existing entry is refreshed, recorded, and deleted),
      no applied add lost its answer, and no refresh whose answer was lost changed an entry that is
      not on record; and the record ends torn down exactly when its DNs are distinct, restored or
      not.  If it does not, the directory stays as deploy left it, and the record ends torn down
      exactly when it is empty. */
  lemma TeardownRestoresIff(e: Env, w: World, c: DeployCall, d: TeardownCall)
    requires e.maxRecords >= 1 && Sane(e.t) && LiveDeploy(c) && WillingTeardown(d, c.id)
    ensures var w1, stamped := Deploy(e, w, c), StampAll(e, c.objects);
      var w2, dns := Teardown(e, w1, d), Dns(RecordOf(e, w.dir, c).provisioned);
      && (w2.dir == w.dir
          <==> if SoundPrefix(e.p)
               then NoneIn(dns, w.dir) && !LostAdd(e.t, e.p, w.dir, stamped, c.servers)
                    && !LostRefresh(e.t, e.p, w.dir, stamped, c.servers)
               else w1.dir == w.dir)
      && Find(w2.history, c.id).Some?
      && (Find(w2.history, c.id).value.status == TornDown <==> if SoundPrefix(e.p) then Distinct(dns) else dns == [])
  {
    if SoundPrefix(e.p) {
      SoundTeardownRestoresIff(e, w, c, d);
    } else {
      UnsoundPrefixBlocksTeardown(e, w, c, d);
    }
  }

  lemma SoundFreshPlanIsUndoneIff(e: Env, w: World, c: DeployCall, d: TeardownCall)
    requires e.maxRecords >= 1 && Sane(e.t) && SoundPrefix(e.p) && LiveDeploy(c) && WillingTeardown(d, c.id)
    requires var plan := PlanDns(e.t, e.p, StampAll(e, c.objects)); Distinct(plan) && NoneIn(plan, w.dir)
    ensures var w2 := Teardown(e, Deploy(e, w, c), d);
      && (w2.dir == w.dir <==> !LostAdd(e.t, e.p, w.dir, StampAll(e, c.objects), c.servers))
      && Find(w2.history, c.id).Some? && Find(w2.history, c.id).value.status == TornDown
  {
    var stamped := StampAll(e, c.objects);
    SoundTeardownRestoresIff(e, w, c, d);
    RecordFollowsPlan(e.t, e.p, w.dir, stamped, c.servers, false);
    SubsequenceKeeps(Dns(RecordOf(e, w.dir, c).provisioned), PlanDns(e.t, e.p, stamped));
    if LostWrite(e.t, e.p, w.dir, stamped, c.servers) {
      var mid, dn, entry := TheLostWrite(e.t, e.p, w.dir, stamped, c.servers);
      assert dn !in w.dir;
    } else {
      NoWriteNoLoss(e.t, e.p, w.dir, stamped, c.servers);
    }
  }

  /** If the plan's DNs are distinct and were absent, and the guard recognises the prefix, teardown
      restores the directory exactly when no applied add lost its answer, whichever adds were refused
      and wherever provisioning raised, and the record ends torn down either way.  If it does not,
      the directory is restored exactly when no add was applied. */
  lemma FreshPlanIsUndoneIff(e: Env, w: World, c: DeployCall, d: TeardownCall)
    requires e.maxRecords >= 1 && Sane(e.t) && LiveDeploy(c) && WillingTeardown(d, c.id)
    requires var plan := PlanDns(e.t, e.p, StampAll(e, c.objects)); Distinct(plan) && NoneIn(plan, w.dir)
    ensures var w2, stamped := Teardown(e, Deploy(e, w, c), d), StampAll(e, c.objects);
      && (w2.dir == w.dir
          <==> if SoundPrefix(e.p) then !LostAdd(e.t, e.p, w.dir, stamped, c.servers)
               else !SomeAdd(e.t, e.p, w.dir, stamped, c.servers))
      && Find(w2.history, c.id).Some?
      && (Find(w2.history, c.id).value.status == TornDown
          <==> SoundPrefix(e.p) || RecordOf(e, w.dir, c).provisioned == [])
  {
    if SoundPrefix(e.p) {
      SoundFreshPlanIsUndoneIff(e, w, c, d);
    } else {
      UnsoundPrefixBlocksTeardown(e, w, c, d);
      FreshPlanOnlyAdds(e, w.dir, c);
    }
  }

  lemma FreshPlanLeavesOld(e: Env, dir: Directory, c: DeployCall)
    requires LiveDeploy(c)
    requires var plan := PlanDns(e.t, e.p, StampAll(e, c.objects)); Distinct(plan) && NoneIn(plan, dir)
    ensures var dir' := AdWork(e, dir, c).dir; forall dn :: dn in dir ==> dn in dir' && dir'[dn] == dir[dn]
  {
    var stamped, rs := StampAll(e, c.objects), RecordOf(e, dir, c).provisioned;
    RecordFollowsPlan(e.t, e.p, dir, stamped, c.servers, false);
    SubsequenceKeeps(Dns(rs), PlanDns(e.t, e.p, stamped));
    forall dn | dn in dir ensures !Covers(rs, dn) {
      CoversIsIn(rs, dn);
    }
    if LostWrite(e.t, e.p, dir, stamped, c.servers) {
      var mid, dn, entry := TheLostWrite(e.t, e.p, dir, stamped, c.servers);
      assert dn !in dir;
    } else {
      ProvisionEffect(e.t, e.p, dir, stamped, c.servers);
    }
  }

  lemma FreshPlanOnlyAdds(e: Env, dir: Directory, c: DeployCall)
    requires LiveDeploy(c)
    requires var plan := PlanDns(e.t, e.p, StampAll(e, c.objects)); Distinct(plan) && NoneIn(plan, dir)
    ensures AdWork(e, dir, c).dir == dir <==> !SomeAdd(e.t, e.p, dir, StampAll(e, c.objects), c.servers)
  {
    var stamped := StampAll(e, c.objects);
    var dir' := AdWork(e, dir, c).dir;
    NewEntriesIffSomeAdd(e.t, e.p, dir, stamped, c.servers);
    FreshPlanLeavesOld(e, dir, c);
    if dir'.Keys <= dir.Keys {
      assert dir'.Keys == dir.Keys;
      assert dir' == dir;
    }
  }

  /** With a server that does everything it can throughout, the conditions are on the plan alone:
      restored exactly when its DNs were absent, torn down exactly when they are distinct - and with a
      prefix the guard does not recognise, restored exactly when deploy changed nothing, torn down
      exactly when the plan is empty. */
  lemma WillingServerIsUndoneIff(e: Env, w: World, c: DeployCall, d: TeardownCall)
    requires e.maxRecords >= 1 && Sane(e.t) && LiveDeploy(c) && WillingTeardown(d, c.id)
    requires forall k: nat :: c.servers(k) == WILLING
    ensures var w1, plan := Deploy(e, w, c), PlanDns(e.t, e.p, StampAll(e, c.objects));
      var w2 := Teardown(e, w1, d);
      && (w2.dir == w.dir <==> if SoundPrefix(e.p) then NoneIn(plan, w.dir) else w1.dir == w.dir)
      && Find(w2.history, c.id).Some?
      && (Find(w2.history, c.id).value.status == TornDown <==> if SoundPrefix(e.p) then Distinct(plan) else plan == [])
  {
    WillingLosesNothing(e.t, e.p, w.dir, StampAll(e, c.objects), c.servers);
    NoWriteNoLoss(e.t, e.p, w.dir, StampAll(e, c.objects), c.servers);
    WillingRecordsPlan(e.t, e.p, w.dir, StampAll(e, c.objects), c.servers, false);
    TeardownRestoresIff(e, w, c, d);
  }

  /** A dry run records the plan although it made nothing, so a live teardown of its record
      deletes whatever stood at those DNs: the directory survives exactly when nothing did, and
      the record ends torn down exactly when all of them did, each once.  Only with a prefix the
      guard does not recognise is nothing deleted. */
  lemma DryRunTeardownDeletes(e: Env, w: World, c: DeployCall, d: TeardownCall)
    requires e.maxRecords >= 1 && Sane(e.t) && ReachesAd(c) && c.dryRun && WillingTeardown(d, c.id)
    ensures var w1 := Deploy(e, w, c);
      var w2, plan := Teardown(e, w1, d), PlanDns(e.t, e.p, StampAll(e, c.objects));
      && w1.dir == w.dir
      && (w2.dir == w.dir <==> NoneIn(plan, w.dir) || !SoundPrefix(e.p))
      && Find(w2.history, c.id).Some?
      && (Find(w2.history, c.id).value.status == TornDown
          <==> if SoundPrefix(e.p) then Distinct(plan) && AllPresent(plan, w.dir) else plan == [])
  {
    var rs := RecordOf(e, w.dir, c).provisioned;
    WillingRecordsPlan(e.t, e.p, w.dir, StampAll(e, c.objects), c.servers, true);
    if SoundPrefix(e.p) {
      DeployThenTeardown(e, w, c, d);
      SameDirectory(w.dir, w.dir, Teardown(e, Deploy(e, w, c), d).dir, Dns(rs));
      assert AllIn(rs, w.dir) <==> AllPresent(Dns(rs), w.dir);
    } else {
      UnsoundPrefixBlocksTeardown(e, w, c, d);
    }
  }

  // ---------------------------------------------------------------- torn down is final

  ghost predicate StillTorn(w: World, id: string, r: Record) {
    Find(w.history, id) in [None, Some(r)]
  }

  lemma StepKeepsTorn(e: Env, w: World, op: Op, id: string, r: Record)
    requires e.maxRecords >= 1 && r.status == TornDown && StillTorn(w, id, r)
    requires op.DeployOp? ==> op.deploy.id != id
    ensures StillTorn(Step(e, w, op), id, r)
  {
    match op
    case DeployOp(c) => AddedFinds(w.history, RecordOf(e, w.dir, c), e.maxRecords, id);
    case TeardownOp(c) => MarkedFinds(w.history, c.id, id);
  }

  /** Once torn down, a record stays exactly as it is, whatever deploys (under other ids) and
      teardowns follow, until newer records push it out of the capped history. */
  lemma {:induction false} TornDownIsFinal(e: Env, w: World, ops: seq<Op>, id: string, r: Record)
    requires e.maxRecords >= 1 && r.status == TornDown && Find(w.history, id) == Some(r)
    requires forall k :: 0 <= k < |ops| && ops[k].DeployOp? ==> ops[k].deploy.id != id
    ensures Find(Run(e, w, ops).history, id) in [None, Some(r)]
  {
    if ops != [] {
      var rest := ops[..|ops| - 1];
      TornDownIsFinal(e, w, rest, id, r);
      StepKeepsTorn(e, Run(e, w, rest), ops[|ops| - 1], id, r);
    }
  }

  // ---------------------------------------------------------------- end-to-end detection

  /** The verdict an event gets from the registry: a named honey object, critical or high. */
  ghost predicate Detected(t: CharTable, honey: seq<Monitoring.Honey>, a: Monitoring.RecordArgs) {
    var d := Monitoring.Decide(t, honey, a);
    && d.severity in ["critical", "high"]
    && exists h :: h in honey && h.name != "" && h.name == d.honeyObject && h.objectType == d.objectType
  }

  lemma MatchIsDetected(t: CharTable, honey: seq<Monitoring.Honey>, h: Monitoring.Honey, a: Monitoring.RecordArgs)
    requires a.autoCorrelate && h in honey && Monitoring.Matches(t, h, a.actor, a.target)
    ensures Detected(t, honey, a)
  {
    Monitoring.CorrelateFindsMatch(t, honey, a.actor, a.target, a.eventId);
    var v := Monitoring.Correlate(t, honey, a.actor, a.target, a.eventId);
    assert v.name != "";
    assert Monitoring.Decide(t, honey, a).severity == v.severity;
  }

  lemma PlannedObjectIsRegistered(e: Env, objects: seq<PlanObject>, i: nat)
    requires Sane(e.t) && PrefixFits(e.t, e.p.names) && i < |objects| && Provisionable(objects[i])
    ensures var o := StampAll(e, objects)[i];
      && ProvisionedName(e.t, e.p, o) == o.name != ""
      && Monitoring.Honey(o.name, o.objectType, o.spns) in Monitoring.Named(HoneyOf(StampAll(e, objects)))
  {
    var stamped := StampAll(e, objects);
    var o := stamped[i];
    StampedAgrees(e.t, e.p.names, objects[i].name);
    ProvisionedNameHasNoDollar(e.t, e.p.names, o.name);
    var h := HoneyOf(stamped)[i];
    assert h in HoneyOf(stamped);
    Monitoring.NamedMembers(HoneyOf(stamped), h);
  }

  lemma NewAccountCarriesName(e: Env, o: PlanObject)
    requires Sane(e.t) && Provisionable(o)
    ensures Contains(NewEntry(e.t, e.p, o).sam, ProvisionedName(e.t, e.p, o))
  {
    ProvisionedNameHasNoDollar(e.t, e.p.names, o.name);
    var sam, name := NewEntry(e.t, e.p, o).sam, ProvisionedName(e.t, e.p, o);
    assert name <= sam[0..];
  }

  /** An event whose target contains a planned object's provisioned name, ignoring case, is
      detected after the deploy, whether or not the directory was reached. */
  lemma NamedTargetIsDetected(e: Env, w: World, c: DeployCall, i: nat, a: Monitoring.RecordArgs)
    requires Sane(e.t) && PrefixFits(e.t, e.p.names) && a.autoCorrelate
    requires i < |c.objects| && Provisionable(c.objects[i])
    requires Contains(Lower(e.t, a.target), Lower(e.t, ProvisionedName(e.t, e.p, StampAll(e, c.objects)[i])))
    ensures Detected(e.t, Deploy(e, w, c).honey, a)
  {
    var o := StampAll(e, c.objects)[i];
    PlannedObjectIsRegistered(e, c.objects, i);
    MatchIsDetected(e.t, Deploy(e, w, c).honey, Monitoring.Honey(o.name, o.objectType, o.spns), a);
  }

  /** End to end: an event that targets the account name of any entry a deploy made in the
      directory is correlated with a registered honey object at severity critical or high. */
  lemma NewAccountIsDetected(e: Env, w: World, c: DeployCall, dn: string, a: Monitoring.RecordArgs)
    requires Sane(e.t) && PrefixFits(e.t, e.p.names) && a.autoCorrelate
    requires var w' := Deploy(e, w, c);
      dn in w'.dir && dn !in w.dir && a.target == w'.dir[dn].sam
    ensures Detected(e.t, Deploy(e, w, c).honey, a)
  {
    var stamped := StampAll(e, c.objects);
    if c.dryRun {
      WillingRecordsPlan(e.t, e.p, w.dir, stamped, c.servers, true);
    } else {
      ProvisionAccounts(e.t, e.p, w.dir, stamped, c.servers);
      var i :| 0 <= i < |stamped| && AccountOf(e.t, e.p, stamped[i], a.target);
      NewAccountCarriesName(e, stamped[i]);
      ContainsAfterLower(e.t, a.target, ProvisionedName(e.t, e.p, stamped[i]));
      NamedTargetIsDetected(e, w, c, i, a);
    }
  }

  /** An entry that was in the directory keeps its account name through a deploy, refreshed or not. */
  lemma AccountIsKept(e: Env, w: World, c: DeployCall, dn: string)
    requires dn in w.dir
    ensures dn in Deploy(e, w, c).dir && Deploy(e, w, c).dir[dn].sam == w.dir[dn].sam
  {
    if ReachesAd(c) && c.dryRun {
      WillingRecordsPlan(e.t, e.p, w.dir, StampAll(e, c.objects), c.servers, true);
    } else if ReachesAd(c) {
      ProvisionAccounts(e.t, e.p, w.dir, StampAll(e, c.objects), c.servers);
    }
  }

  /** Every event that targets an entry which was there before the deploy, as a refreshed one was, is
      detected exactly when some object of the plan, as stamped, matches that entry's account name. */
  lemma ExistingAccountIsDetectedIff(e: Env, w: World, c: DeployCall, dn: string)
    requires dn in w.dir
    ensures dn in Deploy(e, w, c).dir && Deploy(e, w, c).dir[dn].sam == w.dir[dn].sam
    ensures var honey, sam := Deploy(e, w, c).honey, w.dir[dn].sam;
      (forall a: Monitoring.RecordArgs :: a.autoCorrelate && a.target == sam ==> Detected(e.t, honey, a))
      <==> exists h :: h in Monitoring.Named(HoneyOf(StampAll(e, c.objects))) && Monitoring.Matches(e.t, h, "", sam)
  {
    AccountIsKept(e, w, c, dn);
    var honey, sam := Deploy(e, w, c).honey, w.dir[dn].sam;
    if h :| h in honey && Monitoring.Matches(e.t, h, "", sam) {
      forall a: Monitoring.RecordArgs | a.autoCorrelate && a.target == sam ensures Detected(e.t, honey, a) {
        MatchIsDetected(e.t, honey, h, a);
      }
    } else {
      var a := Monitoring.RecordArgs(4625, "", "", "", sam, "", "", true, "", true);
      Monitoring.CorrelateFindsMatch(e.t, honey, "", sam, 4625);
      assert !Detected(e.t, honey, a);
    }
  }

  // ---------------------------------------------------------------- a prefix that does not fit

  /** An event that targets an entry the deploy made goes undetected. */
  ghost predicate MissesNew(e: Env, w: World, c: DeployCall, dn: string, a: Monitoring.RecordArgs) {
    var w' := Deploy(e, w, c);
    a.autoCorrelate && dn in w'.dir && dn !in w.dir && a.target == w'.dir[dn].sam && !Detected(e.t, w'.honey, a)
  }

  /** One honey user of this name, live, against a willing server. */
  function User(name: string): DeployCall { OneUser().(objects := [PlanObject("HoneyUser", name, [])]) }

  lemma MisfitMissesUser(e: Env, name: string)
    requires Sane(e.t)
    requires var stamped := Stamp(e.t, e.p.names, name);
      stamped != "" && !Contains(Lower(e.t, EnsurePrefix(e.t, e.p.names, stamped)), Lower(e.t, stamped))
    ensures exists w, c, dn, a :: MissesNew(e, w, c, dn, a)
  {
    var c, w := User(name), World(map[], [], []);
    var stamped := StampAll(e, c.objects);
    var o := stamped[0];
    assert stamped == [o];
    WillingAdds(e.t, e.p, map[], o, c.servers);
    var dn, sam := ObjectDn(e.t, e.p, o), EnsurePrefix(e.t, e.p.names, o.name);
    var a := Monitoring.RecordArgs(4625, "", "", "", sam, "", "", true, "", true);
    var honey := Deploy(e, w, c).honey;
    forall h | h in honey ensures !Monitoring.Matches(e.t, h, "", sam) {
      Monitoring.NamedMembers(HoneyOf(stamped), h);
      assert h == HoneyOf(stamped)[0];
    }
    Monitoring.CorrelateFindsMatch(e.t, honey, "", sam, 4625);
    assert Deploy(e, w, c).dir[dn].sam == sam;
    assert MissesNew(e, w, c, dn, a);
  }

  /** No new account is ever missed exactly when the prefix fits the filter.  The character table
      must tell two letters apart; one that maps all letters to one would match everything. */
  lemma NewAccountsAreDetectedIff(e: Env)
    requires Sane(e.t) && TellsLettersApart(e.t)
    ensures (forall w, c, dn, a :: !MissesNew(e, w, c, dn, a)) <==> PrefixFits(e.t, e.p.names)
  {
    if PrefixFits(e.t, e.p.names) {
      forall w, c, dn, a ensures !MissesNew(e, w, c, dn, a) {
        if MissesNew(e, w, c, dn, a) {
          NewAccountIsDetected(e, w, c, dn, a);
        }
      }
    } else {
      var name := MisfitName(e.t, e.p.names);
      MisfitMissesUser(e, name);
    }
  }

  /** A registered name longer than one character is in no event about "x". */
  lemma LongNamesMissX(e: Env, honey: seq<Monitoring.Honey>, a: Monitoring.RecordArgs)
    requires a.target == "x" && a.actor == ""
    requires forall h :: h in honey ==> |h.name| > 1 && h.spns == []
    ensures Monitoring.Decide(e.t, honey, a).honeyObject == ""
  {
    forall h | h in honey ensures !Monitoring.Matches(e.t, h, a.actor, a.target) {
      assert !Contains(Lower(e.t, "x"), Lower(e.t, h.name));
    }
    Monitoring.CorrelateFindsMatch(e.t, honey, a.actor, a.target, a.eventId);
  }

  lemma OneUserRegisters(e: Env, w: World, h: Monitoring.Honey)
    requires Sane(e.t) && h in Deploy(e, w, OneUser()).honey
    ensures |h.name| > 1 && h.spns == []
  {
    var stamped := StampAll(e, OneUser().objects);
    CleanedFacts(e.t, "");
    assert |stamped[0].name| >= |FALLBACK|;
    Monitoring.NamedMembers(HoneyOf(stamped), h);
    assert h == HoneyOf(stamped)[0];
  }

  /** A refreshed entry whose account name carries no honey name: an event that targets it is not
      detected. */
  lemma RefreshedAccountCanBeMissed(e: Env, history: seq<Record>, honey: seq<Monitoring.Honey>, a: Monitoring.RecordArgs)
    requires Sane(e.t) && PrefixFits(e.t, e.p.names) && a.target == "x" && a.actor == ""
    ensures var c := OneUser();
      var dn := ObjectDn(e.t, e.p, StampAll(e, c.objects)[0]);
      var w := World(map[dn := Entry("user", "x", 0, "", "", [])], history, honey);
      var w' := Deploy(e, w, c);
      && dn in w'.dir && w'.dir[dn].sam == "x"
      && Monitoring.Decide(e.t, w'.honey, a).honeyObject == ""
  {
    var c := OneUser();
    var stamped := StampAll(e, c.objects);
    var dn := ObjectDn(e.t, e.p, stamped[0]);
    var w := World(map[dn := Entry("user", "x", 0, "", "", [])], history, honey);
    ProvisionAccounts(e.t, e.p, w.dir, stamped, c.servers);
    forall h | h in Deploy(e, w, c).honey ensures |h.name| > 1 && h.spns == [] {
      OneUserRegisters(e, w, h);
    }
    LongNamesMissX(e, Deploy(e, w, c).honey, a);
  }
}
