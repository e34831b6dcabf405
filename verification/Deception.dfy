/** Deploy and teardown end to end: plan, policy gate, directory, monitoring registry, graph
    sync, history. */
module Deception {
  import opened Text
  import opened HoneyNames
  import opened DeploymentHistory
  import opened Provisioning
  import opened Runs
  import Monitoring
  import MonitoringEngine

  datatype Env = Env(t: CharTable, p: Provisioner, maxRecords: nat)

  /** The state that outlives a request. */
  datatype World = World(dir: Directory, history: seq<Record>, honey: seq<Monitoring.Honey>)

  /** What the graph sync does when asked for. */
  datatype Graph = GraphAnswers(success: bool) | GraphRaises

  /** A deploy request and everything the outside decides about it. `blocked` is the policy gate,
      which only looks at live requests. */
  datatype DeployCall = DeployCall(
    id: string, objects: seq<PlanObject>, provisionAd: bool, dryRun: bool, syncGraph: bool, blocked: bool,
    ldapHost: bool, preflight: bool, connectRaises: bool, servers: nat -> Server, graph: Graph)

  datatype TeardownCall = TeardownCall(
    id: string, dryRun: bool, ldapHost: bool, preflight: bool, connectRaises: bool, replies: nat -> Reply)

  function StampAll(e: Env, objects: seq<PlanObject>): (r: seq<PlanObject>)
    ensures |r| == |objects|
    ensures forall i :: 0 <= i < |r| ==>
              r[i] == if Provisionable(objects[i]) then objects[i].(name := Stamp(e.t, e.p.names, objects[i].name)) else objects[i]
  {
    seq(|objects|, i requires 0 <= i < |objects| =>
      if Provisionable(objects[i]) then objects[i].(name := Stamp(e.t, e.p.names, objects[i].name)) else objects[i])
  }

  function HoneyOf(objects: seq<PlanObject>): (r: seq<Monitoring.Honey>)
    ensures |r| == |objects|
    ensures forall i :: 0 <= i < |r| ==> r[i] == Monitoring.Honey(objects[i].name, objects[i].objectType, objects[i].spns)
  {
    seq(|objects|, i requires 0 <= i < |objects| => Monitoring.Honey(objects[i].name, objects[i].objectType, objects[i].spns))
  }

  predicate Gated(c: DeployCall) { c.provisionAd && c.blocked && !c.dryRun }

  predicate ReachesAd(c: DeployCall) {
    c.provisionAd && !Gated(c) && c.ldapHost && c.preflight && (c.dryRun || !c.connectRaises)
  }

  /** What provisioning does for this call, to nothing if it does not reach the directory. */
  function AdWork(e: Env, dir: Directory, c: DeployCall): Progress {
    if ReachesAd(c) then Provision(e.t, e.p, dir, StampAll(e, c.objects), c.servers, c.dryRun)
    else Progress(dir, [], false)
  }

  predicate AdOk(e: Env, dir: Directory, c: DeployCall) {
    !c.provisionAd || (ReachesAd(c) && !AdWork(e, dir, c).raised && AllWell(AdWork(e, dir, c).results))
  }

  predicate GraphRuns(c: DeployCall) { c.syncGraph && !c.dryRun && !Gated(c) }

  /** A graph sync that raises ends the request before anything is put on record. */
  predicate EndsEarly(c: DeployCall) { GraphRuns(c) && c.graph.GraphRaises? }

  function RecordOf(e: Env, dir: Directory, c: DeployCall): Record {
    var created := Recorded(AdWork(e, dir, c).results);
    var live := c.provisionAd && AdOk(e, dir, c) && created != [] && !c.dryRun;
    Record(c.id, created, GraphRuns(c) && c.graph.GraphAnswers? && c.graph.success, live, c.dryRun,
           if live then Active else PlanOnly)
  }

  function Deploy(e: Env, w: World, c: DeployCall): World {
    World(
      AdWork(e, w.dir, c).dir,
      if EndsEarly(c) then w.history else Added(w.history, RecordOf(e, w.dir, c), e.maxRecords),
      Monitoring.Named(HoneyOf(StampAll(e, c.objects))))
  }

  /** The record a teardown will work through; `None` when it stops before touching the directory. */
  function ToTear(w: World, c: TeardownCall): Option<seq<Provisioned>> {
    var found := Find(w.history, c.id);
    if found.None? || (found.value.status == TornDown && !c.dryRun) || found.value.provisioned == [] then None
    else if !c.ldapHost || !c.preflight || (!c.dryRun && c.connectRaises) then None
    else Some(found.value.provisioned)
  }

  function Teardown(e: Env, w: World, c: TeardownCall): World {
    var found, rs := Find(w.history, c.id), ToTear(w, c);
    if found.Some? && found.value.provisioned == [] && found.value.status != TornDown && !c.dryRun then
      w.(history := Marked(w.history, c.id))
    else if rs.None? then w
    else
      var end := Tear(e.t, e.p, w.dir, rs.value, c.replies, c.dryRun);
      w.(dir := end.dir,
         history := if !end.raised && AllWell(end.results) && !c.dryRun then Marked(w.history, c.id) else w.history)
  }

  // ---------------------------------------------------------------- the requests as they run

  ghost function WorldOf(server: LdapServer, history: DeploymentHistoryStore, engine: MonitoringEngine.Engine): World
    reads server, history, engine
  {
    World(server.entries, history.records, engine.honey)
  }

  /** `raised` is the graph sync's exception leaving the request. */
  method RunDeploy(e: Env, server: LdapServer, history: DeploymentHistoryStore, engine: MonitoringEngine.Engine, c: DeployCall)
    returns (success: bool, raised: bool)
    requires e.maxRecords == history.maxRecords
    modifies server, history, engine
    ensures WorldOf(server, history, engine) == Deploy(e, old(WorldOf(server, history, engine)), c)
    ensures engine.View() == Monitoring.Register(old(engine.View()), HoneyOf(StampAll(e, c.objects)))
    ensures raised == EndsEarly(c)
    ensures !raised ==> success == (!Gated(c) && AdOk(e, old(server.entries), c)
                                    && (GraphRuns(c) ==> c.graph.success))
  {
    var stamped := StampAll(e, c.objects);
    if c.provisionAd && c.blocked && !c.dryRun {
      var n := engine.RegisterDeployment(HoneyOf(stamped));
      history.Add(Record(c.id, [], false, false, c.dryRun, PlanOnly));
      return false, false;
    }
    var adOk, created := true, [];
    if c.provisionAd {
      if !c.ldapHost || !c.preflight || (!c.dryRun && c.connectRaises) {
        adOk := false;
      } else {
        var results;
        adOk, results, created := server.ProvisionObjects(e.t, e.p, stamped, c.servers, c.dryRun);
      }
    }
    var n := engine.RegisterDeployment(HoneyOf(stamped));
    var graphOk, graphSynced := true, false;
    if c.syncGraph && !c.dryRun {
      if c.graph.GraphRaises? {
        return false, true;
      }
      graphOk, graphSynced := c.graph.success, c.graph.success;
    }
    var live := c.provisionAd && adOk && created != [] && !c.dryRun;
    history.Add(Record(c.id, created, graphSynced, live, c.dryRun, if live then Active else PlanOnly));
    success, raised := adOk && graphOk, false;
  }

  method RunTeardown(e: Env, server: LdapServer, history: DeploymentHistoryStore, engine: MonitoringEngine.Engine, c: TeardownCall)
    returns (success: bool)
    modifies server, history
    ensures WorldOf(server, history, engine) == Teardown(e, old(WorldOf(server, history, engine)), c)
    ensures success && !c.dryRun ==> Find(history.records, c.id).Some? && Find(history.records, c.id).value.status == TornDown
  {
    var found := history.Get(c.id);
    if found.None? {
      return false;
    }
    var record := found.value;
    if record.status == TornDown && !c.dryRun {
      return true;
    }
    if record.provisioned == [] {
      if !c.dryRun {
        MarkedFinds(history.records, c.id, c.id);
        var _ := history.MarkTornDown(c.id);
      }
      return true;
    }
    if !c.ldapHost || !c.preflight || (!c.dryRun && c.connectRaises) {
      return false;
    }
    var results;
    success, results := server.TeardownObjects(e.t, e.p, record.provisioned, c.replies, c.dryRun);
    if success && !c.dryRun {
      MarkedFinds(history.records, c.id, c.id);
      var _ := history.MarkTornDown(c.id);
    }
  }

  // ---------------------------------------------------------------- runs

  datatype Op = DeployOp(deploy: DeployCall) | TeardownOp(teardown: TeardownCall)

  function Step(e: Env, w: World, op: Op): World {
    match op
    case DeployOp(c) => Deploy(e, w, c)
    case TeardownOp(c) => Teardown(e, w, c)
  }

  function Stepper(e: Env): (World, Op) -> World { (w: World, op: Op) => Step(e, w, op) }

  function Run(e: Env, w: World, ops: seq<Op>): World { Fold(Stepper(e), w, ops) }

  lemma StepUntouched(e: Env, w: World, op: Op)
    requires Sane(e.t) && SoundPrefix(e.p)
    ensures UnsafeUntouched(e.t, e.p, w.dir, Step(e, w, op).dir)
  {
    match op
    case DeployOp(c) =>
      if ReachesAd(c) {
        ProvisionUntouched(e.t, e.p, w.dir, StampAll(e, c.objects), c.servers, c.dryRun);
      }
    case TeardownOp(c) =>
      var rs := ToTear(w, c);
      if rs.Some? {
        TearUntouched(e.t, e.p, w.dir, rs.value, c.replies, c.dryRun);
      }
  }

  lemma {:induction false} RunUntouched(e: Env, w: World, ops: seq<Op>)
    requires Sane(e.t) && SoundPrefix(e.p)
    ensures UnsafeUntouched(e.t, e.p, w.dir, Run(e, w, ops).dir)
  {
    if ops != [] {
      var rest := ops[..|ops| - 1];
      RunUntouched(e, w, rest);
      StepUntouched(e, Run(e, w, rest), ops[|ops| - 1]);
    }
  }

  /** One honey user, live, against a willing server. */
  function OneUser(): DeployCall {
    DeployCall("dep", [PlanObject("HoneyUser", "", [])], true, false, false, false, true, true, false,
               (_: nat) => WILLING, GraphAnswers(true))
  }

  lemma UnsoundPrefixCreatesUnsafe(e: Env, history: seq<Record>, honey: seq<Monitoring.Honey>)
    requires Sane(e.t) && !SoundPrefix(e.p)
    ensures !UnsafeUntouched(e.t, e.p, map[], Deploy(e, World(map[], history, honey), OneUser()).dir)
  {
    var c := OneUser();
    var stamped := StampAll(e, c.objects);
    var o := stamped[0];
    NotPlainIsUnsafe(e.t, e.p.names, o.name);
    WillingAdds(e.t, e.p, map[], o, c.servers);
    assert stamped == [o];
    assert ObjectDn(e.t, e.p, o) in AdWork(e, map[], c).dir;
  }

  /** Over every run of deploys and teardowns, whatever the server does, every entry whose DN the
      guard rejects is unchanged, and none appears: this holds exactly when no prefix is
      required or the prefix has no special character but trailing backslashes. */
  lemma OnlySafeEntriesChangeIff(e: Env)
    requires Sane(e.t)
    ensures (forall w: World, ops: seq<Op> :: UnsafeUntouched(e.t, e.p, w.dir, Run(e, w, ops).dir)) <==> SoundPrefix(e.p)
  {
    if SoundPrefix(e.p) {
      forall w: World, ops: seq<Op> ensures UnsafeUntouched(e.t, e.p, w.dir, Run(e, w, ops).dir) {
        RunUntouched(e, w, ops);
      }
    } else {
      var w, ops := World(map[], [], []), [DeployOp(OneUser())];
      UnsoundPrefixCreatesUnsafe(e, [], []);
      assert ops[..0] == [];
      assert Run(e, w, ops) == Deploy(e, w, OneUser());
      assert !UnsafeUntouched(e.t, e.p, w.dir, Run(e, w, ops).dir);
    }
  }
}
