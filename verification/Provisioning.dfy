/** Provisioning and teardown against a directory that may accept, refuse or raise at every call. */
module Provisioning {
  import opened Text
  import opened HoneyNames
  import opened DeploymentHistory

  datatype Entry = Entry(
    kind: string, sam: string, uac: int, description: string, workstations: string, spns: seq<string>)

  type Directory = map<string, Entry>

  /** How the server takes one write. `RaisedAfter`: applied, but the call raised, as when the answer is lost. */
  datatype Reply = Done | Refused | RaisedBefore | RaisedAfter

  /** What the server does for one object: whether the existence search raises or misses, and the write. */
  datatype Server = Server(searchRaises: bool, searchMisses: bool, write: Reply)

  /** The provisioner's settings. */
  datatype Provisioner = Provisioner(names: Settings, harden: bool, workstationsLock: string, tag: string)

  /** One planned honey object. */
  datatype PlanObject = PlanObject(objectType: string, name: string, spns: seq<string>)

  const DISABLED_USER := 0x0202
  const DISABLED_COMPUTER := 0x1002

  predicate Provisionable(o: PlanObject) { o.objectType == "HoneyUser" || o.objectType == "HoneyServer" }

  // ---------------------------------------------------------------- directory calls

  /** The directory after a call, and the call's answer (`None`: it raised). */
  datatype Answer = Answer(dir: Directory, ok: Option<bool>)

  /** An add of an existing DN is never accepted. */
  function LdapAdd(dir: Directory, dn: string, e: Entry, reply: Reply): Answer {
    match reply
    case Done => if dn in dir then Answer(dir, Some(false)) else Answer(dir[dn := e], Some(true))
    case Refused => Answer(dir, Some(false))
    case RaisedBefore => Answer(dir, None)
    case RaisedAfter => Answer(if dn in dir then dir else dir[dn := e], None)
  }

  function LdapModify(dir: Directory, dn: string, e: Entry, reply: Reply): Answer
    requires dn in dir
  {
    match reply
    case Done => Answer(dir[dn := e], Some(true))
    case Refused => Answer(dir, Some(false))
    case RaisedBefore => Answer(dir, None)
    case RaisedAfter => Answer(dir[dn := e], None)
  }

  function LdapDelete(dir: Directory, dn: string, reply: Reply): Answer {
    match reply
    case Done => Answer(dir - {dn}, Some(dn in dir))
    case Refused => Answer(dir, Some(false))
    case RaisedBefore => Answer(dir, None)
    case RaisedAfter => Answer(dir - {dn}, None)
  }

  // ---------------------------------------------------------------- provisioning

  function ProvisionedName(t: CharTable, p: Provisioner, o: PlanObject): string {
    var safe := EnsurePrefix(t, p.names, o.name);
    if o.objectType == "HoneyUser" then safe else StripDollars(safe)
  }

  function ObjectDn(t: CharTable, p: Provisioner, o: PlanObject): string {
    DnOf(p.names, ProvisionedName(t, p, o))
  }

  function NewEntry(t: CharTable, p: Provisioner, o: PlanObject): Entry {
    var safe := EnsurePrefix(t, p.names, o.name);
    if o.objectType == "HoneyUser" then
      Entry("user", safe, DISABLED_USER, p.tag, if p.harden then p.workstationsLock else "", [])
    else
      Entry("computer", ComputerSam(safe), DISABLED_COMPUTER, p.tag, "", o.spns)
  }

  /** The attributes a refresh replaces; the account name is not among them. */
  function Refreshed(p: Provisioner, o: PlanObject, e: Entry): Entry {
    if o.objectType == "HoneyUser" then
      e.(description := p.tag, uac := DISABLED_USER, workstations := if p.harden then p.workstationsLock else e.workstations)
    else
      e.(description := p.tag, uac := DISABLED_COMPUTER, spns := if o.spns != [] then o.spns else e.spns)
  }

  /** One round of the loop: the directory and the result, `None` if it raised. */
  datatype Round = Round(dir: Directory, result: Option<Provisioned>)

  function ProvisionOne(t: CharTable, p: Provisioner, dir: Directory, o: PlanObject, server: Server, dryRun: bool): Round {
    var dn, name := ObjectDn(t, p, o), ProvisionedName(t, p, o);
    if !Provisionable(o) then Round(dir, Some(Provisioned(o.objectType, o.name, "", "skipped", true)))
    else if dryRun then Round(dir, Some(Provisioned(o.objectType, name, dn, "would_create", true)))
    else if server.searchRaises then Round(dir, None)
    else if dn in dir && !server.searchMisses then
      var a := LdapModify(dir, dn, Refreshed(p, o, dir[dn]), server.write);
      Round(a.dir, if a.ok.None? then None else Some(Provisioned(o.objectType, name, dn, "updated", true)))
    else
      var a := LdapAdd(dir, dn, NewEntry(t, p, o), server.write);
      Round(a.dir,
            if a.ok.None? then None
            else if a.ok.value then Some(Provisioned(o.objectType, name, dn, "created", true))
            else Some(Provisioned(o.objectType, name, dn, "create_failed", false)))
  }

  /** `provision_objects` after its first objects: it stops at the first exception. */
  datatype Progress = Progress(dir: Directory, results: seq<Provisioned>, raised: bool)

  function Advance(before: Progress, round: Round): Progress {
    if round.result.None? then Progress(round.dir, before.results, true)
    else Progress(round.dir, before.results + [round.result.value], false)
  }

  function ProvisionNext(t: CharTable, p: Provisioner, before: Progress, o: PlanObject, server: Server, dryRun: bool): Progress {
    if before.raised then before else Advance(before, ProvisionOne(t, p, before.dir, o, server, dryRun))
  }

  function Provision(t: CharTable, p: Provisioner, dir: Directory, objects: seq<PlanObject>, servers: nat -> Server, dryRun: bool): Progress {
    if objects == [] then Progress(dir, [], false)
    else
      var n := |objects| - 1;
      ProvisionNext(t, p, Provision(t, p, dir, objects[..n], servers, dryRun), objects[n], servers(n), dryRun)
  }

  predicate GoesOnRecord(r: Provisioned) {
    r.success && (r.action == "created" || r.action == "updated" || r.action == "would_create")
  }

  /** The results that are put on record, in order. */
  function Recorded(results: seq<Provisioned>): seq<Provisioned> {
    if results == [] then []
    else
      var n := |results| - 1;
      Recorded(results[..n]) + if GoesOnRecord(results[n]) then [results[n]] else []
  }

  /** Every attempted result succeeded. */
  predicate AllWell(results: seq<Provisioned>) {
    forall i :: 0 <= i < |results| ==> results[i].action != "skipped" ==> results[i].success
  }

  // ---------------------------------------------------------------- teardown

  function TearOne(t: CharTable, p: Provisioner, dir: Directory, r: Provisioned, reply: Reply, dryRun: bool): Round {
    if r.dn == "" then Round(dir, Some(r.(action := "skipped", success := true)))
    else if !IsSafeDn(t, p.names, r.dn) then Round(dir, Some(r.(action := "blocked", success := false)))
    else if dryRun then Round(dir, Some(r.(action := "would_delete", success := true)))
    else
      var a := LdapDelete(dir, r.dn, reply);
      Round(a.dir,
            if a.ok.None? then None
            else if a.ok.value then Some(r.(action := "deleted", success := true))
            else Some(r.(action := "delete_failed", success := false)))
  }

  function TearNext(t: CharTable, p: Provisioner, before: Progress, r: Provisioned, reply: Reply, dryRun: bool): Progress {
    if before.raised then before else Advance(before, TearOne(t, p, before.dir, r, reply, dryRun))
  }

  function Tear(t: CharTable, p: Provisioner, dir: Directory, rs: seq<Provisioned>, replies: nat -> Reply, dryRun: bool): Progress {
    if rs == [] then Progress(dir, [], false)
    else
      var n := |rs| - 1;
      TearNext(t, p, Tear(t, p, dir, rs[..n], replies, dryRun), rs[n], replies(n), dryRun)
  }

  // ---------------------------------------------------------------- the loops as they run

  class LdapServer {
    var entries: Directory

    constructor (entries: Directory)
      ensures this.entries == entries
    {
      this.entries := entries;
    }

    /** `created` is what the deployment records. */
    method ProvisionObjects(t: CharTable, p: Provisioner, objects: seq<PlanObject>, servers: nat -> Server, dryRun: bool)
      returns (success: bool, results: seq<Provisioned>, created: seq<Provisioned>)
      modifies this
      ensures var end := Provision(t, p, old(entries), objects, servers, dryRun);
        && entries == end.dir && results == end.results && created == Recorded(results)
        && success == (!end.raised && AllWell(results))
    {
      results, created := [], [];
      for i := 0 to |objects|
        invariant Provision(t, p, old(entries), objects[..i], servers, dryRun) == Progress(entries, results, false)
        invariant created == Recorded(results)
      {
        assert objects[..i + 1][..i] == objects[..i];
        var round := ProvisionOne(t, p, entries, objects[i], servers(i), dryRun);
        entries := round.dir;
        if round.result.None? {
          ProvisionStopped(t, p, old(entries), objects, i + 1, servers, dryRun);
          return false, results, created;
        }
        assert (results + [round.result.value])[..|results|] == results;
        results := results + [round.result.value];
        if GoesOnRecord(round.result.value) {
          created := created + [round.result.value];
        }
      }
      assert objects[..|objects|] == objects;
      success := AllWell(results);
    }

    method TeardownObjects(t: CharTable, p: Provisioner, rs: seq<Provisioned>, replies: nat -> Reply, dryRun: bool)
      returns (success: bool, results: seq<Provisioned>)
      modifies this
      ensures var end := Tear(t, p, old(entries), rs, replies, dryRun);
        && entries == end.dir && results == end.results
        && success == (!end.raised && AllWell(results))
    {
      results := [];
      for i := 0 to |rs|
        invariant Tear(t, p, old(entries), rs[..i], replies, dryRun) == Progress(entries, results, false)
      {
        assert rs[..i + 1][..i] == rs[..i];
        var round := TearOne(t, p, entries, rs[i], replies(i), dryRun);
        entries := round.dir;
        if round.result.None? {
          TearStopped(t, p, old(entries), rs, i + 1, replies, dryRun);
          return false, results;
        }
        results := results + [round.result.value];
      }
      assert rs[..|rs|] == rs;
      success := AllWell(results);
    }
  }

  lemma {:induction false} ProvisionStopped(t: CharTable, p: Provisioner, dir: Directory, objects: seq<PlanObject>, k: nat, servers: nat -> Server, dryRun: bool)
    requires k <= |objects| && Provision(t, p, dir, objects[..k], servers, dryRun).raised
    ensures Provision(t, p, dir, objects, servers, dryRun) == Provision(t, p, dir, objects[..k], servers, dryRun)
  {
    if k < |objects| {
      var n := |objects| - 1;
      assert objects[..n][..k] == objects[..k];
      ProvisionStopped(t, p, dir, objects[..n], k, servers, dryRun);
    } else {
      assert objects[..k] == objects;
    }
  }

  lemma {:induction false} TearStopped(t: CharTable, p: Provisioner, dir: Directory, rs: seq<Provisioned>, k: nat, replies: nat -> Reply, dryRun: bool)
    requires k <= |rs| && Tear(t, p, dir, rs[..k], replies, dryRun).raised
    ensures Tear(t, p, dir, rs, replies, dryRun) == Tear(t, p, dir, rs[..k], replies, dryRun)
  {
    if k < |rs| {
      var n := |rs| - 1;
      assert rs[..n][..k] == rs[..k];
      TearStopped(t, p, dir, rs[..n], k, replies, dryRun);
    } else {
      assert rs[..k] == rs;
    }
  }

  // ---------------------------------------------------------------- only safe DNs are touched

  /** Entries whose DN the guard rejects are as they were. */
  ghost predicate UnsafeUntouched(t: CharTable, p: Provisioner, dir: Directory, dir': Directory) {
    forall dn :: !IsSafeDn(t, p.names, dn) ==> (dn in dir <==> dn in dir') && (dn in dir ==> dir'[dn] == dir[dn])
  }

  predicate SoundPrefix(p: Provisioner) { !p.names.requirePrefix || PlainPrefix(p.names.prefix) }

  lemma ObjectDnIsSafe(t: CharTable, p: Provisioner, o: PlanObject)
    requires Sane(t) && SoundPrefix(p)
    ensures IsSafeDn(t, p.names, ObjectDn(t, p, o))
  {
    ProvisionedNameHasNoDollar(t, p.names, o.name);
    BuiltDnIsSafe(t, p.names, o.name);
  }

  lemma ProvisionOneUntouched(t: CharTable, p: Provisioner, dir: Directory, o: PlanObject, server: Server, dryRun: bool)
    requires Sane(t) && SoundPrefix(p)
    ensures UnsafeUntouched(t, p, dir, ProvisionOne(t, p, dir, o, server, dryRun).dir)
  {
    var dn := ObjectDn(t, p, o);
    ObjectDnIsSafe(t, p, o);
    var dir' := ProvisionOne(t, p, dir, o, server, dryRun).dir;
    assert dir' == dir || dir' == dir[dn := dir'[dn]];
  }

  lemma UntouchedTransitive(t: CharTable, p: Provisioner, a: Directory, b: Directory, c: Directory)
    requires UnsafeUntouched(t, p, a, b) && UnsafeUntouched(t, p, b, c)
    ensures UnsafeUntouched(t, p, a, c)
  {
  }

  lemma UntouchedItself(t: CharTable, p: Provisioner, dir: Directory)
    ensures UnsafeUntouched(t, p, dir, dir)
  {
  }

  lemma ProvisionNextUntouched(t: CharTable, p: Provisioner, before: Progress, o: PlanObject, server: Server, dryRun: bool)
    requires Sane(t) && SoundPrefix(p)
    ensures UnsafeUntouched(t, p, before.dir, ProvisionNext(t, p, before, o, server, dryRun).dir)
  {
    if before.raised {
      UntouchedItself(t, p, before.dir);
    } else {
      ProvisionOneUntouched(t, p, before.dir, o, server, dryRun);
    }
  }

  lemma {:induction false} ProvisionUntouched(t: CharTable, p: Provisioner, dir: Directory, objects: seq<PlanObject>, servers: nat -> Server, dryRun: bool)
    requires Sane(t) && SoundPrefix(p)
    ensures UnsafeUntouched(t, p, dir, Provision(t, p, dir, objects, servers, dryRun).dir)
  {
    if objects == [] {
      UntouchedItself(t, p, dir);
    } else {
      var n := |objects| - 1;
      var before := Provision(t, p, dir, objects[..n], servers, dryRun);
      ProvisionUntouched(t, p, dir, objects[..n], servers, dryRun);
      ProvisionNextUntouched(t, p, before, objects[n], servers(n), dryRun);
      UntouchedTransitive(t, p, dir, before.dir, ProvisionNext(t, p, before, objects[n], servers(n), dryRun).dir);
    }
  }

  lemma TearOneUntouched(t: CharTable, p: Provisioner, dir: Directory, r: Provisioned, reply: Reply, dryRun: bool)
    ensures UnsafeUntouched(t, p, dir, TearOne(t, p, dir, r, reply, dryRun).dir)
  {
    var dir' := TearOne(t, p, dir, r, reply, dryRun).dir;
    assert dir' == dir || (IsSafeDn(t, p.names, r.dn) && dir' == dir - {r.dn});
  }

  lemma TearNextUntouched(t: CharTable, p: Provisioner, before: Progress, r: Provisioned, reply: Reply, dryRun: bool)
    ensures UnsafeUntouched(t, p, before.dir, TearNext(t, p, before, r, reply, dryRun).dir)
  {
    if before.raised {
      UntouchedItself(t, p, before.dir);
    } else {
      TearOneUntouched(t, p, before.dir, r, reply, dryRun);
    }
  }

  lemma {:induction false} TearUntouched(t: CharTable, p: Provisioner, dir: Directory, rs: seq<Provisioned>, replies: nat -> Reply, dryRun: bool)
    ensures UnsafeUntouched(t, p, dir, Tear(t, p, dir, rs, replies, dryRun).dir)
  {
    if rs == [] {
      UntouchedItself(t, p, dir);
    } else {
      var n := |rs| - 1;
      var before := Tear(t, p, dir, rs[..n], replies, dryRun);
      TearUntouched(t, p, dir, rs[..n], replies, dryRun);
      TearNextUntouched(t, p, before, rs[n], replies(n), dryRun);
      UntouchedTransitive(t, p, dir, before.dir, TearNext(t, p, before, rs[n], replies(n), dryRun).dir);
    }
  }

  // ---------------------------------------------------------------- what a record covers

  ghost predicate Covers(rs: seq<Provisioned>, dn: string) {
    exists i :: 0 <= i < |rs| && rs[i].dn == dn
  }

  lemma CoversMore(rs: seq<Provisioned>, r: Provisioned, dn: string)
    ensures Covers(rs + [r], dn) <==> Covers(rs, dn) || r.dn == dn
  {
    if Covers(rs, dn) {
      var i :| 0 <= i < |rs| && rs[i].dn == dn;
      assert (rs + [r])[i].dn == dn;
    }
    assert (rs + [r])[|rs|] == r;
  }

  /** Provisioning stopped on an exception although the server had applied that object's write. */
  predicate LostWrite(t: CharTable, p: Provisioner, dir: Directory, objects: seq<PlanObject>, servers: nat -> Server) {
    if objects == [] then false
    else
      var n := |objects| - 1;
      var before := Provision(t, p, dir, objects[..n], servers, false);
      if before.raised then LostWrite(t, p, dir, objects[..n], servers)
      else LostBy(t, p, before.dir, objects[n], servers(n))
  }

  /** The add of an absent entry, or the refresh of a found one, was applied and its answer lost. */
  predicate LostBy(t: CharTable, p: Provisioner, dir: Directory, o: PlanObject, server: Server) {
    && Provisionable(o) && !server.searchRaises && server.write == RaisedAfter
    && (ObjectDn(t, p, o) in dir ==> !server.searchMisses)
  }

  /** One live round: the only entry it can touch is the object's; it is on record unless its
      answer was lost, and a recorded one exists afterwards. */
  lemma RoundEffect(t: CharTable, p: Provisioner, dir: Directory, o: PlanObject, server: Server)
    ensures var round, dn := ProvisionOne(t, p, dir, o, server, false), ObjectDn(t, p, o);
      && dir.Keys <= round.dir.Keys <= dir.Keys + {dn}
      && (forall d :: d in dir && d != dn ==> round.dir[d] == dir[d])
      && (round.result.Some? && GoesOnRecord(round.result.value) ==> round.result.value.dn == dn && dn in round.dir)
      && (round.result.Some? && !GoesOnRecord(round.result.value) ==> round.dir == dir)
      && (round.result.None? && !LostBy(t, p, dir, o, server) ==> round.dir == dir)
  {
  }

  /** The directory differs from what it was only at recorded DNs, and has them all; unless a
      write was lost, in which case one more entry may differ. */
  ghost predicate Effect(dir: Directory, end: Progress) {
    var rs := Recorded(end.results);
    && (forall i :: 0 <= i < |rs| ==> rs[i].dn in end.dir)
    && (forall dn :: !Covers(rs, dn) ==> (dn in dir <==> dn in end.dir) && (dn in dir ==> end.dir[dn] == dir[dn]))
    && dir.Keys <= end.dir.Keys
  }

  lemma {:induction false} ProvisionEffect(t: CharTable, p: Provisioner, dir: Directory, objects: seq<PlanObject>, servers: nat -> Server)
    requires !LostWrite(t, p, dir, objects, servers)
    ensures Effect(dir, Provision(t, p, dir, objects, servers, false))
  {
    if objects != [] {
      var n := |objects| - 1;
      ProvisionEffect(t, p, dir, objects[..n], servers);
      var before := Provision(t, p, dir, objects[..n], servers, false);
      if !before.raised {
        RoundEffect(t, p, before.dir, objects[n], servers(n));
        var round := ProvisionOne(t, p, before.dir, objects[n], servers(n), false);
        if round.result.Some? {
          EffectMore(dir, before, round, ObjectDn(t, p, objects[n]));
        }
      }
    }
  }

  lemma EffectMore(dir: Directory, before: Progress, round: Round, dn: string)
    requires Effect(dir, before) && round.result.Some?
    requires before.dir.Keys <= round.dir.Keys <= before.dir.Keys + {dn}
    requires forall d :: d in before.dir && d != dn ==> round.dir[d] == before.dir[d]
    requires GoesOnRecord(round.result.value) ==> round.result.value.dn == dn && dn in round.dir
    requires !GoesOnRecord(round.result.value) ==> round.dir == before.dir
    ensures Effect(dir, Progress(round.dir, before.results + [round.result.value], false))
  {
    var r, rs := round.result.value, Recorded(before.results);
    assert (before.results + [r])[..|before.results|] == before.results;
    if GoesOnRecord(r) {
      forall d ensures Covers(rs + [r], d) <==> Covers(rs, d) || d == dn {
        CoversMore(rs, r, d);
      }
    } else {
      assert rs + [] == rs;
    }
  }

  /** A new entry was made whose answer was lost. */
  predicate LostAdd(t: CharTable, p: Provisioner, dir: Directory, objects: seq<PlanObject>, servers: nat -> Server) {
    if objects == [] then false
    else
      var n := |objects| - 1;
      var before := Provision(t, p, dir, objects[..n], servers, false);
      if before.raised then LostAdd(t, p, dir, objects[..n], servers)
      else LostBy(t, p, before.dir, objects[n], servers(n)) && ObjectDn(t, p, objects[n]) !in before.dir
  }

  /** An entry that is not on record was refreshed, to something else, and the answer lost. */
  ghost predicate LostRefresh(t: CharTable, p: Provisioner, dir: Directory, objects: seq<PlanObject>, servers: nat -> Server) {
    if objects == [] then false
    else
      var n := |objects| - 1;
      var before := Provision(t, p, dir, objects[..n], servers, false);
      var dn := ObjectDn(t, p, objects[n]);
      if before.raised then LostRefresh(t, p, dir, objects[..n], servers)
      else
        && LostBy(t, p, before.dir, objects[n], servers(n)) && dn in before.dir
        && !Covers(Recorded(before.results), dn)
        && Refreshed(p, objects[n], before.dir[dn]) != before.dir[dn]
  }

  /** When a write was lost: the directory before it, which is as recorded, and the entry it left. */
  lemma {:induction false} TheLostWrite(t: CharTable, p: Provisioner, dir: Directory, objects: seq<PlanObject>, servers: nat -> Server)
    returns (mid: Progress, dn: string, entry: Entry)
    requires LostWrite(t, p, dir, objects, servers)
    ensures var end := Provision(t, p, dir, objects, servers, false);
      end == Progress(mid.dir[dn := entry], mid.results, true)
    ensures Effect(dir, mid)
    ensures LostAdd(t, p, dir, objects, servers) <==> dn !in mid.dir
    ensures LostRefresh(t, p, dir, objects, servers)
       <==> dn in mid.dir && !Covers(Recorded(mid.results), dn) && entry != mid.dir[dn]
    ensures dn in PlanDns(t, p, objects)
  {
    var n := |objects| - 1;
    var before := Provision(t, p, dir, objects[..n], servers, false);
    if before.raised {
      mid, dn, entry := TheLostWrite(t, p, dir, objects[..n], servers);
    } else {
      FinishedLosesNothing(t, p, dir, objects[..n], servers);
      ProvisionEffect(t, p, dir, objects[..n], servers);
      mid, dn := before, ObjectDn(t, p, objects[n]);
      entry := ProvisionOne(t, p, before.dir, objects[n], servers(n), false).dir[dn];
    }
  }

  lemma {:induction false} NoWriteNoLoss(t: CharTable, p: Provisioner, dir: Directory, objects: seq<PlanObject>, servers: nat -> Server)
    requires !LostWrite(t, p, dir, objects, servers)
    ensures !LostAdd(t, p, dir, objects, servers) && !LostRefresh(t, p, dir, objects, servers)
  {
    if objects != [] {
      var n := |objects| - 1;
      if Provision(t, p, dir, objects[..n], servers, false).raised {
        NoWriteNoLoss(t, p, dir, objects[..n], servers);
      }
    }
  }

  /** An add of this round's object is applied, answered or not. */
  predicate AddsBy(t: CharTable, p: Provisioner, dir: Directory, o: PlanObject, server: Server) {
    && Provisionable(o) && !server.searchRaises && ObjectDn(t, p, o) !in dir
    && (server.write == Done || server.write == RaisedAfter)
  }

  /** The server applies some add of the plan before provisioning stops. */
  predicate SomeAdd(t: CharTable, p: Provisioner, dir: Directory, objects: seq<PlanObject>, servers: nat -> Server) {
    objects != [] &&
      var n := |objects| - 1;
      var before := Provision(t, p, dir, objects[..n], servers, false);
      SomeAdd(t, p, dir, objects[..n], servers) || (!before.raised && AddsBy(t, p, before.dir, objects[n], servers(n)))
  }

  lemma RoundAdds(t: CharTable, p: Provisioner, before: Progress, o: PlanObject, server: Server)
    requires !before.raised
    ensures before.dir.Keys <= ProvisionNext(t, p, before, o, server, false).dir.Keys
    ensures ProvisionNext(t, p, before, o, server, false).dir.Keys <= before.dir.Keys
            <==> !AddsBy(t, p, before.dir, o, server)
  {
    var dir' := ProvisionOne(t, p, before.dir, o, server, false).dir;
    if AddsBy(t, p, before.dir, o, server) {
      assert ObjectDn(t, p, o) in dir';
    }
  }

  /** Provisioning makes a new entry exactly when the server applies some add. */
  lemma {:induction false} NewEntriesIffSomeAdd(t: CharTable, p: Provisioner, dir: Directory, objects: seq<PlanObject>, servers: nat -> Server)
    ensures var end := Provision(t, p, dir, objects, servers, false);
      && dir.Keys <= end.dir.Keys
      && (end.dir.Keys <= dir.Keys <==> !SomeAdd(t, p, dir, objects, servers))
  {
    if objects != [] {
      var n := |objects| - 1;
      var before := Provision(t, p, dir, objects[..n], servers, false);
      NewEntriesIffSomeAdd(t, p, dir, objects[..n], servers);
      if !before.raised {
        RoundAdds(t, p, before, objects[n], servers(n));
      }
    }
  }

  lemma {:induction false} FinishedLosesNothing(t: CharTable, p: Provisioner, dir: Directory, objects: seq<PlanObject>, servers: nat -> Server)
    requires !Provision(t, p, dir, objects, servers, false).raised
    ensures !LostWrite(t, p, dir, objects, servers)
  {
    if objects != [] {
      FinishedLosesNothing(t, p, dir, objects[..|objects| - 1], servers);
    }
  }

  /** Every entry that was not there before is on record, unless its add was applied and its
      answer lost. */
  lemma {:induction false} NewEntriesRecordedIff(t: CharTable, p: Provisioner, dir: Directory, objects: seq<PlanObject>, servers: nat -> Server)
    ensures var end := Provision(t, p, dir, objects, servers, false);
      (forall dn :: dn in end.dir && dn !in dir ==> Covers(Recorded(end.results), dn)) <==> !LostAdd(t, p, dir, objects, servers)
  {
    if objects != [] {
      var n := |objects| - 1;
      var before := Provision(t, p, dir, objects[..n], servers, false);
      if before.raised {
        NewEntriesRecordedIff(t, p, dir, objects[..n], servers);
      } else {
        FinishedLosesNothing(t, p, dir, objects[..n], servers);
        ProvisionEffect(t, p, dir, objects[..n], servers);
        LastRoundRecorded(t, p, dir, before, objects[n], servers(n));
      }
    }
  }

  lemma LastRoundRecorded(t: CharTable, p: Provisioner, dir: Directory, before: Progress, o: PlanObject, server: Server)
    requires Effect(dir, before)
    ensures var round := ProvisionOne(t, p, before.dir, o, server, false);
      var results := if round.result.None? then before.results else before.results + [round.result.value];
      (forall dn :: dn in round.dir && dn !in dir ==> Covers(Recorded(results), dn))
      <==> !(LostBy(t, p, before.dir, o, server) && ObjectDn(t, p, o) !in before.dir)
  {
    var round, dn, rs := ProvisionOne(t, p, before.dir, o, server, false), ObjectDn(t, p, o), Recorded(before.results);
    RoundEffect(t, p, before.dir, o, server);
    if round.result.Some? {
      EffectMore(dir, before, round, dn);
    } else if LostBy(t, p, before.dir, o, server) && dn !in before.dir {
      assert dn in round.dir && dn !in dir && !Covers(rs, dn);
    }
  }

  // ---------------------------------------------------------------- DNs of the plan and of the record

  /** The DNs a plan asks for, in order. */
  function PlanDns(t: CharTable, p: Provisioner, objects: seq<PlanObject>): seq<string> {
    if objects == [] then []
    else
      var n := |objects| - 1;
      if Provisionable(objects[n]) then PlanDns(t, p, objects[..n]) + [ObjectDn(t, p, objects[n])]
      else PlanDns(t, p, objects[..n])
  }

  function Dns(rs: seq<Provisioned>): (r: seq<string>)
    ensures |r| == |rs| && forall i :: 0 <= i < |rs| ==> r[i] == rs[i].dn
  {
    seq(|rs|, i requires 0 <= i < |rs| => rs[i].dn)
  }

  predicate Distinct(dns: seq<string>) {
    forall i, j :: 0 <= i < j < |dns| ==> dns[i] != dns[j]
  }

  /** `a` is `b` with some elements left out. */
  predicate Subsequence(a: seq<string>, b: seq<string>) {
    if b == [] then a == []
    else
      || Subsequence(a, b[..|b| - 1])
      || (a != [] && a[|a| - 1] == b[|b| - 1] && Subsequence(a[..|a| - 1], b[..|b| - 1]))
  }

  lemma {:induction false} SubsequenceKeeps(a: seq<string>, b: seq<string>)
    requires Subsequence(a, b)
    ensures forall i :: 0 <= i < |a| ==> a[i] in b
    ensures Distinct(b) ==> Distinct(a)
  {
    if b != [] {
      var front := b[..|b| - 1];
      assert forall x :: x in front ==> x in b;
      if Subsequence(a, front) {
        SubsequenceKeeps(a, front);
      } else {
        SubsequenceKeeps(a[..|a| - 1], front);
        if Distinct(b) {
          assert b[|b| - 1] !in front;
        }
      }
    }
  }

  lemma {:induction false} SubsequenceMore(a: seq<string>, b: seq<string>, x: string)
    requires Subsequence(a, b)
    ensures Subsequence(a, b + [x]) && Subsequence(a + [x], b + [x])
  {
    assert (b + [x])[..|b|] == b && (a + [x])[..|a|] == a;
  }

  /** A result goes on record only for a provisionable object, under its DN and name. */
  predicate IsFor(t: CharTable, p: Provisioner, o: PlanObject, r: Provisioned) {
    Provisionable(o) && r.dn == ObjectDn(t, p, o) && r.name == ProvisionedName(t, p, o)
  }

  lemma RoundResult(t: CharTable, p: Provisioner, dir: Directory, o: PlanObject, server: Server, dryRun: bool)
    ensures var round := ProvisionOne(t, p, dir, o, server, dryRun);
      && (round.result.Some? && GoesOnRecord(round.result.value) ==> IsFor(t, p, o, round.result.value))
      && (dryRun ==> round.dir == dir)
      && (dryRun || server == WILLING ==>
            round.result.Some? && round.result.value.success && (GoesOnRecord(round.result.value) <==> Provisionable(o)))
  {
  }

  lemma RecordedMore(results: seq<Provisioned>, r: Provisioned)
    ensures Recorded(results + [r]) == if GoesOnRecord(r) then Recorded(results) + [r] else Recorded(results)
    ensures Dns(Recorded(results) + [r]) == Dns(Recorded(results)) + [r.dn]
    ensures AllWell(results) && r.success ==> AllWell(results + [r])
  {
    assert (results + [r])[..|results|] == results;
    assert Recorded(results) + [] == Recorded(results);
  }

  lemma FollowsNext(t: CharTable, p: Provisioner, before: Progress, o: PlanObject, server: Server, dryRun: bool, plan: seq<string>)
    requires Subsequence(Dns(Recorded(before.results)), plan)
    ensures Subsequence(Dns(Recorded(ProvisionNext(t, p, before, o, server, dryRun).results)),
                        if Provisionable(o) then plan + [ObjectDn(t, p, o)] else plan)
  {
    SubsequenceMore(Dns(Recorded(before.results)), plan, ObjectDn(t, p, o));
    if !before.raised {
      var round := ProvisionOne(t, p, before.dir, o, server, dryRun);
      RoundResult(t, p, before.dir, o, server, dryRun);
      if round.result.Some? {
        RecordedMore(before.results, round.result.value);
      }
    }
  }

  /** The record's DNs are the plan's, in order, some perhaps left out. */
  lemma {:induction false} RecordFollowsPlan(t: CharTable, p: Provisioner, dir: Directory, objects: seq<PlanObject>, servers: nat -> Server, dryRun: bool)
    ensures Subsequence(Dns(Recorded(Provision(t, p, dir, objects, servers, dryRun).results)), PlanDns(t, p, objects))
  {
    if objects != [] {
      var n := |objects| - 1;
      RecordFollowsPlan(t, p, dir, objects[..n], servers, dryRun);
      FollowsNext(t, p, Provision(t, p, dir, objects[..n], servers, dryRun), objects[n], servers(n), dryRun, PlanDns(t, p, objects[..n]));
    }
  }

  ghost predicate OnPlan(t: CharTable, p: Provisioner, objects: seq<PlanObject>, r: Provisioned) {
    exists i :: 0 <= i < |objects| && IsFor(t, p, objects[i], r)
  }

  lemma OnPlanMore(t: CharTable, p: Provisioner, objects: seq<PlanObject>, r: Provisioned)
    requires objects != []
    requires OnPlan(t, p, objects[..|objects| - 1], r) || IsFor(t, p, objects[|objects| - 1], r)
    ensures OnPlan(t, p, objects, r)
  {
    if OnPlan(t, p, objects[..|objects| - 1], r) {
      var i :| 0 <= i < |objects| - 1 && IsFor(t, p, objects[..|objects| - 1][i], r);
      assert IsFor(t, p, objects[i], r);
    }
  }

  lemma {:induction false} RecordIsOnPlan(t: CharTable, p: Provisioner, dir: Directory, objects: seq<PlanObject>, servers: nat -> Server, dryRun: bool, k: nat)
    requires k < |Recorded(Provision(t, p, dir, objects, servers, dryRun).results)|
    ensures OnPlan(t, p, objects, Recorded(Provision(t, p, dir, objects, servers, dryRun).results)[k])
  {
    var n := |objects| - 1;
    var before := Provision(t, p, dir, objects[..n], servers, dryRun);
    if !before.raised {
      var round := ProvisionOne(t, p, before.dir, objects[n], servers(n), dryRun);
      RoundResult(t, p, before.dir, objects[n], servers(n), dryRun);
      if round.result.Some? {
        RecordedMore(before.results, round.result.value);
      }
    }
    if k < |Recorded(before.results)| {
      RecordIsOnPlan(t, p, dir, objects[..n], servers, dryRun, k);
    }
    OnPlanMore(t, p, objects, Recorded(Provision(t, p, dir, objects, servers, dryRun).results)[k]);
  }

  const WILLING := Server(false, false, Done)

  lemma WillingAdds(t: CharTable, p: Provisioner, dir: Directory, o: PlanObject, servers: nat -> Server)
    requires Provisionable(o) && servers(0) == WILLING && ObjectDn(t, p, o) !in dir
    ensures Provision(t, p, dir, [o], servers, false).dir == dir[ObjectDn(t, p, o) := NewEntry(t, p, o)]
  {
    assert [o][..0] == [];
  }

  // ---------------------------------------------------------------- account names

  /** A new entry's account name is that of some planned object's; a refresh keeps the old one. */
  ghost predicate Accounts(t: CharTable, p: Provisioner, objects: seq<PlanObject>, dir: Directory, dir': Directory) {
    && (forall dn :: dn in dir ==> dn in dir' && dir'[dn].sam == dir[dn].sam)
    && (forall dn :: dn in dir' && dn !in dir ==> PlannedAccount(t, p, objects, dir'[dn].sam))
  }

  ghost predicate PlannedAccount(t: CharTable, p: Provisioner, objects: seq<PlanObject>, sam: string) {
    exists i :: 0 <= i < |objects| && AccountOf(t, p, objects[i], sam)
  }

  predicate AccountOf(t: CharTable, p: Provisioner, o: PlanObject, sam: string) {
    Provisionable(o) && NewEntry(t, p, o).sam == sam
  }

  lemma RoundAccounts(t: CharTable, p: Provisioner, dir: Directory, o: PlanObject, server: Server)
    ensures var dir' := ProvisionOne(t, p, dir, o, server, false).dir;
      && (forall dn :: dn in dir ==> dn in dir' && dir'[dn].sam == dir[dn].sam)
      && (forall dn :: dn in dir' && dn !in dir ==> AccountOf(t, p, o, dir'[dn].sam))
  {
  }

  lemma {:induction false} ProvisionAccounts(t: CharTable, p: Provisioner, dir: Directory, objects: seq<PlanObject>, servers: nat -> Server)
    ensures Accounts(t, p, objects, dir, Provision(t, p, dir, objects, servers, false).dir)
  {
    if objects != [] {
      var n := |objects| - 1;
      var front := objects[..n];
      ProvisionAccounts(t, p, dir, front, servers);
      var before := Provision(t, p, dir, front, servers, false);
      var dir' := Provision(t, p, dir, objects, servers, false).dir;
      RoundAccounts(t, p, before.dir, objects[n], servers(n));
      forall dn | dn in dir' && dn !in dir ensures PlannedAccount(t, p, objects, dir'[dn].sam) {
        if dn in before.dir {
          var i :| 0 <= i < |front| && AccountOf(t, p, front[i], before.dir[dn].sam);
          assert AccountOf(t, p, objects[i], dir'[dn].sam);
        } else {
          assert AccountOf(t, p, objects[n], dir'[dn].sam);
        }
      }
    }
  }

  /** The last round of a willing server or a dry run. */
  lemma WillingRound(t: CharTable, p: Provisioner, before: Progress, o: PlanObject, server: Server, dryRun: bool)
    requires dryRun || server == WILLING
    ensures var round := ProvisionOne(t, p, before.dir, o, server, dryRun);
      && round.result.Some? && (dryRun ==> round.dir == before.dir)
      && (AllWell(before.results) ==> AllWell(before.results + [round.result.value]))
      && Dns(Recorded(before.results + [round.result.value]))
         == (if Provisionable(o) then Dns(Recorded(before.results)) + [ObjectDn(t, p, o)] else Dns(Recorded(before.results)))
  {
    RoundResult(t, p, before.dir, o, server, dryRun);
    RecordedMore(before.results, ProvisionOne(t, p, before.dir, o, server, dryRun).result.value);
  }

  /** A willing server, or a dry run, puts the whole plan on record. */
  lemma {:induction false} WillingRecordsPlan(t: CharTable, p: Provisioner, dir: Directory, objects: seq<PlanObject>, servers: nat -> Server, dryRun: bool)
    requires !dryRun ==> forall k: nat :: k < |objects| ==> servers(k) == WILLING
    ensures var end := Provision(t, p, dir, objects, servers, dryRun);
      && !end.raised && AllWell(end.results) && Dns(Recorded(end.results)) == PlanDns(t, p, objects)
      && (dryRun ==> end.dir == dir)
  {
    if objects != [] {
      var n := |objects| - 1;
      WillingRecordsPlan(t, p, dir, objects[..n], servers, dryRun);
      WillingRound(t, p, Provision(t, p, dir, objects[..n], servers, dryRun), objects[n], servers(n), dryRun);
    }
  }

  lemma {:induction false} WillingLosesNothing(t: CharTable, p: Provisioner, dir: Directory, objects: seq<PlanObject>, servers: nat -> Server)
    requires forall k: nat :: k < |objects| ==> servers(k).write != RaisedAfter
    ensures !LostWrite(t, p, dir, objects, servers)
  {
    if objects != [] {
      WillingLosesNothing(t, p, dir, objects[..|objects| - 1], servers);
    }
  }

  // ---------------------------------------------------------------- tearing a record down

  ghost predicate Deletable(t: CharTable, p: Provisioner, rs: seq<Provisioned>) {
    forall i :: 0 <= i < |rs| ==> rs[i].dn != "" && IsSafeDn(t, p.names, rs[i].dn)
  }

  ghost predicate AllIn(rs: seq<Provisioned>, dir: Directory) {
    forall i :: 0 <= i < |rs| ==> rs[i].dn in dir
  }

  /** Exactly the DNs of `rs` are gone, and all deletes succeeded if and only if they could. */
  ghost predicate TornAway(dir: Directory, end: Progress, rs: seq<Provisioned>) {
    && !end.raised
    && (forall dn :: dn in end.dir <==> dn in dir && !Covers(rs, dn))
    && (forall dn :: dn in end.dir ==> end.dir[dn] == dir[dn])
    && (AllWell(end.results) <==> Distinct(Dns(rs)) && AllIn(rs, dir))
  }

  lemma TearNextAway(t: CharTable, p: Provisioner, dir: Directory, before: Progress, front: seq<Provisioned>, r: Provisioned)
    requires TornAway(dir, before, front) && r.dn != "" && IsSafeDn(t, p.names, r.dn)
    ensures TornAway(dir, TearNext(t, p, before, r, Done, false), front + [r])
  {
    forall dn ensures Covers(front + [r], dn) <==> Covers(front, dn) || r.dn == dn {
      CoversMore(front, r, dn);
    }
    TearLast(dir, before, front, r);
  }

  /** Against a server that does every delete it can, teardown removes exactly the record's DNs,
      and succeeds exactly when they are distinct and all there. */
  lemma {:induction false} TearEffect(t: CharTable, p: Provisioner, dir: Directory, rs: seq<Provisioned>, replies: nat -> Reply)
    requires Deletable(t, p, rs) && forall k: nat :: k < |rs| ==> replies(k) == Done
    ensures TornAway(dir, Tear(t, p, dir, rs, replies, false), rs)
  {
    if rs != [] {
      var n := |rs| - 1;
      TearEffect(t, p, dir, rs[..n], replies);
      TearNextAway(t, p, dir, Tear(t, p, dir, rs[..n], replies, false), rs[..n], rs[n]);
      assert rs == rs[..n] + [rs[n]];
    }
  }

  lemma TearLast(dir: Directory, before: Progress, front: seq<Provisioned>, r: Provisioned)
    requires r.dn in before.dir <==> r.dn in dir && !Covers(front, r.dn)
    requires AllWell(before.results) <==> Distinct(Dns(front)) && AllIn(front, dir)
    ensures var last := r.(action := if r.dn in before.dir then "deleted" else "delete_failed", success := r.dn in before.dir);
      AllWell(before.results + [last]) <==> Distinct(Dns(front + [r])) && AllIn(front + [r], dir)
  {
    var last := r.(action := if r.dn in before.dir then "deleted" else "delete_failed", success := r.dn in before.dir);
    var all, rs := before.results + [last], front + [r];
    assert rs[|front|] == r && forall i :: 0 <= i < |front| ==> rs[i] == front[i];
    assert all[|before.results|] == last && forall i :: 0 <= i < |before.results| ==> all[i] == before.results[i];
    assert AllWell(all) <==> AllWell(before.results) && last.success;
    assert Dns(rs) == Dns(front) + [r.dn];
    assert Distinct(Dns(rs)) <==> Distinct(Dns(front)) && !Covers(front, r.dn);
    assert AllIn(rs, dir) <==> AllIn(front, dir) && r.dn in dir;
  }
}
