/** What provisioning leaves in the directory, entry by entry, and what it reports; and that a dry run,
    either way, changes nothing. */
module ProvisionedEntries {
  import opened Text
  import opened HoneyNames
  import opened DeploymentHistory
  import opened Provisioning

  // ---------------------------------------------------------------- one object

  /** The bits of `userAccountControl`, as section 2.2.16 of MS-ADTS has them. */
  const ACCOUNT_DISABLE := 0x2
  const NORMAL_ACCOUNT := 0x200
  const WORKSTATION_TRUST := 0x1000

  predicate IsUser(o: PlanObject) { o.objectType == "HoneyUser" }

  /** Disabled, of the object's kind, and tagged. */
  predicate SealedAs(p: Provisioner, o: PlanObject, e: Entry) {
    && e.uac == ACCOUNT_DISABLE + (if IsUser(o) then NORMAL_ACCOUNT else WORKSTATION_TRUST)
    && e.description == p.tag
  }

  /** The account a new entry of the object has. */
  predicate AccountIs(t: CharTable, p: Provisioner, o: PlanObject, e: Entry) {
    && e.kind == (if IsUser(o) then "user" else "computer")
    && e.sam == ProvisionedName(t, p, o) + (if IsUser(o) then "" else "$")
  }

  /** `e` is what a write for `o` makes of `was`. */
  predicate WrittenFor(t: CharTable, p: Provisioner, o: PlanObject, was: Option<Entry>, e: Entry) {
    && SealedAs(p, o, e)
    && (was.Some? ==> e.kind == was.value.kind && e.sam == was.value.sam)
    && (was.None? ==> AccountIs(t, p, o, e))
    && e.workstations == (if IsUser(o) && p.harden then p.workstationsLock else if was.Some? then was.value.workstations else "")
    && e.spns == (if !IsUser(o) && o.spns != [] then o.spns else if was.Some? then was.value.spns else [])
  }

  function At(dir: Directory, dn: string): Option<Entry> { if dn in dir then Some(dir[dn]) else None }

  /** The server applies the object's write: the add of an absent entry, or the refresh of one it finds. */
  predicate Applies(t: CharTable, p: Provisioner, dir: Directory, o: PlanObject, server: Server) {
    && (o.objectType == "HoneyUser" || o.objectType == "HoneyServer")
    && !server.searchRaises && (server.write == Done || server.write == RaisedAfter)
    && (ObjectDn(t, p, o) in dir ==> !server.searchMisses)
  }

  /** The loop goes on after this object: nothing raised. */
  predicate GoesOn(o: PlanObject, server: Server) {
    (o.objectType == "HoneyUser" || o.objectType == "HoneyServer") ==>
      !server.searchRaises && server.write != RaisedBefore && server.write != RaisedAfter
  }

  lemma AddSays(t: CharTable, p: Provisioner, dir: Directory, o: PlanObject, server: Server)
    requires Sane(t) && Provisionable(o) && ObjectDn(t, p, o) !in dir
    ensures var round, dn := ProvisionOne(t, p, dir, o, server, false), ObjectDn(t, p, o);
      && (Applies(t, p, dir, o, server) ==> dn in round.dir && WrittenFor(t, p, o, None, round.dir[dn]))
      && (!Applies(t, p, dir, o, server) ==> round.dir == dir)
  {
    ProvisionedNameHasNoDollar(t, p.names, o.name);
  }

  lemma RefreshSays(t: CharTable, p: Provisioner, dir: Directory, o: PlanObject, server: Server)
    requires Provisionable(o) && ObjectDn(t, p, o) in dir
    ensures var round, dn := ProvisionOne(t, p, dir, o, server, false), ObjectDn(t, p, o);
      && dn in round.dir
      && (Applies(t, p, dir, o, server) ==> WrittenFor(t, p, o, Some(dir[dn]), round.dir[dn]))
      && (!Applies(t, p, dir, o, server) ==> round.dir == dir)
  {
  }

  lemma RoundTouchesOne(t: CharTable, p: Provisioner, dir: Directory, o: PlanObject, server: Server)
    ensures var round := ProvisionOne(t, p, dir, o, server, false);
      && (forall d :: d != ObjectDn(t, p, o) ==> At(round.dir, d) == At(dir, d))
      && (!Provisionable(o) ==> round.dir == dir)
      && (round.result.Some? <==> GoesOn(o, server))
  {
  }

  /** One live round writes exactly the object's entry, when the server applies it, and raises only when
      the search or the write does. */
  lemma RoundSays(t: CharTable, p: Provisioner, dir: Directory, o: PlanObject, server: Server)
    requires Sane(t)
    ensures var round, dn := ProvisionOne(t, p, dir, o, server, false), ObjectDn(t, p, o);
      && (forall d :: d != dn ==> At(round.dir, d) == At(dir, d))
      && (Applies(t, p, dir, o, server) ==> dn in round.dir && WrittenFor(t, p, o, At(dir, dn), round.dir[dn]))
      && (!Applies(t, p, dir, o, server) ==> At(round.dir, dn) == At(dir, dn))
      && (round.result.Some? <==> GoesOn(o, server))
  {
    RoundTouchesOne(t, p, dir, o, server);
    if Provisionable(o) && ObjectDn(t, p, o) in dir {
      RefreshSays(t, p, dir, o, server);
    } else if Provisionable(o) {
      AddSays(t, p, dir, o, server);
    }
  }

  /** It reports the object created, updated - even if the server refused the update - or failed. */
  lemma RoundReports(t: CharTable, p: Provisioner, dir: Directory, o: PlanObject, server: Server)
    requires GoesOn(o, server)
    ensures var round, dn := ProvisionOne(t, p, dir, o, server, false), ObjectDn(t, p, o);
      && round.result.Some?
      && var r := round.result.value;
         && r.objectType == o.objectType
         && (if !(o.objectType == "HoneyUser" || o.objectType == "HoneyServer") then
               r.action == "skipped" && r.success && r.dn == "" && r.name == o.name
             else
               && r.dn == dn && r.name == ProvisionedName(t, p, o)
               && (if dn in dir && !server.searchMisses then r.action == "updated" && r.success
                   else if Applies(t, p, dir, o, server) then r.action == "created" && r.success
                   else r.action == "create_failed" && !r.success))
  {
  }

  // ---------------------------------------------------------------- the whole plan

  /** The objects whose write was applied at `dn`, in order. */
  function Writers(t: CharTable, p: Provisioner, dir: Directory, objects: seq<PlanObject>, servers: nat -> Server, dn: string): seq<PlanObject> {
    if objects == [] then []
    else
      var n := |objects| - 1;
      var before := Provision(t, p, dir, objects[..n], servers, false);
      Writers(t, p, dir, objects[..n], servers, dn)
      + (if WritesNext(t, p, before, objects[n], servers(n), dn) then [objects[n]] else [])
  }

  /** `e` is what the writers one after the other make of `was`. */
  ghost predicate WrittenBy(t: CharTable, p: Provisioner, ws: seq<PlanObject>, was: Option<Entry>, e: Option<Entry>) {
    if ws == [] then e == was
    else
      var n := |ws| - 1;
      e.Some? && exists mid :: WrittenBy(t, p, ws[..n], was, mid) && WrittenFor(t, p, ws[n], mid, e.value)
  }

  lemma WrittenMore(
      t: CharTable, p: Provisioner, ws: seq<PlanObject>, was: Option<Entry>, mid: Option<Entry>, o: PlanObject, e: Entry)
    requires WrittenBy(t, p, ws, was, mid) && WrittenFor(t, p, o, mid, e)
    ensures WrittenBy(t, p, ws + [o], was, Some(e))
  {
    assert (ws + [o])[..|ws|] == ws;
  }

  /** Whether the next object's write is applied at `dn`. */
  predicate WritesNext(t: CharTable, p: Provisioner, before: Progress, o: PlanObject, server: Server, dn: string) {
    !before.raised && ObjectDn(t, p, o) == dn && Applies(t, p, before.dir, o, server)
  }

  lemma NextEntry(t: CharTable, p: Provisioner, before: Progress, o: PlanObject, server: Server, dn: string)
    requires Sane(t)
    ensures var after := At(ProvisionNext(t, p, before, o, server, false).dir, dn);
      if WritesNext(t, p, before, o, server, dn) then after.Some? && WrittenFor(t, p, o, At(before.dir, dn), after.value)
      else after == At(before.dir, dn)
  {
    RoundSays(t, p, before.dir, o, server);
  }

  /** Every entry of the directory is what the applied writes made of it. */
  lemma {:induction false} ProvisionWrites(t: CharTable, p: Provisioner, dir: Directory, objects: seq<PlanObject>, servers: nat -> Server, dn: string)
    requires Sane(t)
    ensures WrittenBy(t, p, Writers(t, p, dir, objects, servers, dn), At(dir, dn), At(Provision(t, p, dir, objects, servers, false).dir, dn))
  {
    if objects != [] {
      var n := |objects| - 1;
      ProvisionWrites(t, p, dir, objects[..n], servers, dn);
      var before := Provision(t, p, dir, objects[..n], servers, false);
      var ws := Writers(t, p, dir, objects[..n], servers, dn);
      NextEntry(t, p, before, objects[n], servers(n), dn);
      if WritesNext(t, p, before, objects[n], servers(n), dn) {
        var after := ProvisionNext(t, p, before, objects[n], servers(n), false).dir;
        WrittenMore(t, p, ws, At(dir, dn), At(before.dir, dn), objects[n], after[dn]);
      } else {
        NothingAfter(ws, []);
      }
    }
  }

  /** Once something was written at a DN, its entry is disabled and tagged as the last writer has it; its
      kind and account are the old ones, or the first writer's; hardened users' workstation lock and
      the servers' principal names are those of the writers, and otherwise the old ones. */
  lemma {:induction false} WrittenMeans(t: CharTable, p: Provisioner, ws: seq<PlanObject>, was: Option<Entry>, e: Option<Entry>)
    requires WrittenBy(t, p, ws, was, e) && ws != []
    ensures e.Some? && SealedAs(p, ws[|ws| - 1], e.value)
    ensures if was.Some? then e.value.kind == was.value.kind && e.value.sam == was.value.sam
            else AccountIs(t, p, ws[0], e.value)
    ensures p.harden && (exists o :: o in ws && IsUser(o)) ==> e.value.workstations == p.workstationsLock
    ensures !p.harden || (forall o :: o in ws ==> !IsUser(o)) ==>
              e.value.workstations == if was.Some? then was.value.workstations else ""
    ensures (exists o :: o in ws && !IsUser(o) && o.spns == e.value.spns != [])
            || ((forall o :: o in ws ==> IsUser(o) || o.spns == []) && e.value.spns == if was.Some? then was.value.spns else [])
  {
    var n := |ws| - 1;
    var mid :| WrittenBy(t, p, ws[..n], was, mid) && WrittenFor(t, p, ws[n], mid, e.value);
    assert forall o :: o in ws <==> o in ws[..n] || o == ws[n];
    if n > 0 { WrittenMeans(t, p, ws[..n], was, mid); }
  }

  // ---------------------------------------------------------------- what is on record is bait

  /** An account nobody can use, tagged. */
  predicate Bait(p: Provisioner, e: Entry) {
    e.uac / ACCOUNT_DISABLE % 2 == 1 && e.description == p.tag
  }

  lemma SealedIsBait(p: Provisioner, o: PlanObject, e: Entry)
    requires SealedAs(p, o, e)
    ensures Bait(p, e)
  {
  }

  predicate BaitAt(p: Provisioner, e: Option<Entry>) { e.Some? && Bait(p, e.value) }

  lemma BaitOnceWritten(t: CharTable, p: Provisioner, ws: seq<PlanObject>, was: Option<Entry>, e: Option<Entry>)
    requires WrittenBy(t, p, ws, was, e)
    ensures BaitAt(p, e) <==> ws != [] || BaitAt(p, was)
  {
    if ws != [] {
      WrittenMeans(t, p, ws, was, e);
      SealedIsBait(p, ws[|ws| - 1], e.value);
    }
  }

  /** An entry is bait after provisioning exactly when something was written there or it was before. */
  lemma BaitIff(t: CharTable, p: Provisioner, dir: Directory, objects: seq<PlanObject>, servers: nat -> Server, dn: string)
    requires Sane(t)
    ensures BaitAt(p, At(Provision(t, p, dir, objects, servers, false).dir, dn))
       <==> Writers(t, p, dir, objects, servers, dn) != [] || BaitAt(p, At(dir, dn))
  {
    ProvisionWrites(t, p, dir, objects, servers, dn);
    BaitOnceWritten(t, p, Writers(t, p, dir, objects, servers, dn), At(dir, dn),
                    At(Provision(t, p, dir, objects, servers, false).dir, dn));
  }

  lemma NewMeans(t: CharTable, p: Provisioner, ws: seq<PlanObject>, e: Entry)
    requires WrittenBy(t, p, ws, None, Some(e))
    ensures ws != [] && Bait(p, e) && AccountIs(t, p, ws[0], e)
    ensures p.harden && e.kind == "user" ==> e.workstations == p.workstationsLock
  {
    BaitOnceWritten(t, p, ws, None, Some(e));
    WrittenMeans(t, p, ws, None, Some(e));
    assert ws[0] in ws;
  }

  /** Every new entry is bait, of some planned object's kind and account. */
  lemma NewEntriesAreBait(t: CharTable, p: Provisioner, dir: Directory, objects: seq<PlanObject>, servers: nat -> Server, dn: string)
    requires Sane(t) && dn !in dir && dn in Provision(t, p, dir, objects, servers, false).dir
    ensures var e := Provision(t, p, dir, objects, servers, false).dir[dn];
      && Bait(p, e)
      && (exists i :: 0 <= i < |objects| && IsAccountAt(t, p, objects[i], dn, e))
      && (p.harden && e.kind == "user" ==> e.workstations == p.workstationsLock)
  {
    var ws, e := Writers(t, p, dir, objects, servers, dn), Provision(t, p, dir, objects, servers, false).dir[dn];
    ProvisionWrites(t, p, dir, objects, servers, dn);
    NewMeans(t, p, ws, e);
    WriterIsPlanned(t, p, dir, objects, servers, dn, 0);
    var i :| 0 <= i < |objects| && objects[i] == ws[0];
    assert IsAccountAt(t, p, objects[i], dn, e);
  }

  predicate IsAccountAt(t: CharTable, p: Provisioner, o: PlanObject, dn: string, e: Entry) {
    Provisionable(o) && ObjectDn(t, p, o) == dn && AccountIs(t, p, o, e)
  }

  lemma {:induction false} WriterIsPlanned(
      t: CharTable, p: Provisioner, dir: Directory, objects: seq<PlanObject>, servers: nat -> Server, dn: string, k: nat)
    requires k < |Writers(t, p, dir, objects, servers, dn)|
    ensures var w := Writers(t, p, dir, objects, servers, dn)[k];
      exists i :: 0 <= i < |objects| && objects[i] == w && Provisionable(w) && ObjectDn(t, p, w) == dn
  {
    var n := |objects| - 1;
    var ws := Writers(t, p, dir, objects[..n], servers, dn);
    if k < |ws| {
      WriterIsPlanned(t, p, dir, objects[..n], servers, dn, k);
      var i :| 0 <= i < n && objects[..n][i] == ws[k];
      assert objects[i] == ws[k];
    } else {
      assert objects[n] == Writers(t, p, dir, objects, servers, dn)[k];
    }
  }

  /** Everything recorded stands in the directory as bait. */
  ghost predicate RecordIsBait(t: CharTable, p: Provisioner, dir: Directory, objects: seq<PlanObject>, servers: nat -> Server) {
    var end := Provision(t, p, dir, objects, servers, false);
    forall r :: r in Recorded(end.results) ==> r.dn in end.dir && Bait(p, end.dir[r.dn])
  }

  /** The loop comes to object `k`, and if its entry is there the server finds it and refuses the refresh. */
  predicate RefusesRefresh(objects: seq<PlanObject>, servers: nat -> Server, k: nat) {
    && k < |objects| && Provisionable(objects[k])
    && !servers(k).searchRaises && !servers(k).searchMisses && servers(k).write == Refused
    && forall j: nat :: j < k ==> GoesOn(objects[j], servers(j))
  }

  lemma NextRaisedIff(t: CharTable, p: Provisioner, before: Progress, o: PlanObject, server: Server)
    ensures ProvisionNext(t, p, before, o, server, false).raised <==> before.raised || !GoesOn(o, server)
  {
  }

  ghost predicate AllGoOn(objects: seq<PlanObject>, servers: nat -> Server) {
    forall j: nat :: j < |objects| ==> GoesOn(objects[j], servers(j))
  }

  lemma {:induction false} RaisedIff(t: CharTable, p: Provisioner, dir: Directory, objects: seq<PlanObject>, servers: nat -> Server)
    ensures Provision(t, p, dir, objects, servers, false).raised <==> !AllGoOn(objects, servers)
  {
    if objects != [] {
      var n := |objects| - 1;
      RaisedIff(t, p, dir, objects[..n], servers);
      NextRaisedIff(t, p, Provision(t, p, dir, objects[..n], servers, false), objects[n], servers(n));
      assert AllGoOn(objects, servers) <==> AllGoOn(objects[..n], servers) && GoesOn(objects[n], servers(n)) by {
        forall j: nat | j < n ensures objects[..n][j] == objects[j] {
        }
      }
    }
  }

  lemma RecordedNext(before: Progress, round: Round, r: Provisioned)
    requires !before.raised
    ensures r in Recorded(Advance(before, round).results)
       <==> r in Recorded(before.results) || (round.result == Some(r) && GoesOnRecord(r))
  {
    if round.result.Some? {
      RecordedMore(before.results, round.result.value);
    }
  }

  /** What the next object puts on record it writes, unless its refresh is refused. */
  lemma NextIsWritten(t: CharTable, p: Provisioner, before: Progress, o: PlanObject, server: Server, r: Provisioned)
    requires !before.raised
    requires Provisionable(o) && !server.searchRaises && !server.searchMisses ==> server.write != Refused
    requires ProvisionOne(t, p, before.dir, o, server, false).result == Some(r) && GoesOnRecord(r)
    ensures WritesNext(t, p, before, o, server, r.dn)
  {
  }

  lemma {:induction false} RecordedAreWritten(
      t: CharTable, p: Provisioner, dir: Directory, objects: seq<PlanObject>, servers: nat -> Server, r: Provisioned)
    requires forall k: nat :: !RefusesRefresh(objects, servers, k)
    requires r in Recorded(Provision(t, p, dir, objects, servers, false).results)
    ensures Writers(t, p, dir, objects, servers, r.dn) != []
  {
    var n := |objects| - 1;
    var before := Provision(t, p, dir, objects[..n], servers, false);
    forall k: nat ensures !RefusesRefresh(objects[..n], servers, k) {
      if RefusesRefresh(objects[..n], servers, k) {
        assert forall j: nat :: j < k ==> objects[..n][j] == objects[j];
        assert RefusesRefresh(objects, servers, k);
      }
    }
    if r in Recorded(before.results) {
      RecordedAreWritten(t, p, dir, objects[..n], servers, r);
    } else {
      RaisedIff(t, p, dir, objects[..n], servers);
      RecordedNext(before, ProvisionOne(t, p, before.dir, objects[n], servers(n), false), r);
      assert forall j: nat :: j < n ==> objects[..n][j] == objects[j];
      assert !RefusesRefresh(objects, servers, n);
      NextIsWritten(t, p, before, objects[n], servers(n), r);
    }
  }

  predicate DistinctPlan(t: CharTable, p: Provisioner, objects: seq<PlanObject>) {
    forall i, j :: 0 <= i < j < |objects| && Provisionable(objects[i]) && Provisionable(objects[j]) ==>
      ObjectDn(t, p, objects[i]) != ObjectDn(t, p, objects[j])
  }

  lemma WritersPrefix(
      t: CharTable, p: Provisioner, dir: Directory, objects: seq<PlanObject>, servers: nat -> Server, dn: string, m: nat)
    requires m < |objects|
    ensures Writers(t, p, dir, objects[..m + 1], servers, dn)
         == Writers(t, p, dir, objects[..m], servers, dn)
            + (if WritesNext(t, p, Provision(t, p, dir, objects[..m], servers, false), objects[m], servers(m), dn)
               then [objects[m]] else [])
  {
    assert objects[..m + 1][..m] == objects[..m];
  }

  /** With distinct DNs only the object itself can write its entry. */
  lemma OthersDoNotWrite(
      t: CharTable, p: Provisioner, before: Progress, objects: seq<PlanObject>, servers: nat -> Server, k: nat, m: nat)
    requires DistinctPlan(t, p, objects) && k < |objects| && m < |objects| && k != m && Provisionable(objects[k])
    ensures !WritesNext(t, p, before, objects[m], servers(m), ObjectDn(t, p, objects[k]))
  {
  }

  lemma {:induction false} RefusedIsNotWritten(
      t: CharTable, p: Provisioner, dir: Directory, objects: seq<PlanObject>, servers: nat -> Server, k: nat, m: nat)
    requires DistinctPlan(t, p, objects) && RefusesRefresh(objects, servers, k) && m <= |objects|
    ensures Writers(t, p, dir, objects[..m], servers, ObjectDn(t, p, objects[k])) == []
  {
    if m > 0 {
      RefusedIsNotWritten(t, p, dir, objects, servers, k, m - 1);
      WritersPrefix(t, p, dir, objects, servers, ObjectDn(t, p, objects[k]), m - 1);
      if m - 1 != k {
        OthersDoNotWrite(t, p, Provision(t, p, dir, objects[..m - 1], servers, false), objects, servers, k, m - 1);
      }
    }
  }

  lemma {:induction false} OnlyOwnWriter(
      t: CharTable, p: Provisioner, dir: Directory, objects: seq<PlanObject>, servers: nat -> Server, k: nat, m: nat)
    requires DistinctPlan(t, p, objects) && k < |objects| && Provisionable(objects[k]) && m <= |objects|
    ensures var ws := Writers(t, p, dir, objects[..m], servers, ObjectDn(t, p, objects[k]));
      ws == [] || (k < m && ws == [objects[k]])
  {
    if m > 0 {
      OnlyOwnWriter(t, p, dir, objects, servers, k, m - 1);
      WritersPrefix(t, p, dir, objects, servers, ObjectDn(t, p, objects[k]), m - 1);
      if m - 1 != k {
        OthersDoNotWrite(t, p, Provision(t, p, dir, objects[..m - 1], servers, false), objects, servers, k, m - 1);
      }
    }
  }

  lemma WrittenOnce(t: CharTable, p: Provisioner, o: PlanObject, was: Option<Entry>, e: Option<Entry>)
    requires WrittenBy(t, p, [o], was, e)
    ensures e.Some? && WrittenFor(t, p, o, was, e.value)
  {
    var mid :| WrittenBy(t, p, [o][..0], was, mid) && WrittenFor(t, p, o, mid, e.value);
  }

  /** With distinct DNs an object's entry is as it was, or exactly as the object and what was there
      before say. */
  lemma EntryIsAsPlanned(t: CharTable, p: Provisioner, dir: Directory, objects: seq<PlanObject>, servers: nat -> Server, k: nat)
    requires Sane(t) && DistinctPlan(t, p, objects) && k < |objects| && Provisionable(objects[k])
    ensures var dn := ObjectDn(t, p, objects[k]);
      var was, e := At(dir, dn), At(Provision(t, p, dir, objects, servers, false).dir, dn);
      e == was || (e.Some? && WrittenFor(t, p, objects[k], was, e.value))
  {
    var dn := ObjectDn(t, p, objects[k]);
    ProvisionWrites(t, p, dir, objects, servers, dn);
    OnlyOwnWriter(t, p, dir, objects, servers, k, |objects|);
    assert objects[..|objects|] == objects;
    if Writers(t, p, dir, objects, servers, dn) != [] {
      WrittenOnce(t, p, objects[k], At(dir, dn), At(Provision(t, p, dir, objects, servers, false).dir, dn));
    }
  }

  /** What is on record stays there. */
  ghost predicate KeepsRecord(before: seq<Provisioned>, after: seq<Provisioned>) {
    forall r :: r in Recorded(before) ==> r in Recorded(after)
  }

  lemma NextKeepsRecord(t: CharTable, p: Provisioner, before: Progress, o: PlanObject, server: Server)
    ensures KeepsRecord(before.results, ProvisionNext(t, p, before, o, server, false).results)
  {
    if !before.raised {
      forall r | r in Recorded(before.results) ensures r in Recorded(ProvisionNext(t, p, before, o, server, false).results) {
        RecordedNext(before, ProvisionOne(t, p, before.dir, o, server, false), r);
      }
    }
  }

  lemma {:induction false} RecordsGrow(results: nat -> seq<Provisioned>, m: nat, n: nat)
    requires m <= n && forall k: nat :: k < n ==> KeepsRecord(results(k), results(k + 1))
    ensures KeepsRecord(results(m), results(n))
  {
    if m < n { RecordsGrow(results, m, n - 1); }
  }

  lemma ProvisionPrefix(t: CharTable, p: Provisioner, dir: Directory, objects: seq<PlanObject>, servers: nat -> Server, m: nat)
    requires m < |objects|
    ensures Provision(t, p, dir, objects[..m + 1], servers, false)
         == ProvisionNext(t, p, Provision(t, p, dir, objects[..m], servers, false), objects[m], servers(m), false)
  {
    assert objects[..m + 1][..m] == objects[..m];
  }

  /** The results after the first objects, or after all of them. */
  function ResultsAfter(t: CharTable, p: Provisioner, dir: Directory, objects: seq<PlanObject>, servers: nat -> Server, k: nat): seq<Provisioned> {
    Provision(t, p, dir, if k <= |objects| then objects[..k] else objects, servers, false).results
  }

  lemma StepKeepsRecord(t: CharTable, p: Provisioner, dir: Directory, objects: seq<PlanObject>, servers: nat -> Server, k: nat)
    requires k < |objects|
    ensures KeepsRecord(ResultsAfter(t, p, dir, objects, servers, k), ResultsAfter(t, p, dir, objects, servers, k + 1))
  {
    ProvisionPrefix(t, p, dir, objects, servers, k);
    NextKeepsRecord(t, p, Provision(t, p, dir, objects[..k], servers, false), objects[k], servers(k));
  }

  lemma RecordedStays(t: CharTable, p: Provisioner, dir: Directory, objects: seq<PlanObject>, servers: nat -> Server, m: nat)
    requires m <= |objects|
    ensures KeepsRecord(ResultsAfter(t, p, dir, objects, servers, m), ResultsAfter(t, p, dir, objects, servers, |objects|))
  {
    var results := (k: nat) => ResultsAfter(t, p, dir, objects, servers, k);
    forall k: nat | k < |objects| ensures KeepsRecord(results(k), results(k + 1)) {
      StepKeepsRecord(t, p, dir, objects, servers, k);
    }
    RecordsGrow(results, m, |objects|);
  }

  /** The refused round itself: reported as updated. */
  lemma RefusedRound(t: CharTable, p: Provisioner, before: Progress, o: PlanObject, server: Server) returns (r: Provisioned)
    requires !before.raised && Provisionable(o) && ObjectDn(t, p, o) in before.dir
    requires !server.searchRaises && !server.searchMisses && server.write == Refused
    ensures r.dn == ObjectDn(t, p, o) && r in Recorded(ProvisionNext(t, p, before, o, server, false).results)
  {
    RoundReports(t, p, before.dir, o, server);
    var round := ProvisionOne(t, p, before.dir, o, server, false);
    r := round.result.value;
    RecordedNext(before, round, r);
  }

  /** The loop comes to the refused object with its entry as it was. */
  lemma RefusedInPlace(t: CharTable, p: Provisioner, dir: Directory, objects: seq<PlanObject>, servers: nat -> Server, k: nat)
    requires Sane(t) && DistinctPlan(t, p, objects) && RefusesRefresh(objects, servers, k)
    ensures var before, dn := Provision(t, p, dir, objects[..k], servers, false), ObjectDn(t, p, objects[k]);
      !before.raised && At(before.dir, dn) == At(dir, dn)
  {
    RaisedIff(t, p, dir, objects[..k], servers);
    RefusedIsNotWritten(t, p, dir, objects, servers, k, k);
    ProvisionWrites(t, p, dir, objects[..k], servers, ObjectDn(t, p, objects[k]));
  }

  lemma RefusedRoundRecords(
      t: CharTable, p: Provisioner, dir: Directory, objects: seq<PlanObject>, servers: nat -> Server, k: nat) returns (r: Provisioned)
    requires Sane(t) && DistinctPlan(t, p, objects) && RefusesRefresh(objects, servers, k) && ObjectDn(t, p, objects[k]) in dir
    ensures r.dn == ObjectDn(t, p, objects[k]) && r in Recorded(ResultsAfter(t, p, dir, objects, servers, k + 1))
  {
    RefusedInPlace(t, p, dir, objects, servers, k);
    ProvisionPrefix(t, p, dir, objects, servers, k);
    var before := Provision(t, p, dir, objects[..k], servers, false);
    assert At(before.dir, ObjectDn(t, p, objects[k])).Some?;
    r := RefusedRound(t, p, before, objects[k], servers(k));
  }

  lemma WholeResults(t: CharTable, p: Provisioner, dir: Directory, objects: seq<PlanObject>, servers: nat -> Server)
    ensures ResultsAfter(t, p, dir, objects, servers, |objects|) == Provision(t, p, dir, objects, servers, false).results
  {
    assert objects[..|objects|] == objects;
  }

  /** An entry that stands at the refused object's DN is on record, as it was. */
  lemma RefusedIsRecorded(
      t: CharTable, p: Provisioner, dir: Directory, objects: seq<PlanObject>, servers: nat -> Server, k: nat) returns (r: Provisioned)
    requires Sane(t) && DistinctPlan(t, p, objects) && RefusesRefresh(objects, servers, k) && ObjectDn(t, p, objects[k]) in dir
    ensures r.dn == ObjectDn(t, p, objects[k]) && r in Recorded(Provision(t, p, dir, objects, servers, false).results)
    ensures Writers(t, p, dir, objects, servers, r.dn) == []
  {
    r := RefusedRoundRecords(t, p, dir, objects, servers, k);
    RecordedStays(t, p, dir, objects, servers, k + 1);
    WholeResults(t, p, dir, objects, servers);
    RefusedIsNotWritten(t, p, dir, objects, servers, k, |objects|);
    assert objects[..|objects|] == objects;
  }

  /** A usable account at the DN of a refused object is recorded, and stays usable. */
  lemma UsableStaysUsable(t: CharTable, p: Provisioner, dir: Directory, objects: seq<PlanObject>, servers: nat -> Server, k: nat)
    requires Sane(t) && DistinctPlan(t, p, objects) && RefusesRefresh(objects, servers, k)
    requires ObjectDn(t, p, objects[k]) in dir && !Bait(p, dir[ObjectDn(t, p, objects[k])])
    ensures !RecordIsBait(t, p, dir, objects, servers)
  {
    var r := RefusedIsRecorded(t, p, dir, objects, servers, k);
    BaitIff(t, p, dir, objects, servers, r.dn);
    NotBaitBreaksRecord(t, p, dir, objects, servers, r);
  }

  lemma NotBaitBreaksRecord(t: CharTable, p: Provisioner, dir: Directory, objects: seq<PlanObject>, servers: nat -> Server, r: Provisioned)
    requires r in Recorded(Provision(t, p, dir, objects, servers, false).results)
    requires !BaitAt(p, At(Provision(t, p, dir, objects, servers, false).dir, r.dn))
    ensures !RecordIsBait(t, p, dir, objects, servers)
  {
  }

  /** Whatever the directory held, everything on record is disabled and tagged, exactly when the server
      refuses no refresh the loop comes to: a refused one is reported as done. */
  lemma RecordIsBaitIff(t: CharTable, p: Provisioner, objects: seq<PlanObject>, servers: nat -> Server)
    requires Sane(t) && DistinctPlan(t, p, objects)
    ensures (forall dir :: RecordIsBait(t, p, dir, objects, servers)) <==> (forall k: nat :: !RefusesRefresh(objects, servers, k))
  {
    if k: nat :| RefusesRefresh(objects, servers, k) {
      UsableStaysUsable(t, p, map[ObjectDn(t, p, objects[k]) := Entry("user", "", 0, "", "", [])], objects, servers, k);
    } else {
      forall dir ensures RecordIsBait(t, p, dir, objects, servers) {
        var end := Provision(t, p, dir, objects, servers, false);
        forall r | r in Recorded(end.results) ensures r.dn in end.dir && Bait(p, end.dir[r.dn]) {
          RecordedAreWritten(t, p, dir, objects, servers, r);
          BaitIff(t, p, dir, objects, servers, r.dn);
        }
      }
    }
  }

  // ---------------------------------------------------------------- dry runs

  /** What a dry-run teardown reports of a recorded entry: everything it would delete, or why not. */
  predicate DryReport(t: CharTable, p: Provisioner, r: Provisioned, out: Provisioned) {
    && out == r.(action := out.action, success := out.success)
    && (if r.dn == "" then out.action == "skipped" && out.success
        else if IsSafeDn(t, p.names, r.dn) then out.action == "would_delete" && out.success
        else out.action == "blocked" && !out.success)
  }

  /** A dry-run teardown deletes nothing and never raises, whatever the server, the record and the prefix. */
  lemma {:induction false} DryTearChangesNothing(t: CharTable, p: Provisioner, dir: Directory, rs: seq<Provisioned>, replies: nat -> Reply)
    ensures var end := Tear(t, p, dir, rs, replies, true);
      && end.dir == dir && !end.raised && |end.results| == |rs|
      && forall i :: 0 <= i < |rs| ==> DryReport(t, p, rs[i], end.results[i])
  {
    if rs != [] {
      DryTearChangesNothing(t, p, dir, rs[..|rs| - 1], replies);
    }
  }

  /** A dry-run deploy likewise: it reports what it would create. */
  lemma {:induction false} DryProvisionChangesNothing(t: CharTable, p: Provisioner, dir: Directory, objects: seq<PlanObject>, servers: nat -> Server)
    ensures var end := Provision(t, p, dir, objects, servers, true);
      && end.dir == dir && !end.raised && |end.results| == |objects|
      && forall i :: 0 <= i < |objects| ==>
           && end.results[i].success && end.results[i].objectType == objects[i].objectType
           && (if Provisionable(objects[i]) then end.results[i].action == "would_create" && end.results[i].dn == ObjectDn(t, p, objects[i])
               else end.results[i].action == "skipped" && end.results[i].dn == "")
  {
    if objects != [] {
      DryProvisionChangesNothing(t, p, dir, objects[..|objects| - 1], servers);
    }
  }
}
