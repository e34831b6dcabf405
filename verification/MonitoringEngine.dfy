/** The monitoring engine as the object it is: fields updated in place by loops, each method
    held to the meaning of its call in `Monitoring`. */
module MonitoringEngine {
  import opened Text
  import opened Monitoring
  import opened MonitoringRuns
  import opened Feed

  datatype Stats = Stats(
    total: nat, bySeverity: map<string, nat>, honeyTriggers: nat, unacknowledged: nat, registered: nat,
    ingested: nat, lastEventAt: string)

  class Engine {
    const t: CharTable
    const persistent: bool
    const seeded: bool
    var events: seq<Event>
    var counter: int
    var honey: seq<Honey>
    /** The file, last written by `Save`. */
    var disk: Option<Snapshot>

    ghost function View(): State
      reads this
    {
      State(events, counter, honey, disk, persistent, seeded)
    }

    /** Builds on any file: what can be restored is, otherwise the baseline is seeded if asked for. */
    constructor (t: CharTable, file: Option<Snapshot>, persistent: bool, seeded: bool, times: nat -> string)
      ensures this.t == t && View() == Start(file, persistent, seeded, times)
    {
      this.t := t;
      this.persistent := persistent;
      this.seeded := seeded;
      this.disk := file;
      this.events := [];
      this.counter := 0;
      this.honey := [];
      new;
      var loaded := false;
      if persistent {
        loaded := Restore();
      }
      if !loaded && seeded {
        SeedBaseline(times);
      }
    }

    method LargestUid() returns (maxUid: int)
      ensures maxUid == MaxUid(events)
    {
      maxUid := 0;
      for i := 0 to |events|
        invariant maxUid == MaxUid(events[..i])
      {
        assert events[..i + 1][..i] == events[..i];
        if i == 0 || events[i].uid > maxUid {
          maxUid := events[i].uid;
        }
      }
      assert events[..|events|] == events;
    }

    method Restore() returns (loaded: bool)
      requires persistent && events == [] && counter == 0 && honey == []
      modifies this`events, this`counter, this`honey
      ensures loaded == Restored(disk).Some?
      ensures View() == if loaded then Restored(disk).value.(seeded := seeded) else old(View())
    {
      if disk.None? {
        return false;
      }
      var raw := disk.value.events;
      var restored: seq<Event> := [];
      for i := 0 to |raw|
        invariant restored == ReviveAll(raw[..i])
      {
        assert raw[..i + 1][..i] == raw[..i];
        var event := Revived(raw[i]);
        if event.uid > 0 {
          restored := restored + [event];
        }
      }
      assert raw[..|raw|] == raw;
      if restored == [] && disk.value.honey == [] {
        return false;
      }
      events := LastN(restored, MAX_EVENTS);
      honey := disk.value.honey;
      var maxUid := LargestUid();
      counter := Max(disk.value.counter, maxUid);
      return true;
    }

    method SeedBaseline(times: nat -> string)
      modifies this`events, this`counter, this`disk
      ensures View() == Seed(old(View()), times)
    {
      var made := AppendMade(|BASELINE|, BaselineOf(times));
      Save();
    }

    /** The loop of the baseline and of a simulation: the next uid, an event for it, append. */
    method AppendMade(n: nat, make: (nat, int) -> Event) returns (made: seq<Event>)
      modifies this`events, this`counter
      ensures View() == PushMany(old(View()), n, make)
      ensures |made| == n && forall k :: 0 <= k < n ==> made[k] == make(k, old(counter) + 1 + k)
    {
      made := [];
      for i := 0 to n
        invariant View() == PushMany(old(View()), i, make)
        invariant |made| == i && counter == old(counter) + i
        invariant forall k :: 0 <= k < i ==> made[k] == make(k, old(counter) + 1 + k)
      {
        var e := AppendNext(i, make);
        made := made + [e];
      }
    }

    method AppendNext(i: nat, make: (nat, int) -> Event) returns (e: Event)
      modifies this`events, this`counter
      ensures e == make(i, old(counter) + 1) && View() == Push(old(View()), e)
    {
      var uid := NextUid();
      e := make(i, uid);
      AppendEvent(e);
    }

    method NextUid() returns (uid: int)
      modifies this`counter
      ensures uid == counter == old(counter) + 1
    {
      counter := counter + 1;
      uid := counter;
    }

    /** Adds one event and drops the oldest beyond the cap. */
    method AppendEvent(e: Event)
      modifies this`events
      ensures events == Append(old(events), e)
    {
      events := events + [e];
      if |events| > MAX_EVENTS {
        events := events[|events| - MAX_EVENTS..];
      }
    }

    /** `_persist` and the store behind it, with nothing else running. */
    method Save()
      modifies this`disk
      ensures View() == Persist(old(View()))
    {
      if persistent {
        disk := Some(Snapshot(counter, honey, LastN(events, MAX_EVENTS)));
      }
    }

    method CorrelateTarget(actor: string, target: string, eventId: int) returns (v: Verdict)
      ensures v == Correlate(t, honey, actor, target, eventId)
    {
      for i := 0 to |honey|
        invariant forall j :: 0 <= j < i ==> !Matches(t, honey[j], actor, target)
      {
        if Matches(t, honey[i], actor, target) {
          CorrelateSkip(t, honey, i, actor, target, eventId);
          return VerdictFor(honey[i], eventId);
        }
      }
      CorrelateSkip(t, honey, |honey|, actor, target, eventId);
      v := NO_MATCH;
    }

    /** The part of `record_event` before the lock is taken to append. */
    method Settle(a: RecordArgs) returns (d: Decision)
      ensures d == Decide(t, honey, a)
    {
      var severity := if a.severity in SEVERITIES then a.severity else "info";
      var description := a.description;
      var honeyObject, objectType := "", "";
      if a.autoCorrelate {
        var v := CorrelateTarget(a.actor, a.target, a.eventId);
        honeyObject, objectType := v.name, v.objectType;
        if honeyObject != "" {
          severity := if v.severity != "" then v.severity else severity;
          if v.suffix != "" && !Contains(description, v.suffix) {
            description := (if description != "" then description else EventLabel(a.eventId)) + v.suffix;
          }
        }
      }
      d := Decision(severity, honeyObject, objectType, description);
    }

    method RecordEvent(a: RecordArgs, now: string) returns (e: Event)
      modifies this`events, this`counter, this`disk
      ensures View() == Record(t, old(View()), a, now)
      ensures e == BuildEvent(a, Decide(t, honey, a), old(counter) + 1, now)
    {
      var d := Settle(a);
      var uid := NextUid();
      e := BuildEvent(a, d, uid, now);
      AppendEvent(e);
      Save();
    }

    method IngestOne(item: Item, agentId: string, now: string) returns (created: Option<Event>)
      modifies this`events, this`counter, this`disk
      ensures View() == IngestItem(t, old(View()), item, agentId, now)
      ensures created.Some? <==> Acceptable(t, item)
    {
      if Acceptable(t, item) {
        var e := RecordEvent(ArgsOf(t, item, agentId), now);
        created := Some(e);
      } else {
        created := None;
      }
    }

    /** `errors` are the positions of the refused items. */
    method IngestEvents(items: seq<Item>, agentId: string, now: Clock)
      returns (created: seq<Event>, errors: seq<nat>)
      modifies this`events, this`counter, this`disk
      ensures View() == Ingest(t, old(View()), items, agentId, now)
      ensures |created| == Accepted(t, items) && errors == Refused(t, items)
    {
      created, errors := [], [];
      for i := 0 to |items|
        invariant View() == Ingest(t, old(View()), items[..i], agentId, now)
        invariant |created| == Accepted(t, items[..i]) && errors == Refused(t, items[..i])
      {
        assert items[..i + 1][..i] == items[..i];
        var e := IngestOne(items[i], agentId, now(i));
        if e.Some? {
          created := created + [e.value];
        } else {
          errors := errors + [i];
        }
      }
      assert items[..|items|] == items;
    }

    /** `None` is the ValueError for an empty registry. */
    method SimulateHoneyInteraction(count: int, picks: nat -> Pick, host: string, now: Clock)
      returns (created: Option<seq<Event>>)
      modifies this`events, this`counter, this`disk
      ensures View() == Simulate(old(View()), count, picks, host, now)
      ensures created.None? <==> honey == []
      ensures created.Some? ==>
                && |created.value| == SimulationCount(count)
                && forall i :: 0 <= i < |created.value| ==>
                     created.value[i] == SimulationOf(honey, picks, host, now)(i, old(counter) + 1 + i)
    {
      if honey == [] {
        return None;
      }
      var made := AppendMade(SimulationCount(count), SimulationOf(honey, picks, host, now));
      Save();
      created := Some(made);
    }

    method RegisterDeployment(objects: seq<Honey>) returns (n: nat)
      modifies this`honey, this`disk
      ensures View() == Register(old(View()), objects)
      ensures n == |honey|
    {
      honey := Named(objects);
      Save();
      n := |honey|;
    }

    method AcknowledgeEvent(uid: int) returns (updated: bool)
      modifies this`events, this`disk
      ensures View() == Acknowledge(old(View()), uid)
      ensures updated <==> HasUid(old(events), uid)
    {
      updated := false;
      for i := 0 to |events|
        invariant View() == old(View()) && !updated
        invariant forall j :: 0 <= j < i ==> events[j].uid != uid
      {
        if events[i].uid == uid {
          MarkUidFirst(events, i, uid);
          assert events[i] in events;
          events := events[i := events[i].(acknowledged := true)];
          updated := true;
          break;
        }
      }
      if updated {
        Save();
      }
    }

    /** Returns the number that was pending and leaves none. */
    method AcknowledgeEvery() returns (updated: nat)
      modifies this`events, this`disk
      ensures View() == AcknowledgeAll(old(View()))
      ensures updated == PendingCount(old(events))
    {
      updated := 0;
      ghost var was := events;
      for i := 0 to |events|
        invariant |events| == |was| && disk == old(disk)
        invariant forall k :: 0 <= k < |was| ==> events[k] == if k < i then MarkPending(was[k]) else was[k]
        invariant updated == PendingCount(was[..i])
      {
        assert was[..i + 1][..i] == was[..i];
        if Pending(events[i]) {
          events := events[i := events[i].(acknowledged := true)];
          updated := updated + 1;
        }
      }
      assert was[..|was|] == was && events == MarkAll(was);
      if updated > 0 {
        Save();
      } else {
        NothingPending(was);
        assert events == was;
      }
    }

    /** Every number the triage page shows, as a count over the retained events. */
    method GetStats() returns (stats: Stats)
      ensures stats.total == |events| && stats.registered == |honey|
      ensures stats.honeyTriggers == HoneyCount(events)
      ensures stats.unacknowledged == PendingCount(events)
      ensures stats.ingested == IngestedCount(events)
      ensures Tallied(events, stats.bySeverity) && forall s :: s in SEVERITIES ==> s in stats.bySeverity
      ensures NoneLater(events, stats.lastEventAt)
    {
      var tally: map<string, nat> := map["critical" := 0, "high" := 0, "medium" := 0, "info" := 0];
      var triggers, pending, ingested, last := 0, 0, 0, "";
      for i := 0 to |events|
        invariant triggers == HoneyCount(events[..i]) && pending == PendingCount(events[..i])
        invariant ingested == IngestedCount(events[..i])
        invariant Tallied(events[..i], tally) && forall s :: s in SEVERITIES ==> s in tally
        invariant NoneLater(events[..i], last)
      {
        var event := events[i];
        ghost var seen := events[..i];
        assert events[..i + 1] == seen + [event] && (seen + [event])[..i] == seen;
        TallyNext(seen, event, tally);
        LatestNext(seen, event, last);
        tally := Counted(tally, event.severity);
        if event.ingested { ingested := ingested + 1; }
        if event.honeyObject != "" {
          triggers := triggers + 1;
          if !event.acknowledged { pending := pending + 1; }
        }
        if LexLt(last, event.timestamp) {
          last := event.timestamp;
        }
      }
      assert events[..|events|] == events;
      stats := Stats(|events|, tally, triggers, pending, |honey|, ingested, last);
    }

    /** One pass over the log for each filter that is asked for, then the sort, then the cut. */
    method QueryEvents(q: Query) returns (r: seq<Event>)
      ensures r == ListEvents(events, q)
    {
      var chosen := PassFilters(q);
      r := SortNewestFirst(chosen);
      var limit := q.limit;
      if limit > MAX_EVENTS {
        limit := MAX_EVENTS;
      }
      if limit < 1 {
        limit := 1;
      }
      if limit < |r| {
        r := r[..limit];
      }
    }

    method PassFilters(q: Query) returns (r: seq<Event>)
      ensures r == Filter(events, q)
    {
      r := events;
      ghost var done := Query("", 0, false, false, q.limit, None);
      NoFilter(events, q.limit);
      if q.severity != "" {
        r := Pass(events, r, (e: Event) => e.severity == q.severity, done, done.(severity := q.severity));
        done := done.(severity := q.severity);
      }
      if q.eventId != 0 {
        r := Pass(events, r, (e: Event) => e.eventId == q.eventId, done, done.(eventId := q.eventId));
        done := done.(eventId := q.eventId);
      }
      if q.honeyOnly {
        r := Pass(events, r, (e: Event) => e.honeyObject != "", done, done.(honeyOnly := true));
        done := done.(honeyOnly := true);
      }
      if q.excludeBaseline {
        r := Pass(events, r, (e: Event) => e.honeyObject != "" || e.ingested || e.agentId != "", done,
                  done.(excludeBaseline := true));
        done := done.(excludeBaseline := true);
      }
      if q.sinceUid.Some? {
        var since := q.sinceUid.value;
        r := Pass(events, r, (e: Event) => e.uid > since, done, done.(sinceUid := q.sinceUid));
        done := done.(sinceUid := q.sinceUid);
      }
      assert done == q;
    }
  }

  /** One list comprehension: what `next` selects, given what `done` selects. */
  method Pass(ghost all: seq<Event>, chosen: seq<Event>, p: Event -> bool, ghost done: Query, ghost next: Query)
    returns (kept: seq<Event>)
    requires chosen == Filter(all, done) && forall e :: Selected(e, next) <==> Selected(e, done) && p(e)
    ensures kept == Filter(all, next)
  {
    kept := [];
    for i := 0 to |chosen|
      invariant kept == KeepIf(chosen[..i], p)
    {
      assert chosen[..i + 1][..i] == chosen[..i];
      if p(chosen[i]) {
        kept := kept + [chosen[i]];
      }
    }
    assert chosen[..|chosen|] == chosen;
    FurtherPass(all, done, p, next);
  }

  lemma InsertPasses(e: Event, sorted: seq<Event>, k: nat)
    requires k < |sorted| && !LexLe(sorted[k].timestamp, e.timestamp)
    ensures sorted[..k] + Insert(e, sorted[k..]) == sorted[..k + 1] + Insert(e, sorted[k + 1..])
  {
    assert sorted[k..][1..] == sorted[k + 1..];
    assert sorted[..k + 1] == sorted[..k] + [sorted[k]];
  }

  method PutInPlace(e: Event, sorted: seq<Event>) returns (grown: seq<Event>)
    ensures grown == Insert(e, sorted)
  {
    var k := 0;
    while k < |sorted| && !LexLe(sorted[k].timestamp, e.timestamp)
      invariant k <= |sorted|
      invariant Insert(e, sorted) == sorted[..k] + Insert(e, sorted[k..])
    {
      InsertPasses(e, sorted, k);
      k := k + 1;
    }
    grown := sorted[..k] + ([e] + sorted[k..]);
  }

  /** A stable sort by falling timestamp: each event goes in front of the ones recorded after it that
      are not newer. */
  method SortNewestFirst(chosen: seq<Event>) returns (sorted: seq<Event>)
    ensures sorted == SortDescending(chosen)
  {
    sorted := [];
    var i := |chosen|;
    assert chosen[i..] == [];
    while i > 0
      invariant 0 <= i <= |chosen| && sorted == SortDescending(chosen[i..])
    {
      i := i - 1;
      assert chosen[i..][1..] == chosen[i + 1..];
      sorted := PutInPlace(chosen[i], sorted);
    }
  }

  lemma {:induction false} MarkUidFirst(events: seq<Event>, i: nat, uid: int)
    requires i < |events| && events[i].uid == uid
    requires forall j :: 0 <= j < i ==> events[j].uid != uid
    ensures MarkUid(events, uid) == events[i := events[i].(acknowledged := true)]
  {
    if i > 0 {
      MarkUidFirst(events[1..], i - 1, uid);
    }
  }

  function IngestedCount(events: seq<Event>): nat {
    CountIf(events, (e: Event) => e.ingested)
  }

  /** Every severity that occurs has its count. */
  ghost predicate Tallied(events: seq<Event>, tally: map<string, nat>) {
    && (forall i :: 0 <= i < |events| ==> events[i].severity in tally)
    && forall s :: s in tally ==> tally[s] == SeverityCount(events, s)
  }

  /** `last` is the greatest timestamp, or blank if there is none. */
  ghost predicate NoneLater(events: seq<Event>, last: string) {
    && (forall i :: 0 <= i < |events| ==> LexLe(events[i].timestamp, last))
    && (last == "" || exists i :: 0 <= i < |events| && events[i].timestamp == last)
  }

  function Counted(tally: map<string, nat>, severity: string): map<string, nat> {
    tally[severity := (if severity in tally then tally[severity] else 0) + 1]
  }

  lemma {:induction false} UnseenSeverity(events: seq<Event>, severity: string)
    requires forall k :: 0 <= k < |events| ==> events[k].severity != severity
    ensures SeverityCount(events, severity) == 0
  {
    if events != [] {
      UnseenSeverity(events[..|events| - 1], severity);
    }
  }

  lemma TallyNext(seen: seq<Event>, event: Event, tally: map<string, nat>)
    requires Tallied(seen, tally)
    ensures Tallied(seen + [event], Counted(tally, event.severity))
  {
    assert (seen + [event])[..|seen|] == seen;
    if event.severity !in tally {
      UnseenSeverity(seen, event.severity);
    }
  }

  lemma LatestNext(seen: seq<Event>, event: Event, last: string)
    requires NoneLater(seen, last)
    ensures NoneLater(seen + [event], if LexLt(last, event.timestamp) then event.timestamp else last)
  {
    var all := seen + [event];
    LexTotal(event.timestamp, last);
    if LexLt(last, event.timestamp) {
      forall i | 0 <= i < |seen| ensures LexLe(seen[i].timestamp, event.timestamp) {
        LexTransitive(seen[i].timestamp, last, event.timestamp);
      }
      LexTotal(event.timestamp, event.timestamp);
      assert all[|seen|].timestamp == event.timestamp;
    } else if last != "" {
      var i :| 0 <= i < |seen| && seen[i].timestamp == last;
      assert all[i].timestamp == last;
    }
  }
}
