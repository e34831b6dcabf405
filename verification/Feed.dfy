/** `list_events`: filters, the newest-first order, the limit, and a client that polls with
    the highest uid it has seen. */
module Feed {
  import opened Text
  import opened Monitoring
  import opened MonitoringRuns
  import opened Runs

  /** A blank severity selects every severity, a zero event id every id, and `None` every uid. */
  datatype Query = Query(
    severity: string, eventId: int, honeyOnly: bool, excludeBaseline: bool, limit: int, sinceUid: Option<int>)

  predicate Selected(e: Event, q: Query) {
    && (q.severity != "" ==> e.severity == q.severity)
    && (q.eventId != 0 ==> e.eventId == q.eventId)
    && (q.honeyOnly ==> e.honeyObject != "")
    && (q.excludeBaseline ==> e.honeyObject != "" || e.ingested || e.agentId != "")
    && (q.sinceUid.Some? ==> e.uid > q.sinceUid.value)
  }

  function Filter(events: seq<Event>, q: Query): seq<Event> {
    if events == [] then []
    else (if Selected(events[0], q) then [events[0]] else []) + Filter(events[1..], q)
  }

  function Insert(e: Event, sorted: seq<Event>): seq<Event> {
    if sorted == [] || LexLe(sorted[0].timestamp, e.timestamp) then [e] + sorted
    else [sorted[0]] + Insert(e, sorted[1..])
  }

  /** The stable descending sort by timestamp. */
  function SortDescending(events: seq<Event>): seq<Event> {
    if events == [] then [] else Insert(events[0], SortDescending(events[1..]))
  }

  function Clamp(limit: int): nat {
    if limit < 1 then 1 else if limit > MAX_EVENTS then MAX_EVENTS else limit
  }

  function ListEvents(events: seq<Event>, q: Query): seq<Event> {
    var sorted := SortDescending(Filter(events, q));
    if |sorted| <= Clamp(q.limit) then sorted else sorted[..Clamp(q.limit)]
  }

  /** `a` stands before `b`: later timestamp, or the same one and recorded earlier. */
  predicate Before(a: Event, b: Event) {
    LexLt(b.timestamp, a.timestamp) || (a.timestamp == b.timestamp && a.uid < b.uid)
  }

  /** Newest first, neighbour by neighbour. */
  predicate Ordered(events: seq<Event>) {
    |events| < 2 || (Before(events[0], events[1]) && Ordered(events[1..]))
  }

  predicate UidsIncrease(events: seq<Event>) {
    forall i, j :: 0 <= i < j < |events| ==> events[i].uid < events[j].uid
  }

  predicate UidsAbove(events: seq<Event>, uid: int) {
    forall i :: 0 <= i < |events| ==> uid < events[i].uid
  }

  lemma BeforeTransitive(a: Event, b: Event, c: Event)
    requires Before(a, b) && Before(b, c)
    ensures Before(a, c)
  {
    if LexLt(b.timestamp, a.timestamp) && LexLt(c.timestamp, b.timestamp) {
      LexTransitive(c.timestamp, b.timestamp, a.timestamp);
      LexTotal(b.timestamp, a.timestamp);
    }
  }

  lemma {:induction false} OrderedPairs(events: seq<Event>, i: nat, j: nat)
    requires Ordered(events) && i < j < |events|
    ensures Before(events[i], events[j])
  {
    if i > 0 {
      OrderedPairs(events[1..], i - 1, j - 1);
    } else if j > 1 {
      OrderedPairs(events[1..], 0, j - 1);
      BeforeTransitive(events[0], events[1], events[j]);
    }
  }

  lemma {:induction false} FilterMembers(events: seq<Event>, q: Query, e: Event)
    ensures e in Filter(events, q) <==> e in events && Selected(e, q)
  {
    if events != [] {
      FilterMembers(events[1..], q, e);
      assert e in events <==> e == events[0] || e in events[1..];
    }
  }

  /** The events a test keeps, as one list comprehension gives them. */
  function KeepIf(events: seq<Event>, p: Event -> bool): seq<Event> {
    if events == [] then []
    else
      var n := |events| - 1;
      KeepIf(events[..n], p) + (if p(events[n]) then [events[n]] else [])
  }

  lemma {:induction false} KeepIfFirst(e: Event, events: seq<Event>, p: Event -> bool)
    ensures KeepIf([e] + events, p) == (if p(e) then [e] else []) + KeepIf(events, p)
  {
    var all := [e] + events;
    if events == [] {
      assert all[..0] == [];
    } else {
      var n := |events| - 1;
      assert all[..n + 1] == [e] + events[..n];
      KeepIfFirst(e, events[..n], p);
    }
  }

  /** A further pass over what one query selects gives what the query with the further test selects. */
  lemma {:induction false} FurtherPass(events: seq<Event>, done: Query, p: Event -> bool, next: Query)
    requires forall e :: Selected(e, next) <==> Selected(e, done) && p(e)
    ensures KeepIf(Filter(events, done), p) == Filter(events, next)
  {
    if events != [] {
      FurtherPass(events[1..], done, p, next);
      if Selected(events[0], done) {
        KeepIfFirst(events[0], Filter(events[1..], done), p);
      } else {
        assert [] + Filter(events[1..], done) == Filter(events[1..], done);
        assert [] + Filter(events[1..], next) == Filter(events[1..], next);
      }
    }
  }

  lemma {:induction false} NoFilter(events: seq<Event>, limit: int)
    ensures Filter(events, Query("", 0, false, false, limit, None)) == events
  {
    if events != [] {
      NoFilter(events[1..], limit);
    }
  }

  lemma {:induction false} FilterIncreases(events: seq<Event>, q: Query, uid: int)
    requires UidsIncrease(events)
    ensures UidsIncrease(Filter(events, q))
    ensures UidsAbove(events, uid) ==> UidsAbove(Filter(events, q), uid)
  {
    if events != [] {
      FilterIncreases(events[1..], q, uid);
      FilterIncreases(events[1..], q, events[0].uid);
    }
  }

  lemma {:induction false} InsertOrdered(e: Event, sorted: seq<Event>)
    requires Ordered(sorted) && UidsAbove(sorted, e.uid)
    ensures Ordered(Insert(e, sorted))
  {
    if sorted != [] {
      LexTotal(sorted[0].timestamp, e.timestamp);
      if LexLe(sorted[0].timestamp, e.timestamp) {
        assert ([e] + sorted)[1..] == sorted;
      } else {
        InsertOrdered(e, sorted[1..]);
        assert ([sorted[0]] + Insert(e, sorted[1..]))[1..] == Insert(e, sorted[1..]);
      }
    }
  }

  lemma {:induction false} InsertMembers(e: Event, sorted: seq<Event>)
    ensures multiset(Insert(e, sorted)) == multiset(sorted) + multiset{e}
    ensures |Insert(e, sorted)| == |sorted| + 1
  {
    if sorted != [] && !LexLe(sorted[0].timestamp, e.timestamp) {
      InsertMembers(e, sorted[1..]);
      assert sorted == [sorted[0]] + sorted[1..];
    }
  }

  lemma {:induction false} InsertAbove(e: Event, sorted: seq<Event>, uid: int)
    requires uid < e.uid && UidsAbove(sorted, uid)
    ensures UidsAbove(Insert(e, sorted), uid)
  {
    if sorted != [] && !LexLe(sorted[0].timestamp, e.timestamp) {
      InsertAbove(e, sorted[1..], uid);
    }
  }

  lemma {:induction false} SortMembers(events: seq<Event>)
    ensures multiset(SortDescending(events)) == multiset(events)
    ensures |SortDescending(events)| == |events|
  {
    if events != [] {
      SortMembers(events[1..]);
      InsertMembers(events[0], SortDescending(events[1..]));
      assert events == [events[0]] + events[1..];
    }
  }

  lemma {:induction false} SortAbove(events: seq<Event>, uid: int)
    requires UidsAbove(events, uid)
    ensures UidsAbove(SortDescending(events), uid)
  {
    if events != [] {
      SortAbove(events[1..], uid);
      InsertAbove(events[0], SortDescending(events[1..]), uid);
    }
  }

  lemma {:induction false} SortOrdered(events: seq<Event>)
    requires UidsIncrease(events)
    ensures Ordered(SortDescending(events))
  {
    if events != [] {
      SortOrdered(events[1..]);
      SortAbove(events[1..], events[0].uid);
      InsertOrdered(events[0], SortDescending(events[1..]));
    }
  }

  lemma {:induction false} OrderedPrefix(events: seq<Event>, n: nat)
    requires Ordered(events) && n <= |events|
    ensures Ordered(events[..n])
  {
    if n > 1 {
      OrderedPrefix(events[1..], n - 1);
      assert events[..n][1..] == events[1..][..n - 1];
    }
  }

  lemma SortKeeps(events: seq<Event>, x: Event)
    ensures x in SortDescending(events) <==> x in events
  {
    SortMembers(events);
    assert x in events <==> x in multiset(events);
    assert x in SortDescending(events) <==> x in multiset(SortDescending(events));
  }

  lemma BehindPrefix(sorted: seq<Event>, n: nat, x: Event)
    requires Ordered(sorted) && n <= |sorted| && x in sorted && x !in sorted[..n]
    ensures forall i :: 0 <= i < n ==> Before(sorted[i], x)
  {
    var k :| 0 <= k < |sorted| && sorted[k] == x;
    forall i | 0 <= i < n ensures Before(sorted[i], x) {
      OrderedPairs(sorted, i, k);
    }
  }

  lemma LeftOutStandBehind(events: seq<Event>, q: Query, x: Event)
    requires UidsIncrease(events) && x in Filter(events, q) && x !in ListEvents(events, q)
    ensures var r := ListEvents(events, q);
      |r| == Clamp(q.limit) && forall i :: 0 <= i < |r| ==> Before(r[i], x)
  {
    var sorted := SortDescending(Filter(events, q));
    FilterIncreases(events, q, 0);
    SortKeeps(Filter(events, q), x);
    SortOrdered(Filter(events, q));
    BehindPrefix(sorted, Clamp(q.limit), x);
  }

  /** What `list_events` returns, whatever the filters: newest first with ties in recording
      order, as many as are selected up to the clamped limit, selected events only, and every
      selected event left out stands behind every event returned. */
  lemma ListEventsIsTop(events: seq<Event>, q: Query, x: Event)
    requires UidsIncrease(events)
    ensures var r := ListEvents(events, q);
      && Ordered(r)
      && |r| == (if |Filter(events, q)| <= Clamp(q.limit) then |Filter(events, q)| else Clamp(q.limit))
      && (x in r ==> x in events && Selected(x, q))
      && (x in events && Selected(x, q) && x !in r ==> |r| == Clamp(q.limit) && forall i :: 0 <= i < |r| ==> Before(r[i], x))
  {
    var chosen, r := Filter(events, q), ListEvents(events, q);
    FilterIncreases(events, q, 0);
    SortMembers(chosen);
    SortOrdered(chosen);
    OrderedPrefix(SortDescending(chosen), |r|);
    FilterMembers(events, q, x);
    SortKeeps(chosen, x);
    if x in chosen && x !in r {
      LeftOutStandBehind(events, q, x);
    }
  }

  /** The event is one the query asks for: nothing it is filtered by speaks against it. */
  predicate Wanted(e: Event, q: Query) {
    && e.severity == (if q.severity == "" then e.severity else q.severity)
    && e.eventId == (if q.eventId == 0 then e.eventId else q.eventId)
    && (e.honeyObject == "" ==> !q.honeyOnly && !(q.excludeBaseline && !e.ingested && e.agentId == ""))
    && (q.sinceUid == None || q.sinceUid.value < e.uid)
  }

  /** Only events of the log that are asked for are returned, and never more than asked for, nor fewer
      when there are enough: a limit below one counts as one, one above 500 as 500. */
  lemma ListEventsAnswers(events: seq<Event>, q: Query)
    requires UidsIncrease(events)
    ensures var r := ListEvents(events, q);
      var most := if q.limit < 1 then 1 else if q.limit > 500 then 500 else q.limit;
      && |r| <= most
      && (forall e :: e in r ==> e in events && Wanted(e, q))
      && (forall e :: e in events && Wanted(e, q) && e !in r ==> |r| == most)
  {
    forall e ensures Selected(e, q) <==> Wanted(e, q) {
    }
    forall e ensures e in ListEvents(events, q) ==> e in events && Selected(e, q)
      ensures e in events && Selected(e, q) && e !in ListEvents(events, q) ==> |ListEvents(events, q)| == Clamp(q.limit)
    {
      ListEventsIsTop(events, q, e);
    }
  }

  // ---------------------------------------------------------------- polling with a cursor

  function Since(cursor: int, limit: int): Query {
    Query("", 0, false, false, limit, Some(cursor))
  }

  lemma {:induction false} FilterSince(events: seq<Event>, first: int, cursor: int, limit: int)
    requires forall i :: 0 <= i < |events| ==> events[i].uid == first + i
    ensures Filter(events, Since(cursor, limit))
         == if cursor < first then events else if cursor >= first + |events| then [] else events[cursor + 1 - first..]
  {
    if events != [] {
      FilterSince(events[1..], first + 1, cursor, limit);
      assert events == [events[0]] + events[1..];
      if first < cursor < first + |events| {
        assert events[1..][cursor - first..] == events[cursor + 1 - first..];
      }
    }
  }

  function Uids(events: seq<Event>): (r: seq<int>)
    ensures |r| == |events| && forall i :: 0 <= i < |r| ==> r[i] == events[i].uid
  {
    seq(|events|, i requires 0 <= i < |events| => events[i].uid)
  }

  /** The uids after `low` up to `high`. */
  function Range(low: int, high: int): (r: seq<int>)
    requires low <= high
    ensures |r| == high - low && forall i :: 0 <= i < |r| ==> r[i] == low + 1 + i
  {
    seq(high - low, i => low + 1 + i)
  }

  lemma UidsOfFirst(e: Event, events: seq<Event>)
    ensures multiset(Uids([e] + events)) == multiset{e.uid} + multiset(Uids(events))
  {
    assert Uids([e] + events) == [e.uid] + Uids(events);
  }

  lemma {:induction false} InsertUids(e: Event, sorted: seq<Event>)
    ensures multiset(Uids(Insert(e, sorted))) == multiset(Uids(sorted)) + multiset{e.uid}
  {
    if sorted == [] || LexLe(sorted[0].timestamp, e.timestamp) {
      UidsOfFirst(e, sorted);
    } else {
      var rest := sorted[1..];
      InsertUids(e, rest);
      UidsOfFirst(sorted[0], Insert(e, rest));
      UidsOfFirst(sorted[0], rest);
      assert [sorted[0]] + rest == sorted;
    }
  }

  lemma {:induction false} SortUids(events: seq<Event>)
    ensures multiset(Uids(SortDescending(events))) == multiset(Uids(events))
  {
    if events != [] {
      var rest := events[1..];
      SortUids(rest);
      InsertUids(events[0], SortDescending(rest));
      UidsOfFirst(events[0], rest);
      assert [events[0]] + rest == events;
    }
  }

  /** The retained events after the cursor, when it lies inside the retained part. */
  lemma NewerEvents(s: State, f: Full, cursor: int, limit: int)
    requires Linked(s, f) && 0 <= cursor <= s.counter
    ensures var chosen := Filter(s.events, Since(cursor, limit));
      chosen == f.log[if cursor < Oldest(|f.log|) then Oldest(|f.log|) else cursor..]
  {
    var k := Oldest(|f.log|);
    assert s.events == f.log[k..];
    FilterSince(s.events, k + 1, cursor, limit);
  }

  lemma UidsOfTail(log: seq<Event>, cursor: nat)
    requires WellNumbered(log) && cursor <= |log|
    ensures Uids(log[cursor..]) == Range(cursor, |log|)
  {
  }

  /** If at most `limit` events came after the cursor (so none of them is evicted), the poll
      returns each of them once; if more did, it returns `limit` events. */
  lemma PollReturns(s: State, f: Full, cursor: int, limit: int)
    requires Linked(s, f) && 0 <= cursor <= s.counter
    ensures var r := ListEvents(s.events, Since(cursor, limit));
      && (s.counter - cursor <= Clamp(limit) ==> multiset(Uids(r)) == multiset(Range(cursor, s.counter)))
      && (s.counter - cursor > Clamp(limit) ==> |r| == Clamp(limit))
  {
    NewerEvents(s, f, cursor, limit);
    var chosen := Filter(s.events, Since(cursor, limit));
    SortUids(chosen);
    SortMembers(chosen);
    if s.counter - cursor <= Clamp(limit) {
      UidsOfTail(f.log, cursor);
    }
  }

  /** A client: the engine, the highest uid seen, and the uids delivered so far. */
  datatype Client = Client(s: State, cursor: int, delivered: seq<int>)

  datatype Action = Engine(op: Op) | Poll(limit: int)

  function Act(t: CharTable, c: Client, a: Action): Client {
    match a
    case Engine(op) => c.(s := Step(t, c.s, op))
    case Poll(limit) =>
      var r := ListEvents(c.s.events, Since(c.cursor, limit));
      Client(c.s, Max(c.cursor, MaxUid(r)), c.delivered + Uids(r))
  }

  function Actor(t: CharTable): (Client, Action) -> Client {
    (c: Client, a: Action) => Act(t, c, a)
  }

  /** A poll is timely when at most `limit` (clamped to 500) events came since the cursor. */
  predicate Timely(c: Client, a: Action) {
    a.Poll? ==> c.s.counter - c.cursor <= Clamp(a.limit)
  }

  ghost predicate Delivering(c: Client, start: int) {
    start <= c.cursor <= c.s.counter && multiset(c.delivered) == multiset(Range(start, c.cursor))
  }

  lemma MaxOfRange(events: seq<Event>, low: int, high: int)
    requires low < high && multiset(Uids(events)) == multiset(Range(low, high))
    ensures MaxUid(events) == high
  {
    var uids, range := Uids(events), Range(low, high);
    assert range[|range| - 1] in multiset(uids);
    var i :| 0 <= i < |uids| && uids[i] == high;
    assert events[i] in events;
    MaxUidBounds(events);
    var e :| e in events && e.uid == MaxUid(events);
    var j :| 0 <= j < |events| && events[j] == e;
    assert uids[j] in multiset(range);
  }

  lemma TimelyPoll(t: CharTable, c: Client, f: Full, start: int, limit: int)
    requires Linked(c.s, f) && 0 <= start && Delivering(c, start) && Timely(c, Poll(limit))
    ensures Delivering(Act(t, c, Poll(limit)), start)
    ensures Act(t, c, Poll(limit)).cursor == c.s.counter
  {
    var r := ListEvents(c.s.events, Since(c.cursor, limit));
    PollReturns(c.s, f, c.cursor, limit);
    if c.cursor < c.s.counter {
      MaxOfRange(r, c.cursor, c.s.counter);
    } else {
      assert |multiset(Uids(r))| == 0;
      assert r == [];
    }
    assert Range(start, c.cursor) + Range(c.cursor, c.s.counter) == Range(start, c.s.counter);
  }

  lemma CounterGrows(t: CharTable, s: State, f: Full, op: Op)
    requires Good(s, f) && (op.RestartOp? ==> s.persistent)
    ensures Step(t, s, op).counter >= s.counter
  {
    StepGood(t, s, f, op);
    FullGrows(t, f, op);
  }

  lemma FullGrows(t: CharTable, f: Full, op: Op)
    ensures |FullStep(t, f, op).log| >= |f.log|
  {
    if op.IngestOp? {
      FullIngestGrows(t, f, op.items, op.agentId, op.clock);
    }
  }

  lemma {:induction false} FullIngestGrows(t: CharTable, f: Full, items: seq<Item>, agentId: string, now: Clock)
    ensures |FullIngest(t, f, items, agentId, now).log| >= |f.log|
  {
    if items != [] {
      FullIngestGrows(t, f, items[..|items| - 1], agentId, now);
    }
  }

  predicate IsRestart(a: Action) { a.Engine? && a.op.RestartOp? }

  function FullAfter(t: CharTable, f: Full, a: Action): Full {
    if a.Engine? then FullStep(t, f, a.op) else f
  }

  lemma ActionDelivers(t: CharTable, c: Client, f: Full, start: int, a: Action)
    requires Good(c.s, f) && 0 <= start && Delivering(c, start) && Timely(c, a)
    requires IsRestart(a) ==> c.s.persistent
    ensures Delivering(Act(t, c, a), start)
    ensures Good(Act(t, c, a).s, FullAfter(t, f, a)) && Act(t, c, a).s.persistent == c.s.persistent
  {
    if a.Engine? {
      StepGood(t, c.s, f, a.op);
      CounterGrows(t, c.s, f, a.op);
    } else {
      TimelyPoll(t, c, f, start, a.limit);
    }
  }

  lemma {:induction false} PollingRun(t: CharTable, c0: Client, f0: Full, actions: seq<Action>) returns (f: Full)
    requires Good(c0.s, f0) && c0.cursor == c0.s.counter && c0.delivered == []
    requires !c0.s.persistent ==> forall k :: 0 <= k < |actions| ==> !IsRestart(actions[k])
    requires forall k :: 0 <= k < |actions| ==> Timely(Fold(Actor(t), c0, actions[..k]), actions[k])
    ensures var c := Fold(Actor(t), c0, actions);
      Delivering(c, c0.s.counter) && Good(c.s, f) && c.s.persistent == c0.s.persistent
  {
    if actions == [] {
      f := f0;
    } else {
      var rest, last := actions[..|actions| - 1], actions[|actions| - 1];
      assert forall k :: 0 <= k < |rest| ==> rest[..k] == actions[..k] && rest[k] == actions[k];
      f := PollingRun(t, c0, f0, rest);
      ActionDelivers(t, Fold(Actor(t), c0, rest), f, c0.s.counter, last);
      f := FullAfter(t, f, last);
    }
  }

  /** A client that starts at the current counter, polls at will while the engine takes any
      calls, and always polls in time, is delivered every uid up to its cursor exactly once. */
  lemma ClientSeesEachEventOnce(t: CharTable, persistent: bool, seeded: bool, times: nat -> string, before: seq<Op>, actions: seq<Action>)
    requires !persistent ==> !Restarts(before) && forall k :: 0 <= k < |actions| ==> !IsRestart(actions[k])
    requires var s0 := Run(t, First(persistent, seeded, times), before);
      forall k :: 0 <= k < |actions| ==> Timely(Fold(Actor(t), Client(s0, s0.counter, []), actions[..k]), actions[k])
    ensures var s0 := Run(t, First(persistent, seeded, times), before);
      var c := Fold(Actor(t), Client(s0, s0.counter, []), actions);
      s0.counter <= c.cursor && multiset(c.delivered) == multiset(Range(s0.counter, c.cursor))
  {
    var s, f := First(persistent, seeded, times), FirstFull(seeded, times);
    FirstGood(persistent, seeded, times);
    RunGood(t, s, f, before);
    var s0 := Run(t, s, before);
    var f' := PollingRun(t, Client(s0, s0.counter, []), FullRun(t, f, before), actions);
  }

  // ---------------------------------------------------------------- what a poll skips

  /** Nothing between the old cursor and the new one is missing from the poll. */
  ghost predicate SkipsNothing(t: CharTable, c: Client, limit: int) {
    forall uid :: c.cursor < uid <= Act(t, c, Poll(limit)).cursor
      ==> uid in Uids(ListEvents(c.s.events, Since(c.cursor, limit)))
  }

  /** Everything in `a` stands before everything in `b`. */
  predicate AllBefore(a: seq<Event>, b: seq<Event>) {
    forall i, j :: 0 <= i < |a| && 0 <= j < |b| ==> Before(a[i], b[j])
  }

  lemma {:induction false} InsertInFront(e: Event, sa: seq<Event>, sb: seq<Event>)
    requires sb == [] || Before(e, sb[0])
    ensures Insert(e, sa + sb) == Insert(e, sa) + sb
  {
    if sa == [] {
      assert sa + sb == sb && [e] + sa == [e];
      if sb != [] {
        LexTotal(sb[0].timestamp, e.timestamp);
      }
    } else {
      assert (sa + sb)[1..] == sa[1..] + sb;
      if LexLe(sa[0].timestamp, e.timestamp) {
        Associative([e], sa, sb);
      } else {
        InsertInFront(e, sa[1..], sb);
        Associative([sa[0]], Insert(e, sa[1..]), sb);
      }
    }
  }

  /** Events that all stand before the later ones are sorted on their own. */
  lemma {:induction false} SortSplits(a: seq<Event>, b: seq<Event>)
    requires AllBefore(a, b)
    ensures SortDescending(a + b) == SortDescending(a) + SortDescending(b)
  {
    if a == [] {
      assert a + b == b;
    } else {
      assert (a + b)[1..] == a[1..] + b;
      SortSplits(a[1..], b);
      var sb := SortDescending(b);
      if sb != [] {
        SortKeeps(b, sb[0]);
      }
      InsertInFront(a[0], SortDescending(a[1..]), sb);
    }
  }

  lemma {:induction false} RangeOnce(low: int, high: int, uid: int)
    requires low <= high
    ensures multiset(Range(low, high))[uid] == if low < uid <= high then 1 else 0
    decreases high - low
  {
    if low < high {
      RangeOnce(low, high - 1, uid);
      assert Range(low, high) == Range(low, high - 1) + [high];
    }
  }

  /** The newer events of a client whose cursor is in the retained part. */
  function Newer(f: Full, cursor: int): seq<Event>
    requires 0 <= cursor <= |f.log|
  {
    f.log[cursor..]
  }

  /** The first `Clamp(limit)` newer events are all retained and each stands before every later one. */
  predicate FirstComeFirst(f: Full, cursor: int, limit: int)
    requires 0 <= cursor <= |f.log|
  {
    && Oldest(|f.log|) <= cursor
    && |f.log| - cursor >= Clamp(limit)
    && AllBefore(Newer(f, cursor)[..Clamp(limit)], Newer(f, cursor)[Clamp(limit)..])
  }

  lemma SortedPrefix(newer: seq<Event>, n: nat)
    requires n <= |newer| && AllBefore(newer[..n], newer[n..])
    ensures |SortDescending(newer)| == |newer| && SortDescending(newer)[..n] == SortDescending(newer[..n])
  {
    assert newer == newer[..n] + newer[n..];
    SortSplits(newer[..n], newer[n..]);
    SortMembers(newer[..n]);
    SortMembers(newer[n..]);
  }

  lemma UidsInRange(r: seq<Event>, low: int, high: int)
    requires low < high && multiset(Uids(r)) == multiset(Range(low, high))
    ensures MaxUid(r) == high && forall uid :: low < uid <= high ==> uid in Uids(r)
  {
    MaxOfRange(r, low, high);
    forall uid | low < uid <= high ensures uid in Uids(r) {
      RangeOnce(low, high, uid);
      assert uid in multiset(Uids(r));
    }
  }

  lemma UidsOfFirstNewer(f: Full, cursor: int, n: nat)
    requires WellNumbered(f.log) && 0 <= cursor && cursor + n <= |f.log|
    ensures Uids(Newer(f, cursor)[..n]) == Range(cursor, cursor + n)
  {
  }

  lemma FirstComeAnswer(s: State, f: Full, cursor: int, limit: int)
    requires Linked(s, f) && 0 <= cursor <= s.counter && FirstComeFirst(f, cursor, limit)
    ensures multiset(Uids(ListEvents(s.events, Since(cursor, limit)))) == multiset(Range(cursor, cursor + Clamp(limit)))
  {
    var n, newer := Clamp(limit), Newer(f, cursor);
    NewerEvents(s, f, cursor, limit);
    SortedPrefix(newer, n);
    assert ListEvents(s.events, Since(cursor, limit)) == SortDescending(newer[..n]);
    SortUids(newer[..n]);
    UidsOfFirstNewer(f, cursor, n);
  }

  lemma FirstComeIsReturned(t: CharTable, c: Client, f: Full, limit: int)
    requires Linked(c.s, f) && 0 <= c.cursor <= c.s.counter && FirstComeFirst(f, c.cursor, limit)
    ensures SkipsNothing(t, c, limit)
  {
    FirstComeAnswer(c.s, f, c.cursor, limit);
    UidsInRange(ListEvents(c.s.events, Since(c.cursor, limit)), c.cursor, c.cursor + Clamp(limit));
  }

  lemma UidsOfPrefix(events: seq<Event>, n: nat)
    requires n <= |events|
    ensures multiset(Uids(events[..n])) <= multiset(Uids(events))
  {
    assert Uids(events) == Uids(events[..n]) + Uids(events[n..]);
  }

  lemma OnceEach(us: seq<int>, from: int, high: int, u: int)
    requires from <= high && multiset(us) <= multiset(Range(from, high))
    ensures multiset(us)[u] == if u in us then 1 else 0
    ensures u in us ==> from < u
  {
    RangeOnce(from, high, u);
    assert multiset(us)[u] <= multiset(Range(from, high))[u];
    assert u in us <==> u in multiset(us);
  }

  lemma {:induction false} RangeWithin(m: multiset<int>, low: int, high: int)
    requires low <= high && forall u :: low < u <= high ==> m[u] >= 1
    ensures multiset(Range(low, high)) <= m
    decreases high - low
  {
    if low < high {
      RangeWithin(m[high := 0], low, high - 1);
      assert Range(low, high) == Range(low, high - 1) + [high];
    }
  }

  lemma UpToTop(us: seq<int>, from: int, high: int, top: int)
    requires from <= top <= high && multiset(us) <= multiset(Range(from, high))
    requires forall u :: u in us ==> u <= top
    ensures multiset(us) <= multiset(Range(from, top))
  {
    var later := Range(top, high);
    assert Range(from, high) == Range(from, top) + later;
    forall i, j | 0 <= i < |us| && 0 <= j < |later| ensures us[i] != later[j] {
      assert us[i] in us;
    }
    assert multiset(us) !! multiset(later);
  }

  /** Distinct numbers above `from` that leave no hole between `cursor` and the greatest are those
      right after `cursor`. */
  lemma NoHoles(us: seq<int>, from: int, high: int, cursor: int, top: int)
    requires cursor <= from <= high && multiset(us) <= multiset(Range(from, high))
    requires top in us && forall u :: u in us ==> u <= top
    requires forall u :: cursor < u <= top ==> u in us
    ensures from == cursor && multiset(us) == multiset(Range(cursor, cursor + |us|))
  {
    OnceEach(us, from, high, top);
    OnceEach(us, from, high, cursor + 1);
    RangeOnce(from, high, top);
    UpToTop(us, from, high, top);
    forall u | cursor < u <= top ensures multiset(us)[u] >= 1 {
      OnceEach(us, from, high, u);
    }
    RangeWithin(multiset(us), cursor, top);
    assert from == cursor && multiset(us) == multiset(Range(cursor, top));
    assert |us| == |multiset(us)| && |multiset(Range(cursor, top))| == top - cursor;
  }

  lemma GreatestUid(r: seq<Event>)
    requires r != []
    ensures MaxUid(r) in Uids(r) && forall u :: u in Uids(r) ==> u <= MaxUid(r)
  {
    MaxUidBounds(r);
    var e :| e in r && e.uid == MaxUid(r);
    var i :| 0 <= i < |r| && r[i] == e;
    assert Uids(r)[i] == MaxUid(r);
    forall u | u in Uids(r) ensures u <= MaxUid(r) {
      var k :| 0 <= k < |r| && Uids(r)[k] == u;
      assert r[k] in r;
    }
  }

  lemma ReturnedUids(s: State, f: Full, cursor: int, limit: int)
    requires Linked(s, f) && 0 <= cursor <= s.counter
    ensures var from := if cursor < Oldest(|f.log|) then Oldest(|f.log|) else cursor;
      multiset(Uids(ListEvents(s.events, Since(cursor, limit)))) <= multiset(Range(from, |f.log|))
  {
    var from := if cursor < Oldest(|f.log|) then Oldest(|f.log|) else cursor;
    var sorted, r := SortDescending(f.log[from..]), ListEvents(s.events, Since(cursor, limit));
    NewerEvents(s, f, cursor, limit);
    SortUids(f.log[from..]);
    UidsOfTail(f.log, from);
    assert |r| <= |sorted| && r == sorted[..|r|];
    UidsOfPrefix(sorted, |r|);
  }

  /** A poll that returns the limit and skips nothing returns the uids right after the cursor. */
  lemma SkipsNothingIsRange(t: CharTable, c: Client, f: Full, limit: int)
    requires Linked(c.s, f) && 0 <= c.cursor && c.s.counter - c.cursor > Clamp(limit) && SkipsNothing(t, c, limit)
    ensures var r := ListEvents(c.s.events, Since(c.cursor, limit));
      && |r| == Clamp(limit) && Oldest(|f.log|) <= c.cursor
      && multiset(Uids(r)) == multiset(Range(c.cursor, c.cursor + Clamp(limit)))
  {
    PollReturns(c.s, f, c.cursor, limit);
    ReturnedUids(c.s, f, c.cursor, limit);
    var r := ListEvents(c.s.events, Since(c.cursor, limit));
    GreatestUid(r);
    OnceEach(Uids(r), if c.cursor < Oldest(|f.log|) then Oldest(|f.log|) else c.cursor, |f.log|, MaxUid(r));
    NoHoles(Uids(r), if c.cursor < Oldest(|f.log|) then Oldest(|f.log|) else c.cursor, |f.log|, c.cursor, MaxUid(r));
  }

  lemma ReturnedIsNewer(s: State, f: Full, cursor: int, limit: int, i: nat)
    requires Linked(s, f) && Oldest(|f.log|) <= cursor && cursor + i < |f.log|
    ensures var r := ListEvents(s.events, Since(cursor, limit));
      f.log[cursor + i].uid in Uids(r) <==> f.log[cursor + i] in r
  {
    var r, newer := ListEvents(s.events, Since(cursor, limit)), Newer(f, cursor);
    NewerEvents(s, f, cursor, limit);
    if f.log[cursor + i].uid in Uids(r) {
      var k :| 0 <= k < |r| && Uids(r)[k] == f.log[cursor + i].uid;
      assert r[k] in SortDescending(newer);
      SortKeeps(newer, r[k]);
      var at :| 0 <= at < |newer| && newer[at] == r[k];
      assert newer[at] == f.log[cursor + at];
    }
    if f.log[cursor + i] in r {
      var l :| 0 <= l < |r| && r[l] == f.log[cursor + i];
      assert Uids(r)[l] == f.log[cursor + i].uid;
    }
  }

  lemma LogUidsIncrease(s: State, f: Full)
    requires Linked(s, f)
    ensures UidsIncrease(s.events)
  {
  }

  /** Of two newer events, the one the poll returned stands before the one it left out. */
  lemma ReturnedStandsBefore(s: State, f: Full, cursor: int, limit: int, i: nat, j: nat)
    requires Linked(s, f) && Oldest(|f.log|) <= cursor && cursor + i < |f.log| && cursor + j < |f.log|
    requires var uids := Uids(ListEvents(s.events, Since(cursor, limit)));
      f.log[cursor + i].uid in uids && f.log[cursor + j].uid !in uids
    ensures Before(f.log[cursor + i], f.log[cursor + j])
  {
    ReturnedIsNewer(s, f, cursor, limit, i);
    ReturnedIsNewer(s, f, cursor, limit, j);
    NewerEvents(s, f, cursor, limit);
    LogUidsIncrease(s, f);
    assert Newer(f, cursor)[j] == f.log[cursor + j];
    LeftOutStandBehind(s.events, Since(cursor, limit), f.log[cursor + j]);
  }

  lemma RangeIsFirstCome(s: State, f: Full, cursor: int, limit: int)
    requires Linked(s, f) && Oldest(|f.log|) <= cursor && |f.log| - cursor >= Clamp(limit)
    requires multiset(Uids(ListEvents(s.events, Since(cursor, limit)))) == multiset(Range(cursor, cursor + Clamp(limit)))
    ensures FirstComeFirst(f, cursor, limit)
  {
    var n, newer, us := Clamp(limit), Newer(f, cursor), Uids(ListEvents(s.events, Since(cursor, limit)));
    forall i, j | 0 <= i < n && n <= j < |newer| ensures Before(newer[i], newer[j]) {
      UidIsReturned(us, cursor, cursor + n, newer[i].uid);
      UidIsReturned(us, cursor, cursor + n, newer[j].uid);
      ReturnedStandsBefore(s, f, cursor, limit, i, j);
    }
  }

  lemma SkipsNothingIsFirstCome(t: CharTable, c: Client, f: Full, limit: int)
    requires Linked(c.s, f) && 0 <= c.cursor && c.s.counter - c.cursor > Clamp(limit) && SkipsNothing(t, c, limit)
    ensures FirstComeFirst(f, c.cursor, limit)
  {
    SkipsNothingIsRange(t, c, f, limit);
    RangeIsFirstCome(c.s, f, c.cursor, limit);
  }

  lemma UidIsReturned(us: seq<int>, low: int, high: int, u: int)
    requires low <= high && multiset(us) == multiset(Range(low, high))
    ensures u in us <==> low < u <= high
  {
    RangeOnce(low, high, u);
    assert u in us <==> u in multiset(us);
  }

  /** A poll skips nothing for good exactly when it is timely, or the first newer events up to the
      limit are all retained and each stands before every later one - whatever timestamps agents
      and simulations gave. */
  lemma PollLosesNothingIff(t: CharTable, c: Client, f: Full, limit: int)
    requires Linked(c.s, f) && 0 <= c.cursor <= c.s.counter
    ensures SkipsNothing(t, c, limit) <==> Timely(c, Poll(limit)) || FirstComeFirst(f, c.cursor, limit)
  {
    if Timely(c, Poll(limit)) {
      var r := ListEvents(c.s.events, Since(c.cursor, limit));
      PollReturns(c.s, f, c.cursor, limit);
      if r != [] {
        assert |multiset(Uids(r))| == |multiset(Range(c.cursor, c.s.counter))|;
        MaxOfRange(r, c.cursor, c.s.counter);
      }
      forall uid | c.cursor < uid <= Act(t, c, Poll(limit)).cursor ensures uid in Uids(r) {
        RangeOnce(c.cursor, c.s.counter, uid);
        assert uid in multiset(Uids(r));
      }
    } else if FirstComeFirst(f, c.cursor, limit) {
      FirstComeIsReturned(t, c, f, limit);
    } else if SkipsNothing(t, c, limit) {
      SkipsNothingIsFirstCome(t, c, f, limit);
    }
  }

  /** Timestamps that strictly grow with the uid, as one console's clock gives. */
  predicate ClockOrdered(log: seq<Event>) {
    forall i, j :: 0 <= i < j < |log| ==> LexLt(log[i].timestamp, log[j].timestamp)
  }

  /** Then the newest come first, and only a timely poll skips nothing. */
  lemma PollLosesNothingIffTimely(t: CharTable, c: Client, f: Full, limit: int)
    requires Linked(c.s, f) && ClockOrdered(f.log) && 0 <= c.cursor <= c.s.counter
    ensures SkipsNothing(t, c, limit) <==> Timely(c, Poll(limit))
  {
    PollLosesNothingIff(t, c, f, limit);
    if FirstComeFirst(f, c.cursor, limit) && !Timely(c, Poll(limit)) {
      var n, newer := Clamp(limit), Newer(f, c.cursor);
      assert Before(newer[..n][0], newer[n..][0]);
      LexTotal(newer[0].timestamp, newer[n].timestamp);
      assert false;
    }
  }
}
