/** What every step of every thread keeps: past instants, threads, makers of events and the file. */
module MonitoringInvariant {
  import opened Text
  import opened Monitoring
  import opened Runs
  import opened MonitoringSteps

  predicate SharedOk(s: Shared) {
    && s.counter >= 0
    && |s.log| == (if s.counter <= MAX_EVENTS then s.counter else MAX_EVENTS)
    && (forall k :: 0 <= k < |s.log| ==> s.log[k] == s.counter - |s.log| + 1 + k)
    && (forall k :: 0 <= k < |s.log| ==> s.log[k] in s.heap)
    && (forall u :: u in s.heap ==> 1 <= u <= s.counter && s.heap[u].uid == u)
  }

  /** `b` is `a`, its flag perhaps set since. */
  predicate Later(a: Event, b: Event) {
    b == a.(acknowledged := b.acknowledged) && (a.acknowledged ==> b.acknowledged)
  }

  /** `b` came after `a`: objects stay, and every uid given out in between has one. */
  predicate Grows(a: Shared, b: Shared) {
    && a.counter <= b.counter
    && (forall u :: u in a.heap ==> u in b.heap && Later(a.heap[u], b.heap[u]))
    && (forall u :: a.counter < u <= b.counter ==> u in b.heap)
  }

  ghost predicate PastOk(past: seq<Shared>, now: Shared) {
    && |past| > 0 && past[|past| - 1] == now
    && (forall k :: 0 <= k < |past| ==> SharedOk(past[k]))
    && (forall k :: 0 <= k < |past| ==> Grows(past[k], now))
  }

  /** Each value read so far lies between the copy's instant and now. */
  ghost predicate ReadsOk(from: Shared, now: Shared, done: seq<Event>) {
    && |done| <= |from.log|
    && forall k :: 0 <= k < |done| ==>
         && from.log[k] in from.heap && from.log[k] in now.heap
         && Later(from.heap[from.log[k]], done[k]) && Later(done[k], now.heap[from.log[k]])
  }

  predicate CopyOf(copy: Copy, s: Shared) {
    copy == Copy(s.log, s.honey, s.counter)
  }

  predicate MadeBy(makers: seq<Maker>, op: nat, u: int) {
    0 <= u < |makers| && makers[u].ByRecord? && makers[u].op == op
  }

  ghost predicate Unmade(makers: seq<Maker>, op: nat) {
    forall u :: !MadeBy(makers, op, u)
  }

  /** The events behind the references, in log order. */
  function Objects(s: Shared): seq<Event>
    requires SharedOk(s)
  {
    seq(|s.log|, k requires 0 <= k < |s.log| => s.heap[s.log[k]])
  }

  /** An `acknowledge_all` in progress: entries before `next` are marked, the rest untouched
      since it took the lock, and `marked` counts those that were pending. */
  ghost predicate AckOk(from: Shared, now: Shared, next: nat, marked: nat) {
    && SharedOk(from) && SharedOk(now)
    && from.log == now.log && from.honey == now.honey && from.counter == now.counter
    && next <= |from.log|
    && Objects(now) == MarkAll(Objects(from)[..next]) + Objects(from)[next..]
    && marked == PendingCount(Objects(from)[..next])
  }

  ghost predicate PcOk(t: CharTable, w: World, pc: Pc) {
    match pc
    case Idle => true
    case Saving => true
    case Recording(op, a, stamp, begun) => op < w.ops && begun < |w.past| && Unmade(w.makers, op)
    case Decided(op, a, stamp, begun, at, d) =>
      && op < w.ops && begun <= at < |w.past| && Unmade(w.makers, op)
      && d == Decide(t, w.past[at].honey, a)
    case AckingAll(since, next, marked) => since < |w.past| && AckOk(w.past[since], w.shared, next, marked)
    case Holding(copy, at) => at < |w.past| && CopyOf(copy, w.past[at])
    case Writing(copy, at, done) =>
      at < |w.past| && CopyOf(copy, w.past[at]) && ReadsOk(w.past[at], w.shared, done)
  }

  predicate InFlight(pc: Pc, op: nat) {
    (pc.Recording? || pc.Decided?) && pc.op == op
  }

  ghost predicate ThreadsOk(t: CharTable, w: World) {
    && (forall i :: 0 <= i < |w.threads| ==> PcOk(t, w, w.threads[i]))
    && (forall i :: 0 <= i < |w.threads| ==> (w.threads[i].AckingAll? <==> w.engineLock == Some(i)))
    && (forall i :: 0 <= i < |w.threads| ==> (w.threads[i].Writing? <==> w.storeLock == Some(i)))
    && (w.engineLock.Some? ==> w.engineLock.value < |w.threads|)
  }

  /** Event `u + 1` is what its maker's call decided from the registry it read, in that order. */
  ghost predicate MakerOk(t: CharTable, past: seq<Shared>, s: Shared, m: Maker, uid: int) {
    m.ByRecord? ==>
      && m.begun <= m.at < m.appended < |past|
      && uid in s.heap
      && past[m.appended - 1].counter < uid <= past[m.appended].counter
      && Later(BuildEvent(m.a, Decide(t, past[m.at].honey, m.a), uid, m.now), s.heap[uid])
  }

  ghost predicate MakersOk(t: CharTable, w: World) {
    && |w.makers| == w.shared.counter
    && (forall u :: 0 <= u < |w.makers| ==> MakerOk(t, w.past, w.shared, w.makers[u], u + 1))
    && (forall u :: 0 <= u < |w.makers| && w.makers[u].ByRecord? ==> w.makers[u].op < w.ops)
    && (forall u, v :: 0 <= u < v < |w.makers| && w.makers[u].ByRecord? && w.makers[v].ByRecord?
          ==> w.makers[u].op != w.makers[v].op)
  }

  ghost predicate Flying(threads: seq<Pc>, op: nat) {
    exists i :: 0 <= i < |threads| && InFlight(threads[i], op)
  }

  /** Every call begun is either in flight, by one thread, or has made an event. */
  ghost predicate OpsOk(w: World) {
    && (forall op: nat :: op < w.ops ==> Flying(w.threads, op) || exists u :: MadeBy(w.makers, op, u))
    && (forall i, j, op: nat :: 0 <= i < j < |w.threads| && InFlight(w.threads[i], op) ==> !InFlight(w.threads[j], op))
  }

  ghost predicate WrittenOk(past: seq<Shared>, d: Written) {
    && d.at <= d.when < |past|
    && d.content.counter == past[d.at].counter && d.content.honey == past[d.at].honey
    && |d.content.events| == |past[d.at].log|
    && ReadsOk(past[d.at], past[d.when], d.content.events)
  }

  ghost predicate Inv(t: CharTable, w: World) {
    && PastOk(w.past, w.shared)
    && ThreadsOk(t, w)
    && MakersOk(t, w)
    && OpsOk(w)
    && (w.disk.Some? ==> WrittenOk(w.past, w.disk.value))
  }

  // ---------------------------------------------------------------- what one step keeps

  lemma GrowsTransitive(a: Shared, b: Shared, c: Shared)
    requires Grows(a, b) && Grows(b, c)
    ensures Grows(a, c)
  {
  }

  lemma PastExtends(past: seq<Shared>, now: Shared, s: Shared)
    requires PastOk(past, now) && SharedOk(s) && Grows(now, s)
    ensures PastOk(past + [s], s)
  {
    var past' := past + [s];
    forall k | 0 <= k < |past'| ensures SharedOk(past'[k]) && Grows(past'[k], s) {
      if k < |past| { GrowsTransitive(past[k], now, s); }
    }
  }

  /** `w'` is one instant after `w`. */
  ghost predicate Follows(w: World, w': World) {
    && w'.past == w.past + [w'.shared]
    && SharedOk(w'.shared) && Grows(w.shared, w'.shared)
    && w.ops <= w'.ops
  }

  lemma ReadsStay(from: Shared, now: Shared, s: Shared, done: seq<Event>)
    requires ReadsOk(from, now, done) && Grows(now, s)
    ensures ReadsOk(from, s, done)
  {
    forall k | 0 <= k < |done|
      ensures from.log[k] in from.heap && from.log[k] in s.heap
      ensures Later(from.heap[from.log[k]], done[k]) && Later(done[k], s.heap[from.log[k]])
    {
      var u := from.log[k];
      assert u in now.heap && Later(now.heap[u], s.heap[u]);
    }
  }

  lemma PcStays(t: CharTable, w: World, w': World, pc: Pc)
    requires PcOk(t, w, pc) && Follows(w, w')
    requires pc.AckingAll? ==> w'.shared == w.shared
    requires pc.Recording? || pc.Decided? ==> Unmade(w'.makers, pc.op)
    ensures PcOk(t, w', pc)
  {
    if pc.Writing? {
      ReadsStay(w.past[pc.at], w.shared, w'.shared, pc.done);
    }
  }

  /** Thread `i` moves to `pc`; the locks change for nobody else. */
  ghost predicate LocksFor(w: World, w': World, i: nat, pc: Pc) {
    && (pc.AckingAll? <==> w'.engineLock == Some(i))
    && (pc.Writing? <==> w'.storeLock == Some(i))
    && (w'.engineLock.Some? ==> w'.engineLock.value < |w.threads|)
    && (forall j: nat :: j != i ==> (w'.engineLock == Some(j) <==> w.engineLock == Some(j)))
    && (forall j: nat :: j != i ==> (w'.storeLock == Some(j) <==> w.storeLock == Some(j)))
  }

  lemma ThreadsMove(t: CharTable, w: World, w': World, i: nat, pc: Pc)
    requires ThreadsOk(t, w) && Follows(w, w') && i < |w.threads|
    requires w'.threads == w.threads[i := pc] && PcOk(t, w', pc) && LocksFor(w, w', i, pc)
    requires w'.shared == w.shared || w.engineLock.None? || w.engineLock == Some(i)
    requires forall j, op: nat :: 0 <= j < |w.threads| && j != i && InFlight(w.threads[j], op) ==> Unmade(w'.makers, op)
    ensures ThreadsOk(t, w')
  {
    forall j | 0 <= j < |w'.threads| ensures PcOk(t, w', w'.threads[j]) {
      if j != i {
        var other := w.threads[j];
        assert PcOk(t, w, other);
        if other.Recording? || other.Decided? {
          assert InFlight(other, other.op);
        }
        PcStays(t, w, w', other);
      }
    }
  }

  lemma MakersStay(t: CharTable, w: World, w': World)
    requires MakersOk(t, w) && Follows(w, w') && w'.makers == w.makers && w'.shared.counter == w.shared.counter
    ensures MakersOk(t, w')
  {
    forall u | 0 <= u < |w'.makers| ensures MakerOk(t, w'.past, w'.shared, w'.makers[u], u + 1) {
      assert MakerOk(t, w.past, w.shared, w.makers[u], u + 1);
    }
  }

  lemma OpsStay(w: World, w': World, i: nat, pc: Pc)
    requires OpsOk(w) && i < |w.threads| && w'.threads == w.threads[i := pc]
    requires w'.makers == w.makers && w'.ops == w.ops
    requires forall op: nat :: InFlight(pc, op) <==> InFlight(w.threads[i], op)
    ensures OpsOk(w')
  {
    forall op: nat | op < w'.ops ensures Flying(w'.threads, op) || exists u :: MadeBy(w'.makers, op, u) {
      if Flying(w.threads, op) {
        var j :| 0 <= j < |w.threads| && InFlight(w.threads[j], op);
        assert InFlight(w'.threads[j], op);
      }
    }
  }

  lemma WrittenStays(w: World, w': World)
    requires Follows(w, w') && w'.disk == w.disk && (w.disk.Some? ==> WrittenOk(w.past, w.disk.value))
    ensures w'.disk.Some? ==> WrittenOk(w'.past, w'.disk.value)
  {
  }

  /** A step that makes no event and writes no file keeps everything. */
  lemma QuietStep(t: CharTable, w: World, w': World, i: nat, pc: Pc)
    requires Inv(t, w) && Follows(w, w') && i < |w.threads|
    requires w'.threads == w.threads[i := pc] && PcOk(t, w', pc) && LocksFor(w, w', i, pc)
    requires w'.shared == w.shared || w.engineLock.None? || w.engineLock == Some(i)
    requires w'.makers == w.makers && w'.ops == w.ops && w'.shared.counter == w.shared.counter
    requires w'.disk == w.disk
    requires forall op: nat :: InFlight(pc, op) <==> InFlight(w.threads[i], op)
    ensures Inv(t, w')
  {
    PastExtends(w.past, w.shared, w'.shared);
    forall j, op: nat | 0 <= j < |w.threads| && j != i && InFlight(w.threads[j], op) ensures Unmade(w'.makers, op) {
      assert PcOk(t, w, w.threads[j]);
    }
    ThreadsMove(t, w, w', i, pc);
    MakersStay(t, w, w');
    OpsStay(w, w', i, pc);
    WrittenStays(w, w');
  }

  lemma SameGrows(s: Shared)
    ensures Grows(s, s)
  {
  }

  lemma FlaggedGrows(s: Shared, uid: int)
    requires SharedOk(s) && uid in s.heap
    ensures SharedOk(Flagged(s, uid)) && Grows(s, Flagged(s, uid))
  {
  }

  lemma GrownGrows(s: Shared, e: Event)
    requires SharedOk(s) && e.uid == s.counter + 1
    ensures SharedOk(Grown(s, e)) && Grows(s, Grown(s, e))
  {
  }

  lemma GrownAgain(s: Shared, s': Shared, e: Event)
    requires SharedOk(s') && Grows(s, s') && e.uid == s'.counter + 1
    ensures SharedOk(Grown(s', e)) && Grows(s, Grown(s', e))
  {
    GrownGrows(s', e);
    GrowsTransitive(s, s', Grown(s', e));
  }

  lemma {:induction false} GrownManyGrows(s: Shared, n: nat, make: (nat, int) -> Event)
    requires SharedOk(s)
    ensures var r := GrownMany(s, n, make);
      SharedOk(r) && Grows(s, r) && r.counter == s.counter + n
  {
    if n == 0 {
      SameGrows(s);
    } else {
      GrownManyGrows(s, n - 1, make);
      var s' := GrownMany(s, n - 1, make);
      var e := make(n - 1, s'.counter + 1).(uid := s'.counter + 1);
      assert GrownMany(s, n, make) == Grown(s', e);
      GrownAgain(s, s', e);
    }
  }

  // ---------------------------------------------------------------- steps, one by one

  lemma CorrelateStep(t: CharTable, w: World, i: nat)
    requires Inv(t, w) && i < |w.threads| && w.threads[i].Recording?
    ensures Inv(t, Next(t, w, i))
  {
    var pc := w.threads[i];
    assert PcOk(t, w, pc);
    if w.engineLock.None? {
      SameGrows(w.shared);
      var pc' := Decided(pc.op, pc.a, pc.now, pc.begun, Now(w), Decide(t, w.shared.honey, pc.a));
      QuietStep(t, w, Next(t, w, i), i, pc');
    }
  }

  lemma CopyStep(t: CharTable, w: World, i: nat)
    requires Inv(t, w) && i < |w.threads| && w.threads[i].Saving?
    ensures Inv(t, Next(t, w, i))
  {
    if w.engineLock.None? {
      SameGrows(w.shared);
      QuietStep(t, w, Next(t, w, i), i, Holding(Copy(w.shared.log, w.shared.honey, w.shared.counter), Now(w)));
    }
  }

  lemma TakeStoreStep(t: CharTable, w: World, i: nat)
    requires Inv(t, w) && i < |w.threads| && w.threads[i].Holding?
    ensures Inv(t, Next(t, w, i))
  {
    var pc := w.threads[i];
    assert PcOk(t, w, pc);
    if w.storeLock.None? {
      SameGrows(w.shared);
      QuietStep(t, w, Next(t, w, i), i, Writing(pc.copy, pc.at, []));
    }
  }

  lemma ReadNext(from: Shared, now: Shared, done: seq<Event>)
    requires ReadsOk(from, now, done) && SharedOk(from) && Grows(from, now) && |done| < |from.log|
    ensures from.log[|done|] in now.heap
    ensures ReadsOk(from, now, done + [now.heap[from.log[|done|]]])
  {
    var u := from.log[|done|];
    assert u in from.heap;
  }

  lemma SerializeStep(t: CharTable, w: World, i: nat)
    requires Inv(t, w) && i < |w.threads| && w.threads[i].Writing?
    requires |w.threads[i].done| < |w.threads[i].copy.uids|
    ensures Inv(t, Next(t, w, i))
  {
    var pc := w.threads[i];
    assert PcOk(t, w, pc);
    SameGrows(w.shared);
    ReadNext(w.past[pc.at], w.shared, pc.done);
    var pc' := Writing(pc.copy, pc.at, pc.done + [w.shared.heap[pc.copy.uids[|pc.done|]]]);
    QuietStep(t, w, Next(t, w, i), i, pc');
  }

  lemma WriteStep(t: CharTable, w: World, i: nat)
    requires Inv(t, w) && i < |w.threads| && w.threads[i].Writing?
    requires |w.threads[i].done| >= |w.threads[i].copy.uids|
    ensures Inv(t, Next(t, w, i))
  {
    var pc, w' := w.threads[i], Next(t, w, i);
    assert PcOk(t, w, pc);
    SameGrows(w.shared);
    QuietStep(t, w, w'.(disk := w.disk), i, Idle);
    assert w'.past[|w.past|] == w.shared;
    assert WrittenOk(w'.past, w'.disk.value);
  }

  lemma AckPrefix(before: seq<Event>, k: nat)
    requires k < |before|
    ensures MarkAll(before[..k + 1]) == MarkAll(before[..k]) + [MarkPending(before[k])]
    ensures PendingCount(before[..k + 1]) == PendingCount(before[..k]) + (if Pending(before[k]) then 1 else 0)
  {
    assert before[..k + 1][..k] == before[..k];
  }

  /** What the next round of the loop finds, and what it leaves. */
  lemma AckNext(from: Shared, now: Shared, k: nat, marked: nat)
    requires AckOk(from, now, k, marked) && k < |now.log|
    ensures now.log[k] in now.heap
    ensures Pending(now.heap[now.log[k]]) ==> AckOk(from, Flagged(now, now.log[k]), k + 1, marked + 1)
    ensures !Pending(now.heap[now.log[k]]) ==> AckOk(from, now, k + 1, marked)
  {
    var uid, before, objects := now.log[k], Objects(from), Objects(now);
    assert uid in now.heap && objects[k] == now.heap[uid] == before[k];
    AckPrefix(before, k);
    assert MarkAll(before[..k + 1]) + before[k + 1..] == objects[k := MarkPending(objects[k])];
    if Pending(now.heap[uid]) {
      FlaggedGrows(now, uid);
      assert Objects(Flagged(now, uid)) == objects[k := MarkPending(objects[k])];
    }
  }

  /** The pc and the shared part after the loop marks `uid`. */
  function MarkedPc(pc: Pc): Pc
    requires pc.AckingAll?
  {
    AckingAll(pc.since, pc.next + 1, pc.marked + 1)
  }

  lemma AckMarkedOk(t: CharTable, w: World, w': World, pc: Pc, uid: int)
    requires PastOk(w.past, w.shared) && PcOk(t, w, pc) && pc.AckingAll? && pc.next < |w.shared.log|
    requires uid == w.shared.log[pc.next] && uid in w.shared.heap && Pending(w.shared.heap[uid])
    requires w'.shared == Flagged(w.shared, uid) && w'.past == w.past + [w'.shared] && w'.ops == w.ops
    ensures Follows(w, w') && PcOk(t, w', MarkedPc(pc))
  {
    assert SharedOk(w.past[|w.past| - 1]);
    FlaggedGrows(w.shared, uid);
    AckNext(w.past[pc.since], w.shared, pc.next, pc.marked);
    assert w'.past[pc.since] == w.past[pc.since];
  }

  lemma AckMarksInv(t: CharTable, w: World, i: nat, uid: int)
    requires Inv(t, w) && i < |w.threads| && w.threads[i].AckingAll? && w.threads[i].next < |w.shared.log|
    requires uid == w.shared.log[w.threads[i].next] && uid in w.shared.heap && Pending(w.shared.heap[uid])
    ensures Inv(t, Moved(w, i, MarkedPc(w.threads[i]), Flagged(w.shared, uid)))
  {
    var pc := w.threads[i];
    assert PcOk(t, w, pc);
    var w' := Moved(w, i, MarkedPc(pc), Flagged(w.shared, uid));
    AckMarkedOk(t, w, w', pc, uid);
    QuietStep(t, w, w', i, MarkedPc(pc));
  }

  lemma MarkingMoves(t: CharTable, w: World, i: nat, uid: int)
    requires i < |w.threads| && w.threads[i].AckingAll? && w.threads[i].next < |w.shared.log|
    requires uid == w.shared.log[w.threads[i].next] && uid in w.shared.heap && Pending(w.shared.heap[uid])
    ensures Next(t, w, i) == Moved(w, i, MarkedPc(w.threads[i]), Flagged(w.shared, uid))
  {
  }

  lemma AckMarks(t: CharTable, w: World, i: nat, uid: int)
    requires Inv(t, w) && i < |w.threads| && w.threads[i].AckingAll? && w.threads[i].next < |w.shared.log|
    requires uid == w.shared.log[w.threads[i].next] && uid in w.shared.heap && Pending(w.shared.heap[uid])
    ensures Inv(t, Next(t, w, i))
  {
    MarkingMoves(t, w, i, uid);
    AckMarksInv(t, w, i, uid);
  }

  lemma AckPasses(t: CharTable, w: World, i: nat, uid: int)
    requires Inv(t, w) && i < |w.threads| && w.threads[i].AckingAll? && w.threads[i].next < |w.shared.log|
    requires uid == w.shared.log[w.threads[i].next] && uid in w.shared.heap && !Pending(w.shared.heap[uid])
    ensures Inv(t, Next(t, w, i))
  {
    var pc := w.threads[i];
    assert PcOk(t, w, pc);
    AckNext(w.past[pc.since], w.shared, pc.next, pc.marked);
    SameGrows(w.shared);
    QuietStep(t, w, Next(t, w, i), i, AckingAll(pc.since, pc.next + 1, pc.marked));
  }

  lemma AckEnds(t: CharTable, w: World, i: nat)
    requires Inv(t, w) && i < |w.threads| && w.threads[i].AckingAll? && w.threads[i].next >= |w.shared.log|
    ensures Inv(t, Next(t, w, i))
  {
    SameGrows(w.shared);
    QuietStep(t, w, Next(t, w, i), i, if w.threads[i].marked > 0 then Saving else Idle);
  }

  lemma AckStep(t: CharTable, w: World, i: nat)
    requires Inv(t, w) && i < |w.threads| && w.threads[i].AckingAll?
    ensures Inv(t, Next(t, w, i))
  {
    var k := w.threads[i].next;
    if k < |w.shared.log| {
      var uid := w.shared.log[k];
      if Pending(w.shared.heap[uid]) { AckMarks(t, w, i, uid); } else { AckPasses(t, w, i, uid); }
    } else {
      AckEnds(t, w, i);
    }
  }

  /** New events at the end of the log keep the makers in step. */
  lemma MakersGrow(t: CharTable, w: World, w': World, more: seq<Maker>)
    requires MakersOk(t, w) && Follows(w, w') && w'.makers == w.makers + more
    requires w'.shared.counter == w.shared.counter + |more|
    requires forall k :: 0 <= k < |more| ==> MakerOk(t, w'.past, w'.shared, more[k], |w.makers| + k + 1)
    requires forall k :: 0 <= k < |more| && more[k].ByRecord? ==> |more| == 1 && more[k].op < w'.ops && Unmade(w.makers, more[k].op)
    ensures MakersOk(t, w')
  {
    var n := |w.makers|;
    forall u | 0 <= u < |w'.makers| ensures MakerOk(t, w'.past, w'.shared, w'.makers[u], u + 1) {
      if u < n {
        assert MakerOk(t, w.past, w.shared, w.makers[u], u + 1);
      } else {
        assert w'.makers[u] == more[u - n];
      }
    }
    forall u, v | 0 <= u < v < |w'.makers| && w'.makers[u].ByRecord? && w'.makers[v].ByRecord?
      ensures w'.makers[u].op != w'.makers[v].op
    {
      if v >= n {
        assert w'.makers[v] == more[v - n];
        if u < n { assert !MadeBy(w.makers, more[v - n].op, u); }
      }
    }
  }

  lemma MadeByStays(makers: seq<Maker>, more: seq<Maker>, op: nat)
    ensures (exists u :: MadeBy(makers, op, u)) ==> exists u :: MadeBy(makers + more, op, u)
    ensures Unmade(makers, op) && (forall k :: 0 <= k < |more| ==> more[k].ByRecord? ==> more[k].op != op) ==> Unmade(makers + more, op)
  {
    if exists u :: MadeBy(makers, op, u) {
      var u :| MadeBy(makers, op, u);
      assert MadeBy(makers + more, op, u);
    }
    if Unmade(makers, op) && forall k :: 0 <= k < |more| ==> more[k].ByRecord? ==> more[k].op != op {
      forall u ensures !MadeBy(makers + more, op, u) {
        if 0 <= u < |makers| { assert !MadeBy(makers, op, u); }
        else if |makers| <= u < |makers + more| { assert (makers + more)[u] == more[u - |makers|]; }
      }
    }
  }

  lemma AppendedMaker(t: CharTable, w: World, i: nat)
    requires Inv(t, w) && i < |w.threads| && w.threads[i].Decided? && w.engineLock.None?
    ensures var pc, w' := w.threads[i], Next(t, w, i);
      && MakerOk(t, w'.past, w'.shared, ByRecord(pc.op, pc.a, pc.now, pc.begun, pc.at, |w.past|), |w.makers| + 1)
      && Follows(w, w')
  {
    var pc := w.threads[i];
    assert PcOk(t, w, pc);
    GrownGrows(w.shared, BuildEvent(pc.a, pc.d, w.shared.counter + 1, pc.now));
  }

  lemma AppendStep(t: CharTable, w: World, i: nat)
    requires Inv(t, w) && i < |w.threads| && w.threads[i].Decided?
    ensures Inv(t, Next(t, w, i))
  {
    if w.engineLock.None? {
      var pc, w' := w.threads[i], Next(t, w, i);
      assert PcOk(t, w, pc);
      AppendedMaker(t, w, i);
      AppendedRest(t, w, w', i, ByRecord(pc.op, pc.a, pc.now, pc.begun, pc.at, |w.past|));
    }
  }

  lemma AppendedRest(t: CharTable, w: World, w': World, i: nat, m: Maker)
    requires Inv(t, w) && Follows(w, w') && i < |w.threads| && w.engineLock.None?
    requires m.ByRecord? && m.op < w.ops && Unmade(w.makers, m.op) && InFlight(w.threads[i], m.op)
    requires w'.makers == w.makers + [m] && w'.threads == w.threads[i := Saving] && w'.ops == w.ops
    requires w'.engineLock == w.engineLock && w'.storeLock == w.storeLock && w'.disk == w.disk
    requires w'.shared.counter == w.shared.counter + 1
    requires MakerOk(t, w'.past, w'.shared, m, |w.makers| + 1)
    ensures Inv(t, w')
  {
    PastExtends(w.past, w.shared, w'.shared);
    MakersGrow(t, w, w', [m]);
    AppendedThreads(t, w, w', i, m);
    AppendedOps(w, w', i, m);
    WrittenStays(w, w');
  }

  lemma AppendedThreads(t: CharTable, w: World, w': World, i: nat, m: Maker)
    requires ThreadsOk(t, w) && OpsOk(w) && Follows(w, w') && i < |w.threads| && w.engineLock.None?
    requires m.ByRecord? && InFlight(w.threads[i], m.op) && w'.makers == w.makers + [m]
    requires w'.threads == w.threads[i := Saving] && w'.engineLock == w.engineLock && w'.storeLock == w.storeLock
    ensures ThreadsOk(t, w')
  {
    forall j, op: nat | 0 <= j < |w.threads| && j != i && InFlight(w.threads[j], op) ensures Unmade(w'.makers, op) {
      assert PcOk(t, w, w.threads[j]);
      MadeByStays(w.makers, [m], op);
    }
    ThreadsMove(t, w, w', i, Saving);
  }

  lemma AppendedOps(w: World, w': World, i: nat, m: Maker)
    requires OpsOk(w) && i < |w.threads| && w'.threads == w.threads[i := Saving] && w'.ops == w.ops
    requires m.ByRecord? && InFlight(w.threads[i], m.op) && w'.makers == w.makers + [m]
    ensures OpsOk(w')
  {
    forall op: nat | op < w'.ops ensures Flying(w'.threads, op) || exists u :: MadeBy(w'.makers, op, u) {
      MadeByStays(w.makers, [m], op);
      if op == m.op {
        assert MadeBy(w'.makers, op, |w.makers|);
      } else if Flying(w.threads, op) {
        var j :| 0 <= j < |w.threads| && InFlight(w.threads[j], op);
        assert InFlight(w'.threads[j], op);
      }
    }
  }

  lemma EnterRecord(t: CharTable, w: World, i: nat, a: RecordArgs, now: string)
    requires Inv(t, w) && i < |w.threads| && w.threads[i].Idle?
    ensures Inv(t, EnterCall(t, w, i, RecordCall(a, now)))
  {
    var w' := EnterCall(t, w, i, RecordCall(a, now));
    SameGrows(w.shared);
    PastExtends(w.past, w.shared, w'.shared);
    forall j, op: nat | 0 <= j < |w.threads| && j != i && InFlight(w.threads[j], op) ensures Unmade(w'.makers, op) && op < w.ops {
      assert PcOk(t, w, w.threads[j]);
    }
    assert Unmade(w.makers, w.ops);
    ThreadsMove(t, w, w', i, Recording(w.ops, a, now, Now(w)));
    MakersStay(t, w, w');
    forall op: nat | op < w'.ops ensures Flying(w'.threads, op) || exists u :: MadeBy(w'.makers, op, u) {
      if op == w.ops {
        assert InFlight(w'.threads[i], op);
      } else if Flying(w.threads, op) {
        var j :| 0 <= j < |w.threads| && InFlight(w.threads[j], op);
        assert InFlight(w'.threads[j], op);
      }
    }
    WrittenStays(w, w');
  }

  lemma EnterSimulate(t: CharTable, w: World, i: nat, call: Call)
    requires Inv(t, w) && i < |w.threads| && w.threads[i].Idle? && call.SimulateCall?
    ensures Inv(t, EnterCall(t, w, i, call))
  {
    if w.engineLock.None? && w.shared.honey != [] {
      var n := SimulationCount(call.count);
      var more: seq<Maker> := seq(n, _ => BySimulation);
      var make := SimulationOf(w.shared.honey, call.picks, call.host, call.clock);
      GrownManyGrows(w.shared, n, make);
      SimulatedStep(t, w, i, GrownMany(w.shared, n, make), more);
    }
  }

  lemma SimulatedOps(w: World, w': World, i: nat, more: seq<Maker>)
    requires OpsOk(w) && i < |w.threads| && w.threads[i].Idle?
    requires w'.threads == w.threads[i := Saving] && w'.makers == w.makers + more && w'.ops == w.ops
    ensures OpsOk(w')
  {
    forall op: nat | op < w'.ops ensures Flying(w'.threads, op) || exists u :: MadeBy(w'.makers, op, u) {
      MadeByStays(w.makers, more, op);
      if Flying(w.threads, op) {
        var j :| 0 <= j < |w.threads| && InFlight(w.threads[j], op);
        assert InFlight(w'.threads[j], op);
      }
    }
  }

  lemma SimulatedStep(t: CharTable, w: World, i: nat, s: Shared, more: seq<Maker>)
    requires Inv(t, w) && i < |w.threads| && w.threads[i].Idle? && w.engineLock.None?
    requires SharedOk(s) && Grows(w.shared, s) && s.counter == w.shared.counter + |more|
    requires forall k :: 0 <= k < |more| ==> more[k] == BySimulation
    ensures Inv(t, Moved(w, i, Saving, s).(makers := w.makers + more))
  {
    var w' := Moved(w, i, Saving, s).(makers := w.makers + more);
    PastExtends(w.past, w.shared, s);
    MakersGrow(t, w, w', more);
    forall j, op: nat | 0 <= j < |w.threads| && j != i && InFlight(w.threads[j], op) ensures Unmade(w'.makers, op) {
      assert PcOk(t, w, w.threads[j]);
      MadeByStays(w.makers, more, op);
    }
    ThreadsMove(t, w, w', i, Saving);
    SimulatedOps(w, w', i, more);
    WrittenStays(w, w');
  }

  lemma EnterOther(t: CharTable, w: World, i: nat, call: Call)
    requires Inv(t, w) && i < |w.threads| && w.threads[i].Idle?
    requires call.RegisterCall? || call.AcknowledgeCall? || call.AcknowledgeAllCall?
    ensures Inv(t, EnterCall(t, w, i, call))
  {
    var w' := EnterCall(t, w, i, call);
    SameGrows(w.shared);
    if w.engineLock.None? {
      match call
      case RegisterCall(objects) => QuietStep(t, w, w', i, Saving);
      case AcknowledgeCall(uid) =>
        if uid in w.shared.log && uid in w.shared.heap {
          FlaggedGrows(w.shared, uid);
          QuietStep(t, w, w', i, Saving);
        }
      case AcknowledgeAllCall =>
        assert Objects(w.shared) == MarkAll(Objects(w.shared)[..0]) + Objects(w.shared)[0..];
        assert AckOk(w.past[Now(w)], w.shared, 0, 0);
        QuietStep(t, w, w', i, AckingAll(Now(w), 0, 0));
    }
  }

  lemma StepKeepsInv(t: CharTable, w: World, l: Label)
    requires Inv(t, w)
    ensures Inv(t, Step(t, w, l))
  {
    if l.thread < |w.threads| {
      var i, pc := l.thread, w.threads[l.thread];
      if l.Enter? {
        if pc.Idle? {
          match l.call
          case RecordCall(a, now) => EnterRecord(t, w, i, a, now);
          case SimulateCall(_, _, _, _) => EnterSimulate(t, w, i, l.call);
          case RegisterCall(_) => EnterOther(t, w, i, l.call);
          case AcknowledgeCall(_) => EnterOther(t, w, i, l.call);
          case AcknowledgeAllCall => EnterOther(t, w, i, l.call);
        }
      } else {
        match pc
        case Idle =>
        case Recording(_, _, _, _) => CorrelateStep(t, w, i);
        case Decided(_, _, _, _, _, _) => AppendStep(t, w, i);
        case AckingAll(_, _, _) => AckStep(t, w, i);
        case Saving => CopyStep(t, w, i);
        case Holding(_, _) => TakeStoreStep(t, w, i);
        case Writing(copy, _, done) =>
          if |done| < |copy.uids| { SerializeStep(t, w, i); } else { WriteStep(t, w, i); }
      }
    }
  }

  lemma {:induction false} HeapHolds(events: seq<Event>, first: int)
    requires forall k :: 0 <= k < |events| ==> events[k].uid == first + k
    ensures forall u :: u in HeapOf(events) <==> first <= u < first + |events|
    ensures forall u :: first <= u < first + |events| ==> HeapOf(events)[u] == events[u - first]
  {
    if events != [] {
      HeapHolds(events[..|events| - 1], first);
    }
  }

  /** The start as the shared part: its log, and its events behind it. */
  lemma StartIsShared(start: State)
    requires Ready(start)
    ensures SharedOk(SharedOf(start)) && Objects(SharedOf(start)) == start.events
    ensures forall u :: u in SharedOf(start).heap ==> SharedOf(start).heap[u] in start.events
  {
    HeapHolds(start.events, start.counter - |start.events| + 1);
  }

  lemma InitHasInv(t: CharTable, start: State, threads: nat)
    requires Ready(start)
    ensures Inv(t, Init(start, threads))
  {
    StartIsShared(start);
    SameGrows(SharedOf(start));
    var w := Init(start, threads);
    if w.disk.Some? {
      forall k | 0 <= k < |start.events| ensures Objects(SharedOf(start))[k] == start.events[k] {
      }
      assert ReadsOk(w.past[0], w.past[0], w.disk.value.content.events);
    }
  }

  lemma {:induction false} RunKeepsInv(t: CharTable, start: State, threads: nat, labels: seq<Label>)
    requires Ready(start)
    ensures Inv(t, Run(t, start, threads, labels))
  {
    if labels != [] {
      RunKeepsInv(t, start, threads, labels[..|labels| - 1]);
      StepKeepsInv(t, Run(t, start, threads, labels[..|labels| - 1]), labels[|labels| - 1]);
    } else {
      InitHasInv(t, start, threads);
    }
  }

  lemma {:induction false} FirstInstant(t: CharTable, start: State, threads: nat, labels: seq<Label>)
    ensures var past := Run(t, start, threads, labels).past; |past| > 0 && past[0] == SharedOf(start)
  {
    if labels != [] {
      FirstInstant(t, start, threads, labels[..|labels| - 1]);
    }
  }
}
