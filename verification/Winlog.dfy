/** Reading the Windows Security log backwards, newest record first. */
module Winlog {
  import opened Text
  import opened Collectors

  /** A log record; the fields pulled out of its message are given. */
  datatype LogRecord = LogRecord(
    number: int, rawId: int, target: Option<string>, actor: Option<string>, summary: string, time: string)

  /** The low 16 bits. */
  function EventId(r: LogRecord): int { r.rawId % 65536 }

  function OrUnknown(s: Option<string>): string { if s.Some? && s.value != "" then s.value else "unknown" }

  function Collect(r: LogRecord, agentId: string): Collected {
    Collected(EventId(r), OrUnknown(r.actor), OrUnknown(r.target), SeverityFor(EventId(r)), "Windows Security",
              r.summary, r.time, true, agentId)
  }

  /** Watched, and numbered after the last record taken. */
  predicate Fresh(r: LogRecord, last: Option<int>) {
    EventId(r) in WATCHED && (last.Some? ==> r.number > last.value)
  }

  datatype Scanned = Scanned(taken: seq<LogRecord>, last: Option<int>)

  /** The scan of the log, with `last` moving as records are taken. */
  function Scan(log: seq<LogRecord>, last: Option<int>, room: nat): Scanned {
    if log == [] || room == 0 then Scanned([], last)
    else if !Fresh(log[0], last) then Scan(log[1..], last, room)
    else
      var rest := Scan(log[1..], Some(log[0].number), room - 1);
      Scanned([log[0]] + rest.taken, rest.last)
  }

  /** What the reads return until the first empty one. */
  function Readable(batches: seq<seq<LogRecord>>): seq<LogRecord> {
    if batches == [] || batches[0] == [] then [] else batches[0] + Readable(batches[1..])
  }

  /** Oldest first, as events. */
  function Reported(taken: seq<LogRecord>, agentId: string): (r: seq<Collected>)
    ensures |r| == |taken|
  {
    seq(|taken|, i requires 0 <= i < |taken| => Collect(taken[|taken| - 1 - i], agentId))
  }

  function Room(maxEvents: int): nat { if maxEvents < 0 then 0 else maxEvents }

  lemma ReadableFrom(batches: seq<seq<LogRecord>>, i: nat)
    requires i <= |batches|
    ensures i == |batches| || batches[i] == [] ==> Readable(batches[i..]) == []
    ensures i < |batches| && batches[i] != [] ==> Readable(batches[i..]) == batches[i] + Readable(batches[i + 1..])
  {
    if i < |batches| {
      assert batches[i..][1..] == batches[i + 1..];
    }
  }

  class WinlogCollector {
    const agentId: string
    const maxEvents: int
    var lastRecord: Option<int>

    constructor (agentId: string, maxEvents: int)
      ensures this.agentId == agentId && this.maxEvents == maxEvents && lastRecord == None
    {
      this.agentId, this.maxEvents, lastRecord := agentId, maxEvents, None;
    }

    /** One batch of records, until there is no more room. */
    method TakeBatch(records: seq<LogRecord>, soFar: seq<LogRecord>, ghost whole: Scanned, ghost rest: seq<LogRecord>)
      returns (taken: seq<LogRecord>)
      requires |soFar| < maxEvents && Ahead(whole, soFar, records + rest, lastRecord, maxEvents - |soFar|)
      modifies this
      ensures |taken| <= maxEvents
      ensures Ahead(whole, taken, rest, lastRecord, maxEvents - |taken|)
    {
      taken := soFar;
      assert records[0..] == records;
      for k := 0 to |records|
        invariant |taken| < maxEvents
        invariant Ahead(whole, taken, records[k..] + rest, lastRecord, maxEvents - |taken|)
      {
        assert records[k..] + rest == [records[k]] + (records[k + 1..] + rest);
        AheadOne(whole, taken, records[k], records[k + 1..] + rest, lastRecord, maxEvents - |taken|);
        if EventId(records[k]) !in WATCHED {
          continue;
        }
        if lastRecord.Some? && records[k].number <= lastRecord.value {
          continue;
        }
        taken := taken + [records[k]];
        if lastRecord.None? || records[k].number > lastRecord.value {
          lastRecord := Some(records[k].number);
        }
        if |taken| >= maxEvents {
          AheadWhenFull(whole, taken, records[k + 1..] + rest, rest, lastRecord);
          return;
        }
      }
      assert records[|records|..] + rest == rest;
    }

    /** `batches` is what the successive reads of the log return. */
    method Poll(batches: seq<seq<LogRecord>>) returns (events: seq<Collected>)
      modifies this
      ensures var scan := Scan(Readable(batches), old(lastRecord), Room(maxEvents));
        events == Reported(scan.taken, agentId) && lastRecord == scan.last
    {
      var taken: seq<LogRecord> := [];
      ghost var left := Readable(batches);
      ghost var whole := Scan(left, lastRecord, Room(maxEvents));
      var i := 0;
      assert batches[0..] == batches;
      while |taken| < maxEvents
        invariant i <= |batches| && |taken| <= Room(maxEvents)
        invariant left == Readable(batches[i..])
        invariant Ahead(whole, taken, left, lastRecord, Room(maxEvents) - |taken|)
        decreases |batches| - i
      {
        ReadableFrom(batches, i);
        if i == |batches| || batches[i] == [] {
          break;
        }
        left := Readable(batches[i + 1..]);
        taken := TakeBatch(batches[i], taken, whole, left);
        i := i + 1;
      }
      AheadDone(whole, taken, left, lastRecord, Room(maxEvents) - |taken|);
      events := Reported(taken, agentId);
    }
  }

  /** The whole scan is what was taken so far and the scan of what is left. */
  ghost predicate Ahead(whole: Scanned, taken: seq<LogRecord>, left: seq<LogRecord>, last: Option<int>, room: int) {
    room >= 0 && whole == Scanned(taken + Scan(left, last, room).taken, Scan(left, last, room).last)
  }

  lemma AheadOne(whole: Scanned, taken: seq<LogRecord>, r: LogRecord, left: seq<LogRecord>, last: Option<int>, room: int)
    requires room > 0 && Ahead(whole, taken, [r] + left, last, room)
    ensures !Fresh(r, last) ==> Ahead(whole, taken, left, last, room)
    ensures Fresh(r, last) ==> Ahead(whole, taken + [r], left, Some(r.number), room - 1)
  {
    assert ([r] + left)[1..] == left;
    var rest := Scan(left, Some(r.number), room - 1).taken;
    assert taken + ([r] + rest) == (taken + [r]) + rest;
  }

  lemma AheadWhenFull(whole: Scanned, taken: seq<LogRecord>, left: seq<LogRecord>, rest: seq<LogRecord>, last: Option<int>)
    requires Ahead(whole, taken, left, last, 0)
    ensures Ahead(whole, taken, rest, last, 0)
  {
  }

  lemma AheadDone(whole: Scanned, taken: seq<LogRecord>, left: seq<LogRecord>, last: Option<int>, room: int)
    requires Ahead(whole, taken, left, last, room) && (left == [] || room == 0)
    ensures whole == Scanned(taken, last)
  {
  }

  // ---------------------------------------------------------------- what a poll finds

  /** Record numbers as the backwards read gives them. */
  ghost predicate NewestFirst(log: seq<LogRecord>) {
    forall i, j :: 0 <= i < j < |log| ==> log[i].number > log[j].number
  }

  /** Every record a poll is meant to report: watched, and newer than the last one taken. */
  function Due(log: seq<LogRecord>, last: Option<int>): seq<LogRecord> {
    if log == [] then [] else (if Fresh(log[0], last) then [log[0]] else []) + Due(log[1..], last)
  }

  lemma {:induction false} OlderAreSkipped(log: seq<LogRecord>, number: int, room: nat)
    requires forall i :: 0 <= i < |log| ==> log[i].number < number
    ensures Scan(log, Some(number), room) == Scanned([], Some(number))
  {
    if log != [] && room > 0 {
      OlderAreSkipped(log[1..], number, room);
    }
  }

  /** Because the mark moves during the backwards scan, a poll reports only the newest record that
      is due. */
  lemma {:induction false} OnlyTheNewestIsReported(log: seq<LogRecord>, last: Option<int>, room: nat)
    requires NewestFirst(log) && room >= 1
    ensures var due := Due(log, last);
      Scan(log, last, room)
      == if due == [] then Scanned([], last) else Scanned([due[0]], Some(due[0].number))
  {
    if log != [] {
      if Fresh(log[0], last) {
        OlderAreSkipped(log[1..], log[0].number, room - 1);
      } else {
        OnlyTheNewestIsReported(log[1..], last, room);
      }
    }
  }

  /** A poll reports everything due exactly when at most one record is due. */
  lemma ReportsAllDueIff(log: seq<LogRecord>, last: Option<int>, room: nat)
    requires NewestFirst(log) && room >= 1
    ensures Scan(log, last, room).taken == Due(log, last) <==> |Due(log, last)| <= 1
  {
    OnlyTheNewestIsReported(log, last, room);
  }

  /** What one poll passes over no later poll reports, however the log grows. */
  lemma {:induction false} PassedOverIsLost(log: seq<LogRecord>, last: Option<int>, room: nat, missed: LogRecord)
    requires last.Some? && missed.number <= last.value
    ensures missed !in Scan(log, last, room).taken
    ensures Scan(log, last, room).last.Some? && Scan(log, last, room).last.value >= last.value
  {
    if log != [] && room > 0 {
      if Fresh(log[0], last) {
        PassedOverIsLost(log[1..], Some(log[0].number), room - 1, missed);
      } else {
        PassedOverIsLost(log[1..], last, room, missed);
      }
    }
  }

  /** What a reported event says of its record: the id from the low 16 bits, the parties as found in the
      message or "unknown", a severity by the id, and the record's own text and time. */
  lemma ReportSays(taken: seq<LogRecord>, agentId: string, i: nat)
    requires i < |taken|
    ensures var e, r := Reported(taken, agentId)[|taken| - 1 - i], taken[i];
      && e.eventId == r.rawId - r.rawId / 65536 * 65536 && e.agentId == agentId
      && (if r.actor.Some? && r.actor.value != "" then e.actor == r.actor.value else e.actor == "unknown")
      && (if r.target.Some? && r.target.value != "" then e.target == r.target.value else e.target == "unknown")
      && e.severity == (match e.eventId case 4769 => "high" case 4625 => "medium" case _ => "info")
      && e.source == "Windows Security" && e.description == r.summary && e.timestamp == r.time && e.dated
  {
    var j := |taken| - 1 - i;
    assert Reported(taken, agentId)[j] == Collect(taken[|taken| - 1 - j], agentId);
  }

  /** What is taken is of the log, watched, and numbered after the mark, and there is room for it. */
  lemma {:induction false} TakenAreDue(log: seq<LogRecord>, last: Option<int>, room: nat)
    ensures var taken := Scan(log, last, room).taken;
      && |taken| <= room
      && forall r :: r in taken ==>
           r in log && r.rawId % 65536 in {4624, 4625, 4768, 4769} && (last.Some? ==> r.number > last.value)
  {
    if log != [] && room > 0 {
      if Fresh(log[0], last) {
        TakenAreDue(log[1..], Some(log[0].number), room - 1);
        assert log[0] in log && forall r :: r in log[1..] ==> r in log;
      } else {
        TakenAreDue(log[1..], last, room);
        assert forall r :: r in log[1..] ==> r in log;
      }
    }
  }
}
