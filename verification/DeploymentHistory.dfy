/** The deployment history: newest first, capped, with a status that can become `TornDown`. */
module DeploymentHistory {
  import opened Text

  /** One provisioning or teardown result, as stored in a record. */
  datatype Provisioned = Provisioned(objectType: string, name: string, dn: string, action: string, success: bool)

  datatype Status = Active | TornDown | PlanOnly

  datatype Record = Record(
    id: string, provisioned: seq<Provisioned>, graphSynced: bool, adProvisioned: bool, dryRun: bool, status: Status)

  function Capped(records: seq<Record>, max: nat): seq<Record> {
    if |records| <= max then records else records[..max]
  }

  function Added(records: seq<Record>, r: Record, max: nat): seq<Record> {
    Capped([r] + records, max)
  }

  /** The first record with this id. */
  function Find(records: seq<Record>, id: string): Option<Record> {
    if records == [] then None else if records[0].id == id then Some(records[0]) else Find(records[1..], id)
  }

  function Marked(records: seq<Record>, id: string): seq<Record> {
    if records == [] then []
    else if records[0].id == id then [records[0].(status := TornDown)] + records[1..]
    else [records[0]] + Marked(records[1..], id)
  }

  class DeploymentHistoryStore {
    const maxRecords: nat
    var records: seq<Record>

    constructor (maxRecords: int)
      ensures this.maxRecords == (if maxRecords < 1 then 1 else maxRecords) && records == []
    {
      this.maxRecords := if maxRecords < 1 then 1 else maxRecords;
      records := [];
    }

    method Add(r: Record)
      modifies this
      ensures records == Added(old(records), r, maxRecords)
    {
      records := [r] + records;
      if |records| > maxRecords {
        records := records[..maxRecords];
      }
    }

    method Get(id: string) returns (r: Option<Record>)
      ensures r == Find(records, id)
    {
      for i := 0 to |records|
        invariant Find(records, id) == Find(records[i..], id)
      {
        if records[i].id == id {
          return Some(records[i]);
        }
      }
      r := None;
    }

    method MarkTornDown(id: string) returns (updated: bool)
      modifies this
      ensures records == Marked(old(records), id)
      ensures updated == Find(old(records), id).Some?
    {
      for i := 0 to |records|
        invariant records == old(records)
        invariant Find(records, id) == Find(records[i..], id)
        invariant forall j :: 0 <= j < i ==> records[j].id != id
      {
        if records[i].id == id {
          MarkedAt(records, i, id);
          records := records[i := records[i].(status := TornDown)];
          return true;
        }
      }
      MarkedNone(records, id);
      updated := false;
    }

    /** The newest records, `limit` of them or all there are; one even when none is asked for. */
    method ListRecords(limit: int) returns (r: seq<Record>)
      ensures r == Capped(records, if limit < 1 then 1 else limit)
      ensures r <= records && (|r| == |records| || |r| == if limit < 1 then 1 else limit)
    {
      var n := if limit < 1 then 1 else limit;
      r := if |records| <= n then records else records[..n];
    }
  }

  /** A record just added heads every list of the history, and the list goes on as it was. */
  lemma AddedIsListedFirst(records: seq<Record>, r: Record, max: nat, limit: nat)
    requires max >= 1 && limit >= 1
    ensures Capped(Added(records, r, max), limit) == [r] + Capped(records, (if limit < max then limit else max) - 1)
  {
    var n := (if limit < max then limit else max) - 1;
    assert Capped([r] + records, n + 1) == [r] + Capped(records, n);
    assert Capped(Capped([r] + records, max), limit) == Capped([r] + records, n + 1);
  }

  lemma {:induction false} MarkedAt(records: seq<Record>, i: nat, id: string)
    requires i < |records| && records[i].id == id && forall j :: 0 <= j < i ==> records[j].id != id
    ensures Marked(records, id) == records[i := records[i].(status := TornDown)]
  {
    if i > 0 {
      MarkedAt(records[1..], i - 1, id);
    }
  }

  lemma {:induction false} MarkedNone(records: seq<Record>, id: string)
    requires forall j :: 0 <= j < |records| ==> records[j].id != id
    ensures Marked(records, id) == records
  {
    if records != [] {
      MarkedNone(records[1..], id);
    }
  }

  /** Marking makes the found record torn down and changes no other. */
  lemma {:induction false} MarkedFinds(records: seq<Record>, id: string, other: string)
    ensures Find(Marked(records, id), other)
         == if other == id && Find(records, id).Some? then Some(Find(records, id).value.(status := TornDown))
            else Find(records, other)
  {
    if records != [] && records[0].id != id {
      MarkedFinds(records[1..], id, other);
    }
  }

  /** Adding a record with a new id leaves every other record as it was, or drops it off the end. */
  lemma AddedFinds(records: seq<Record>, r: Record, max: nat, other: string)
    requires max >= 1
    ensures Find(Added(records, r, max), r.id) == Some(r)
    ensures other != r.id ==> Find(Added(records, r, max), other) in [None, Find(records, other)]
  {
    if other != r.id {
      CappedFinds([r] + records, max, other);
    }
  }

  lemma {:induction false} CappedFinds(records: seq<Record>, max: nat, id: string)
    ensures Find(Capped(records, max), id) in [None, Find(records, id)]
  {
    if records != [] && max > 0 && records[0].id != id {
      CappedFinds(records[1..], max - 1, id);
      if |records| > max {
        assert records[..max][1..] == records[1..][..max - 1];
      }
    }
  }
}
