/** What the file collector makes of a line, in terms of the payload's keys. */
module Payloads {
  import opened Text
  import opened Collectors

  /** `keys[i]` is the first of the keys under which the payload holds something truthy. */
  predicate FirstTruthy(raw: Payload, keys: seq<string>, i: nat) {
    && i < |keys| && TruthyAt(raw, keys[i])
    && forall j :: 0 <= j < i ==> !TruthyAt(raw, keys[j])
  }

  predicate TruthyAt(raw: Payload, key: string) { key in raw && raw[key].Truthy? }

  predicate NoneTruthy(raw: Payload, keys: seq<string>) {
    forall j :: 0 <= j < |keys| ==> !TruthyAt(raw, keys[j])
  }

  /** The text under the first truthy key (`None`: it raises), or the default. */
  ghost predicate Says(raw: Payload, keys: seq<string>, default: string, text: Option<string>) {
    && (NoneTruthy(raw, keys) ==> text == Some(default))
    && forall i: nat :: FirstTruthy(raw, keys, i) ==> text == raw[keys[i]].text
  }

  lemma {:induction false} PickIsFirst(raw: Payload, keys: seq<string>)
    ensures NoneTruthy(raw, keys) ==> Pick(raw, keys) == Falsy
    ensures forall i: nat :: FirstTruthy(raw, keys, i) ==> Pick(raw, keys) == raw[keys[i]]
    ensures NoneTruthy(raw, keys) || exists i: nat :: FirstTruthy(raw, keys, i)
  {
    if keys != [] {
      PickIsFirst(raw, keys[1..]);
      if TruthyAt(raw, keys[0]) {
        assert FirstTruthy(raw, keys, 0);
      } else {
        forall i: nat | FirstTruthy(raw, keys, i) ensures i > 0 && keys[1..][i - 1] == keys[i] && FirstTruthy(raw, keys[1..], i - 1) {
          assert forall j :: 0 <= j < i - 1 ==> keys[1..][j] == keys[j + 1];
        }
        if i: nat :| FirstTruthy(raw, keys[1..], i) {
          assert forall j :: 0 < j <= i ==> keys[j] == keys[1..][j - 1];
          assert FirstTruthy(raw, keys, i + 1);
        } else {
          assert forall j :: 0 < j < |keys| ==> keys[j] == keys[1..][j - 1];
        }
      }
    }
  }

  lemma TextSays(raw: Payload, keys: seq<string>, default: string)
    ensures Says(raw, keys, default, TextOr(Pick(raw, keys), default))
  {
    PickIsFirst(raw, keys);
  }

  /** The number under the first truthy id key; nothing counts as 0. */
  ghost predicate IdIs(raw: Payload, id: Number) {
    && (NoneTruthy(raw, ["event_id", "EventID"]) ==> id == Whole(0))
    && forall i: nat :: FirstTruthy(raw, ["event_id", "EventID"], i) ==> id == raw[["event_id", "EventID"][i]].number
  }

  /** Who did it, and to whom. */
  ghost predicate PartiesAre(raw: Payload, actor: Option<string>, target: Option<string>) {
    && Says(raw, ["actor", "IpAddress", "WorkstationName", "source"], "", actor)
    && Says(raw, ["target", "TargetUserName", "AccountName"], "", target)
  }

  function Known(s: string): string { if s == "" then "unknown" else s }

  /** The rest of the event. */
  ghost predicate DetailsAre(
      raw: Payload, id: int, target: string, now: string,
      severity: Option<string>, source: Option<string>, description: Option<string>, time: Option<string>)
  {
    && Says(raw, ["severity"], if id == 4769 then "high" else if id == 4625 then "medium" else "info", severity)
    && Says(raw, ["source"], "Security", source)
    && Says(raw, ["description", "Message"], "Security event " + IntToString(id) + " target=" + Known(target), description)
    && Says(raw, ["timestamp", "TimeCreated"], now, time)
  }

  /** The event of a payload that names a watched event and someone. */
  ghost predicate ReadsAs(raw: Payload, id: int, actor: string, target: string, agentId: string, now: string, r: Reading) {
    exists severity, source, description, time :: DetailsAre(raw, id, target, now, severity, source, description, time) &&
      if severity.None? || source.None? || description.None? || time.None? then r.Raised?
      else
        && r.Read?
        && r.event.eventId == id && r.event.agentId == agentId
        && r.event.actor == Known(actor) && r.event.target == Known(target)
        && r.event.severity == severity.value && r.event.source == source.value
        && r.event.description == description.value && r.event.timestamp == time.value
        && (r.event.dated <==> !NoneTruthy(raw, ["timestamp", "TimeCreated"]))
  }

  /** The outcome once the parties are known. */
  ghost predicate PartiesGive(raw: Payload, id: int, agentId: string, now: string, r: Reading) {
    exists actor, target :: PartiesAre(raw, actor, target) &&
      if actor.None? || target.None? then r.Raised?
      else if actor.value == "" && target.value == "" then r.Skipped?
      else ReadsAs(raw, id, actor.value, target.value, agentId, now, r)
  }

  lemma DescribeSays(raw: Payload, id: int, target: string, actor: string, agentId: string, now: string)
    ensures ReadsAs(raw, id, actor, target, agentId, now, Describe(raw, id, target, actor, agentId, now))
  {
    var described := "Security event " + IntToString(id) + " target=" + Or(target, "unknown");
    var level := if id == 4769 then "high" else if id == 4625 then "medium" else "info";
    TextSays(raw, ["severity"], level);
    TextSays(raw, ["source"], "Security");
    TextSays(raw, ["description", "Message"], described);
    TextSays(raw, ["timestamp", "TimeCreated"], now);
    PickIsFirst(raw, ["timestamp", "TimeCreated"]);
    assert DetailsAre(raw, id, target, now, TextOr(Pick(raw, ["severity"]), level), TextOr(Pick(raw, ["source"]), "Security"),
                      TextOr(Pick(raw, ["description", "Message"]), described), TextOr(Pick(raw, ["timestamp", "TimeCreated"]), now));
  }

  /** What becomes of a payload: raised for an infinite id, or for a value whose text raises; skipped for
      an id that is not watched or when neither actor nor target is given; and otherwise read, each
      field from the first of its keys that is set, or its default. */
  lemma NormalizeSays(raw: Payload, agentId: string, now: string)
    ensures var r := Normalize(raw, agentId, now);
      exists id :: IdIs(raw, id) &&
        if id.Overflows? then r.Raised?
        else if id.NotWhole? || id.value !in {4624, 4625, 4768, 4769} then r.Skipped?
        else PartiesGive(raw, id.value, agentId, now, r)
  {
    var ids := ["event_id", "EventID"];
    PickIsFirst(raw, ids);
    var field := Pick(raw, ids);
    var id := if field.Truthy? then field.number else Whole(0);
    assert IdIs(raw, id);
    if id.Whole? && id.value in WATCHED {
      PartiesSay(raw, id.value, agentId, now);
    }
  }

  lemma PartiesSay(raw: Payload, id: int, agentId: string, now: string)
    requires var field := Pick(raw, ["event_id", "EventID"]);
      id in WATCHED && (if field.Truthy? then field.number else Whole(0)) == Whole(id)
    ensures PartiesGive(raw, id, agentId, now, Normalize(raw, agentId, now))
  {
    var actor := TextOr(Pick(raw, ["actor", "IpAddress", "WorkstationName", "source"]), "");
    var target := TextOr(Pick(raw, ["target", "TargetUserName", "AccountName"]), "");
    TextSays(raw, ["actor", "IpAddress", "WorkstationName", "source"], "");
    TextSays(raw, ["target", "TargetUserName", "AccountName"], "");
    assert PartiesAre(raw, actor, target);
    if actor.Some? && target.Some? {
      DescribeSays(raw, id, target.value, actor.value, agentId, now);
    }
  }
}
