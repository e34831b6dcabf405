/** Whole runs of loading, saving and clearing profiles over many sessions and one vault. */
module VaultRuns {
  import opened Text
  import opened Runs
  import opened Vault

  type Token = s: string | s != "" witness "t"

  /** The environment of a run; `token(n)` is the `n`th token drawn. */
  datatype Setting = Setting(t: CharTable, defaults: Profile, token: nat -> Token)

  ghost predicate NeverRepeats(token: nat -> Token) {
    forall m: nat, n: nat :: token(m) == token(n) ==> m == n
  }

  /** The vault, every browser's session, and how many tokens have been drawn. */
  datatype World = World(items: Items, sessions: map<nat, Session>, drawn: nat)

  function SessionOf(w: World, who: nat): Session {
    if who in w.sessions then w.sessions[who] else Session(None, None)
  }

  /** `Restart` is a restart of the process: the vault is lost, the sessions live on. */
  datatype Op = Load(who: nat) | Save(who: nat, profile: Profile) | Clear(who: nat) | Restart

  function PairOf(w: World, who: nat): Pair { Pair(w.items, SessionOf(w, who)) }

  function PutBack(w: World, who: nat, p: Pair): World {
    World(p.items, w.sessions[who := p.session], w.drawn + 1)
  }

  function Step(c: Setting, w: World, op: Op): World {
    match op
    case Load(who) => PutBack(w, who, Migrated(c.t, PairOf(w, who), c.defaults, c.token(w.drawn)))
    case Save(who, profile) => PutBack(w, who, Saved(PairOf(w, who), profile, c.token(w.drawn)))
    case Clear(who) => PutBack(w, who, Cleared(PairOf(w, who)))
    case Restart => w.(items := map[])
  }

  function Stepper(c: Setting): (World, Op) -> World { (w, op) => Step(c, w, op) }

  function Run(c: Setting, w: World, ops: seq<Op>): World { Fold(Stepper(c), w, ops) }

  // ---------------------------------------------------------------- the reference

  function LiveId(s: Session): Option<string> {
    if s.secretId.Some? && s.secretId.value != "" then s.secretId else None
  }

  /** What the vault holds for a session. */
  function SecretsOf(w: World, who: nat): Secrets {
    var id := LiveId(SessionOf(w, who));
    if id.Some? then ItemOf(w.items, id.value) else NO_SECRETS
  }

  /** The passwords an older version left in a session. */
  function LegacyOf(s: Session): Secrets {
    if s.stored.Some? then s.stored.value.secrets else NO_SECRETS
  }

  /** One session's passwords, told without ids, vault or other sessions. */
  datatype Memo = Memo(kept: Secrets, legacy: Secrets)

  function MemoStep(who: nat, m: Memo, op: Op): Memo {
    match op
    case Load(other) => if other == who then Memo(Overlay(m.kept, m.legacy), NO_SECRETS) else m
    case Save(other, profile) => if other == who then Memo(Overlay(m.kept, profile.secrets), NO_SECRETS) else m
    case Clear(other) => if other == who then m.(kept := NO_SECRETS) else m
    case Restart => m.(kept := NO_SECRETS)
  }

  function MemoOf(w: World, who: nat): Memo { Memo(SecretsOf(w, who), LegacyOf(SessionOf(w, who))) }

  function Remembered(who: nat, m: Memo, ops: seq<Op>): Memo {
    if ops == [] then m else MemoStep(who, Remembered(who, m, ops[..|ops| - 1]), ops[|ops| - 1])
  }

  // ---------------------------------------------------------------- the invariant

  /** No two sessions share an id, and no token still to be drawn is in use. */
  ghost predicate Apart(c: Setting, w: World) {
    && (forall a, b :: a in w.sessions && b in w.sessions && a != b && LiveId(w.sessions[a]).Some?
          ==> LiveId(w.sessions[a]) != LiveId(w.sessions[b]))
    && (forall n: nat :: w.drawn <= n ==> Unused(w, c.token(n)))
  }

  ghost predicate Unused(w: World, id: string) {
    id !in w.items && forall a :: a in w.sessions ==> LiveId(w.sessions[a]) != Some(id)
  }

  /** A call on one session keeps its id, drops it or takes the fresh one, and changes the vault
      under that id alone. */
  ghost predicate Local(before: Pair, token: Token, after: Pair) {
    && (LiveId(after.session).Some? ==> LiveId(after.session) == Some(IdOf(before.session, token)))
    && forall k :: k != IdOf(before.session, token) ==>
          (k in after.items <==> k in before.items) && (k in after.items ==> after.items[k] == before.items[k])
  }

  lemma CallsAreLocal(c: Setting, p: Pair, profile: Profile, token: Token)
    ensures Local(p, token, Migrated(c.t, p, c.defaults, token))
    ensures Local(p, token, Saved(p, profile, token))
    ensures Local(p, token, Cleared(p))
  {
  }

  lemma LocalKeepsApart(c: Setting, w: World, who: nat, p: Pair)
    requires Apart(c, w) && NeverRepeats(c.token) && Local(PairOf(w, who), c.token(w.drawn), p)
    ensures Apart(c, PutBack(w, who, p))
  {
    var w' := PutBack(w, who, p);
    var id := IdOf(SessionOf(w, who), c.token(w.drawn));
    assert Unused(w, c.token(w.drawn));
    forall n: nat | w'.drawn <= n ensures Unused(w', c.token(n)) {
      assert Unused(w, c.token(n));
      assert c.token(n) != c.token(w.drawn);
      assert c.token(n) != id;
    }
    forall a, b | a in w'.sessions && b in w'.sessions && a != b && LiveId(w'.sessions[a]).Some?
      ensures LiveId(w'.sessions[a]) != LiveId(w'.sessions[b])
    {
      if a != who && b == who {
        assert LiveId(w.sessions[a]) != Some(id);
      } else if a == who && b != who {
        assert LiveId(w.sessions[b]) != Some(id);
      }
    }
  }

  lemma LocalLeavesOthers(c: Setting, w: World, who: nat, p: Pair, other: nat)
    requires Apart(c, w) && other != who && Local(PairOf(w, who), c.token(w.drawn), p)
    ensures MemoOf(PutBack(w, who, p), other) == MemoOf(w, other)
  {
    var id := IdOf(SessionOf(w, who), c.token(w.drawn));
    assert Unused(w, c.token(w.drawn));
    if other in w.sessions && LiveId(w.sessions[other]).Some? {
      assert LiveId(w.sessions[other]) != Some(id);
    }
  }

  /** With no live id the fresh token's place in the vault is empty. */
  lemma OwnItem(c: Setting, w: World, who: nat)
    requires Apart(c, w)
    ensures ItemOf(w.items, IdOf(SessionOf(w, who), c.token(w.drawn))) == SecretsOf(w, who)
  {
    assert Unused(w, c.token(w.drawn));
  }

  lemma StepRemembers(c: Setting, w: World, op: Op, who: nat)
    requires Apart(c, w) && NeverRepeats(c.token)
    ensures MemoOf(Step(c, w, op), who) == MemoStep(who, MemoOf(w, who), op)
  {
    var token := c.token(w.drawn);
    OwnItem(c, w, who);
    match op
    case Load(other) =>
      var p := PairOf(w, other);
      CallsAreLocal(c, p, c.defaults, token);
      if other != who {
        LocalLeavesOthers(c, w, other, Migrated(c.t, p, c.defaults, token), who);
      }
    case Save(other, profile) =>
      var p := PairOf(w, other);
      CallsAreLocal(c, p, profile, token);
      if other != who {
        LocalLeavesOthers(c, w, other, Saved(p, profile, token), who);
      }
    case Clear(other) =>
      var p := PairOf(w, other);
      CallsAreLocal(c, p, c.defaults, token);
      if other != who {
        LocalLeavesOthers(c, w, other, Cleared(p), who);
      }
    case Restart =>
  }

  lemma StepKeepsApart(c: Setting, w: World, op: Op)
    requires Apart(c, w) && NeverRepeats(c.token)
    ensures Apart(c, Step(c, w, op))
  {
    var token := c.token(w.drawn);
    match op
    case Load(who) =>
      CallsAreLocal(c, PairOf(w, who), c.defaults, token);
      LocalKeepsApart(c, w, who, Migrated(c.t, PairOf(w, who), c.defaults, token));
    case Save(who, profile) =>
      CallsAreLocal(c, PairOf(w, who), profile, token);
      LocalKeepsApart(c, w, who, Saved(PairOf(w, who), profile, token));
    case Clear(who) =>
      CallsAreLocal(c, PairOf(w, who), c.defaults, token);
      LocalKeepsApart(c, w, who, Cleared(PairOf(w, who)));
    case Restart =>
      forall n: nat | w.drawn <= n ensures Unused(Step(c, w, op), c.token(n)) {
        assert Unused(w, c.token(n));
      }
  }

  // ---------------------------------------------------------------- theorems over runs

  /** Sessions never affect each other: what the vault and the session hold for one session
      after any run is told by that session's own calls and the restarts. */
  lemma {:induction false} SessionsAreIsolated(c: Setting, w: World, ops: seq<Op>, who: nat)
    requires Apart(c, w) && NeverRepeats(c.token)
    ensures Apart(c, Run(c, w, ops))
    ensures MemoOf(Run(c, w, ops), who) == Remembered(who, MemoOf(w, who), ops)
  {
    if ops != [] {
      var n := |ops| - 1;
      SessionsAreIsolated(c, w, ops[..n], who);
      StepKeepsApart(c, Run(c, w, ops[..n]), ops[n]);
      StepRemembers(c, Run(c, w, ops[..n]), ops[n], who);
    }
  }

  lemma {:induction false} CallsDropLegacy(who: nat, m: Memo, ops: seq<Op>)
    requires m.legacy == NO_SECRETS || exists op :: op in ops && (op == Load(who) || (op.Save? && op.who == who))
    ensures Remembered(who, m, ops).legacy == NO_SECRETS
  {
    if ops != [] {
      var n := |ops| - 1;
      if !(ops[n] == Load(who) || (ops[n].Save? && ops[n].who == who)) {
        assert forall op :: op in ops ==> op in ops[..n] || op == ops[n];
        CallsDropLegacy(who, m, ops[..n]);
      }
    }
  }

  /** Once a session has been loaded or saved, or if it started clean, no password is in it. */
  lemma PasswordsStayOutOfTheSession(c: Setting, w: World, ops: seq<Op>, who: nat)
    requires Apart(c, w) && NeverRepeats(c.token)
    requires
      || LegacyOf(SessionOf(w, who)) == NO_SECRETS
      || exists op :: op in ops && (op == Load(who) || (op.Save? && op.who == who))
    ensures LegacyOf(SessionOf(Run(c, w, ops), who)) == NO_SECRETS
  {
    SessionsAreIsolated(c, w, ops, who);
    CallsDropLegacy(who, MemoOf(w, who), ops);
  }

  datatype Which = Ldap | Hypervisor

  function Password(s: Secrets, which: Which): string {
    match which
    case Ldap => s.ldap
    case Hypervisor => s.hypervisor
  }

  /** The last password saved for the session that is not blank, unless the session was cleared
      or the process restarted since. */
  function LastSaved(who: nat, which: Which, ops: seq<Op>): string {
    if ops == [] then ""
    else
      var n := |ops| - 1;
      var op := ops[n];
      if op.Save? && op.who == who && Password(op.profile.secrets, which) != "" then Password(op.profile.secrets, which)
      else if op == Clear(who) || op.Restart? then ""
      else LastSaved(who, which, ops[..n])
  }

  lemma {:induction false} RememberedIsLastSaved(who: nat, which: Which, ops: seq<Op>)
    ensures var m := Remembered(who, Memo(NO_SECRETS, NO_SECRETS), ops);
      m.legacy == NO_SECRETS && Password(m.kept, which) == LastSaved(who, which, ops)
  {
    if ops != [] {
      RememberedIsLastSaved(who, which, ops[..|ops| - 1]);
    }
  }

  function LoadedBy(c: Setting, w: World, who: nat): Profile {
    LoadedProfile(c.t, PairOf(w, who), c.defaults, c.token(w.drawn))
  }

  /** Each loaded password is the vault's own, overridden by one the session still held, with the
      configured default preferred when the session names no host. */
  lemma LoadOverlays(c: Setting, w: World, who: nat)
    requires Apart(c, w)
    ensures var base := BaseProfile(c.t, SessionOf(w, who), c.defaults);
      LoadedBy(c, w, who)
      == Profile(base.fields, Overlay(Overlay(SecretsOf(w, who), LegacyOf(SessionOf(w, who))), base.secrets))
  {
    OwnItem(c, w, who);
  }

  /** After any run, loading a session whose stored host is not blank gives the stored fields and
      each password as last saved; with no stored host, the configured default where there is one. */
  lemma LoadReturnsLastSaved(c: Setting, w: World, ops: seq<Op>, who: nat, which: Which)
    requires Apart(c, w) && NeverRepeats(c.token) && MemoOf(w, who) == Memo(NO_SECRETS, NO_SECRETS)
    ensures var after := Run(c, w, ops);
      var loaded := LoadedBy(c, after, who);
      if HasHost(SessionOf(after, who)) then
        && loaded.fields == Normalised(c.t, SessionOf(after, who).stored.value.fields)
        && Password(loaded.secrets, which) == LastSaved(who, which, ops)
      else
        && loaded.fields == c.defaults.fields
        && Password(loaded.secrets, which)
           == if Password(c.defaults.secrets, which) != "" then Password(c.defaults.secrets, which)
              else LastSaved(who, which, ops)
  {
    SessionsAreIsolated(c, w, ops, who);
    RememberedIsLastSaved(who, which, ops);
    LoadOverlays(c, Run(c, w, ops), who);
  }

  /** A password an older version left in the session is moved to the vault by the first load. */
  lemma FirstLoadKeepsLegacy(c: Setting, w: World, who: nat, which: Which)
    requires Apart(c, w) && Password(LegacyOf(SessionOf(w, who)), which) != "" && HasHost(SessionOf(w, who))
    ensures Password(LoadedBy(c, w, who).secrets, which) == Password(LegacyOf(SessionOf(w, who)), which)
  {
    LoadOverlays(c, w, who);
  }
}
