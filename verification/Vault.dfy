/** The password vault and the session profiles that point into it: passwords stay out of the
    session, and come back from the vault when a profile is loaded. */
module Vault {
  import opened Text

  /** The two passwords; a blank one means none. */
  datatype Secrets = Secrets(ldap: string, hypervisor: string)

  const NO_SECRETS := Secrets("", "")

  /** What is not secret in a profile. */
  datatype Fields = Fields(
    ldapHost: string, ldapPort: int, ldapUseSsl: bool, ldapBindDn: string, ldapBaseDn: string,
    hypervisorType: string, hypervisorEndpoint: string, hypervisorUsername: string, hypervisorVmName: string,
    wrapperCommand: string, autoTestOnLoad: bool, lastTestedAt: string)

  datatype Profile = Profile(fields: Fields, secrets: Secrets)

  /** A session: its vault id, and the stored profile - whose passwords only a session written
      by an older version can hold. */
  datatype Session = Session(secretId: Option<string>, stored: Option<Profile>)

  type Items = map<string, Secrets>

  /** Blank passwords of the newer one leave the older ones. */
  function Overlay(older: Secrets, newer: Secrets): Secrets {
    Secrets(if newer.ldap != "" then newer.ldap else older.ldap,
            if newer.hypervisor != "" then newer.hypervisor else older.hypervisor)
  }

  function Given(s: string): Option<string> { if s != "" then Some(s) else None }

  function ItemOf(items: Items, id: string): Secrets {
    if id in items then items[id] else NO_SECRETS
  }

  function Normalised(t: CharTable, f: Fields): Fields {
    Fields(
      Strip(t, f.ldapHost), if f.ldapPort != 0 then f.ldapPort else 389, f.ldapUseSsl, Strip(t, f.ldapBindDn),
      Strip(t, f.ldapBaseDn), Lower(t, Strip(t, f.hypervisorType)), Strip(t, f.hypervisorEndpoint),
      Strip(t, f.hypervisorUsername), Strip(t, f.hypervisorVmName), Strip(t, f.wrapperCommand),
      f.autoTestOnLoad, f.lastTestedAt)
  }

  /** The profile a stored mapping gives: passwords are dropped. */
  function FromMapping(t: CharTable, stored: Profile): Profile {
    Profile(Normalised(t, stored.fields), NO_SECRETS)
  }

  /** The fields as a form would give them: trimmed, the type in lower case, and a port. */
  predicate Tidy(t: CharTable, f: Fields) {
    && f.ldapPort != 0
    && Trimmed(t, f.ldapHost) && Trimmed(t, f.ldapBindDn) && Trimmed(t, f.ldapBaseDn)
    && Trimmed(t, f.hypervisorType) && Trimmed(t, f.hypervisorEndpoint) && Trimmed(t, f.hypervisorUsername)
    && Trimmed(t, f.hypervisorVmName) && Trimmed(t, f.wrapperCommand)
    && forall i :: 0 <= i < |f.hypervisorType| ==> t.lower(f.hypervisorType[i]) == f.hypervisorType[i]
  }

  /** Lower-casing keeps white space white space, and a second one changes nothing. */
  ghost predicate LowerSettles(t: CharTable) {
    forall c: char :: (t.isSpace(t.lower(c)) <==> t.isSpace(c)) && t.lower(t.lower(c)) == t.lower(c)
  }

  lemma TrimmedStays(t: CharTable, s: string)
    requires Trimmed(t, s)
    ensures Strip(t, s) == s
  {
    StripOfTrimmed(t, s);
  }

  /** Loading keeps tidy fields exactly as they were saved, and drops both passwords. */
  lemma TidyFieldsLoadAsSaved(t: CharTable, stored: Profile)
    requires Tidy(t, stored.fields)
    ensures FromMapping(t, stored).fields == stored.fields
    ensures FromMapping(t, stored).secrets.ldap == "" && FromMapping(t, stored).secrets.hypervisor == ""
  {
    var f := stored.fields;
    TrimmedStays(t, f.ldapHost);
    TrimmedStays(t, f.ldapBindDn);
    TrimmedStays(t, f.ldapBaseDn);
    TrimmedStays(t, f.hypervisorType);
    TrimmedStays(t, f.hypervisorEndpoint);
    TrimmedStays(t, f.hypervisorUsername);
    TrimmedStays(t, f.hypervisorVmName);
    TrimmedStays(t, f.wrapperCommand);
    assert Lower(t, f.hypervisorType) == f.hypervisorType;
  }

  lemma LowerStaysTrimmed(t: CharTable, s: string)
    requires LowerSettles(t) && Trimmed(t, s)
    ensures Trimmed(t, Lower(t, s))
  {
  }

  /** Loading makes any fields tidy, so a second load changes nothing; a port of 0 becomes 389, and
      every text is the stored one without white space around it. */
  lemma LoadTidies(t: CharTable, stored: Profile)
    requires LowerSettles(t)
    ensures var f, was := FromMapping(t, stored).fields, stored.fields;
      && Tidy(t, f) && FromMapping(t, FromMapping(t, stored)) == FromMapping(t, stored)
      && f.ldapPort == (if was.ldapPort == 0 then 389 else was.ldapPort) && f.ldapHost == Strip(t, was.ldapHost)
      && f.ldapUseSsl == was.ldapUseSsl && f.autoTestOnLoad == was.autoTestOnLoad && f.lastTestedAt == was.lastTestedAt
  {
    var f, was := FromMapping(t, stored).fields, stored.fields;
    StripIsTrimmed(t, was.ldapHost);
    StripIsTrimmed(t, was.ldapBindDn);
    StripIsTrimmed(t, was.ldapBaseDn);
    StripIsTrimmed(t, was.hypervisorType);
    StripIsTrimmed(t, was.hypervisorEndpoint);
    StripIsTrimmed(t, was.hypervisorUsername);
    StripIsTrimmed(t, was.hypervisorVmName);
    StripIsTrimmed(t, was.wrapperCommand);
    LowerStaysTrimmed(t, Strip(t, was.hypervisorType));
    TidyFieldsLoadAsSaved(t, FromMapping(t, stored));
  }

  function WithoutSecrets(p: Profile): Profile { p.(secrets := NO_SECRETS) }

  // ---------------------------------------------------------------- the vault

  class SecretStore {
    var items: Items

    constructor ()
      ensures items == map[]
    {
      items := map[];
    }

    /** `None` leaves a password as it was; an empty id does nothing. */
    method Put(id: string, ldap: Option<string>, hypervisor: Option<string>)
      modifies this
      ensures id == "" ==> items == old(items)
      ensures id != "" ==>
                items == old(items)[id := Secrets(
                  if ldap.Some? then ldap.value else ItemOf(old(items), id).ldap,
                  if hypervisor.Some? then hypervisor.value else ItemOf(old(items), id).hypervisor)]
    {
      if id == "" {
        return;
      }
      var current := if id in items then items[id] else NO_SECRETS;
      if ldap.Some? {
        current := current.(ldap := ldap.value);
      }
      if hypervisor.Some? {
        current := current.(hypervisor := hypervisor.value);
      }
      items := items[id := current];
    }

    method Get(id: string) returns (s: Secrets)
      ensures s == if id == "" then NO_SECRETS else ItemOf(items, id)
    {
      if id == "" || id !in items {
        return NO_SECRETS;
      }
      return items[id];
    }

    method Clear(id: string)
      modifies this
      ensures items == if id == "" then old(items) else old(items) - {id}
    {
      if id != "" {
        items := items - {id};
      }
    }

    /** The vault fills the passwords the profile leaves blank. */
    method ApplyToProfile(id: string, profile: Profile) returns (filled: Profile)
      requires id != ""
      ensures filled == profile.(secrets := Overlay(ItemOf(items, id), profile.secrets))
    {
      var s := Get(id);
      filled := profile;
      if filled.secrets.ldap == "" && s.ldap != "" {
        filled := filled.(secrets := filled.secrets.(ldap := s.ldap));
      }
      if filled.secrets.hypervisor == "" && s.hypervisor != "" {
        filled := filled.(secrets := filled.secrets.(hypervisor := s.hypervisor));
      }
    }

    method CaptureFromProfile(id: string, profile: Profile)
      requires id != ""
      modifies this
      ensures items == old(items)[id := Overlay(ItemOf(old(items), id), profile.secrets)]
    {
      Put(id, Given(profile.secrets.ldap), Given(profile.secrets.hypervisor));
    }
  }

  // ---------------------------------------------------------------- session calls, as values

  /** The session's id, or the fresh token it takes. */
  function IdOf(s: Session, token: string): (id: string)
    requires token != ""
    ensures id != ""
  {
    if s.secretId.Some? && s.secretId.value != "" then s.secretId.value else token
  }

  predicate HasHost(s: Session) { s.stored.Some? && s.stored.value.fields.ldapHost != "" }

  predicate HasLegacy(s: Session) { s.stored.Some? && s.stored.value.secrets != NO_SECRETS }

  /** The profile before the vault fills it in. */
  function BaseProfile(t: CharTable, s: Session, settings: Profile): Profile {
    if HasHost(s) then FromMapping(t, s.stored.value) else settings
  }

  /** The vault and one session together. */
  datatype Pair = Pair(items: Items, session: Session)

  function Migrated(t: CharTable, p: Pair, settings: Profile, token: string): Pair
    requires token != ""
  {
    var id := IdOf(p.session, token);
    if HasLegacy(p.session) then
      Pair(p.items[id := Overlay(ItemOf(p.items, id), p.session.stored.value.secrets)],
           Session(Some(id), Some(WithoutSecrets(BaseProfile(t, p.session, settings)))))
    else Pair(p.items, p.session.(secretId := Some(id)))
  }

  function LoadedProfile(t: CharTable, p: Pair, settings: Profile, token: string): Profile
    requires token != ""
  {
    var base := BaseProfile(t, p.session, settings);
    base.(secrets := Overlay(ItemOf(Migrated(t, p, settings, token).items, IdOf(p.session, token)), base.secrets))
  }

  function Saved(p: Pair, profile: Profile, token: string): Pair
    requires token != ""
  {
    var id := IdOf(p.session, token);
    Pair(p.items[id := Overlay(ItemOf(p.items, id), profile.secrets)],
         Session(Some(id), Some(WithoutSecrets(profile))))
  }

  function Cleared(p: Pair): Pair {
    Pair(if p.session.secretId.Some? && p.session.secretId.value != "" then p.items - {p.session.secretId.value} else p.items,
         p.session.(secretId := None))
  }

  /** A load gives the stored fields, tidied, when they have a host, and otherwise the configured ones;
      the session keeps its vault id or takes the token, and is left without passwords, and no other
      session's are touched. */
  lemma LoadSays(t: CharTable, p: Pair, settings: Profile, token: string)
    requires token != ""
    ensures var profile, after := LoadedProfile(t, p, settings, token), Migrated(t, p, settings, token);
      var hosted := p.session.stored.Some? && p.session.stored.value.fields.ldapHost != "";
      var id := if p.session.secretId.Some? && p.session.secretId.value != "" then p.session.secretId.value else token;
      && profile.fields == (if hosted then Normalised(t, p.session.stored.value.fields) else settings.fields)
      && after.session.secretId == Some(id)
      && (after.session.stored.Some? <==> p.session.stored.Some?)
      && (after.session.stored.Some? ==> after.session.stored.value.secrets == NO_SECRETS)
      && (forall other :: other != id ==> (other in after.items <==> other in p.items))
      && (forall other :: other != id && other in p.items ==> after.items[other] == p.items[other])
  {
  }

  /** Clearing forgets the session's passwords and its id, and nothing else. */
  lemma ClearSays(p: Pair)
    ensures var after := Cleared(p);
      && after.session.secretId.None? && after.session.stored == p.session.stored
      && (forall id :: id in after.items <==> id in p.items && !(p.session.secretId == Some(id) && id != ""))
      && (forall id :: id in after.items ==> after.items[id] == p.items[id])
  {
  }

  // ---------------------------------------------------------------- session calls, in place

  /** The session dictionary a request carries. */
  class SessionDict {
    var secretId: Option<string>
    var stored: Option<Profile>

    constructor (s: Session)
      ensures View() == s
    {
      secretId, stored := s.secretId, s.stored;
    }

    function View(): Session
      reads this
    {
      Session(secretId, stored)
    }

    method EnsureSecretId(token: string) returns (id: string)
      requires token != ""
      modifies this
      ensures id == IdOf(old(View()), token) && View() == old(View()).(secretId := Some(id))
    {
      if secretId.Some? && secretId.value != "" {
        return secretId.value;
      }
      secretId := Some(token);
      return token;
    }
  }

  method LoadSessionProfile(t: CharTable, store: SecretStore, session: SessionDict, settings: Profile, token: string)
    returns (profile: Profile)
    requires token != ""
    modifies store, session
    ensures profile == LoadedProfile(t, old(Pair(store.items, session.View())), settings, token)
    ensures Pair(store.items, session.View()) == Migrated(t, old(Pair(store.items, session.View())), settings, token)
  {
    var stored := session.stored;
    var base: Profile;
    if stored.Some? && stored.value.fields.ldapHost != "" {
      base := FromMapping(t, stored.value);
    } else {
      base := settings;
    }
    var id := session.EnsureSecretId(token);
    if stored.Some? {
      var legacy := stored.value.secrets;
      if legacy.ldap != "" || legacy.hypervisor != "" {
        store.Put(id, Given(legacy.ldap), Given(legacy.hypervisor));
        session.stored := Some(WithoutSecrets(base));
      }
    }
    profile := store.ApplyToProfile(id, base);
  }

  method SaveSessionProfile(store: SecretStore, session: SessionDict, profile: Profile, token: string)
    requires token != ""
    modifies store, session
    ensures Pair(store.items, session.View()) == Saved(old(Pair(store.items, session.View())), profile, token)
  {
    var id := session.EnsureSecretId(token);
    store.CaptureFromProfile(id, profile);
    session.stored := Some(WithoutSecrets(profile));
  }

  method ClearSessionSecrets(store: SecretStore, session: SessionDict)
    modifies store, session
    ensures Pair(store.items, session.View()) == Cleared(old(Pair(store.items, session.View())))
  {
    if session.secretId.Some? && session.secretId.value != "" {
      store.Clear(session.secretId.value);
    }
    session.secretId := None;
  }
}
