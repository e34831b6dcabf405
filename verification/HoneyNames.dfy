/** Names and distinguished names of honey objects: escaping, the safety prefix, and the guard
    that decides what a teardown may delete. */
module HoneyNames {
  import opened Text
  import opened Escaping

  // ---------------------------------------------------------------- escaping

  const SPECIALS: seq<char> := ['\\', ',', '+', '"', '<', '>', ';', '=']

  function Escape(s: string): string { EscapeAll(s, SPECIALS) }

  /** The eight whole-string replacements of `_escape_cn` amount to one pass. */
  method EscapeCn(value: string) returns (out: string)
    ensures out == Escape(value)
  {
    out := value;
    EscapeNone(value, SPECIALS[..0]);
    for i := 0 to |SPECIALS|
      invariant out == EscapeAll(value, SPECIALS[..i])
    {
      EscapeOneMore(value, SPECIALS[..i], SPECIALS[i]);
      assert SPECIALS[..i + 1] == SPECIALS[..i] + [SPECIALS[i]];
      out := EscapeOne(out, SPECIALS[i]);
    }
    assert SPECIALS[..|SPECIALS|] == SPECIALS;
  }

  /** Every special character stands right after its backslash. */
  predicate FullyEscaped(s: string) {
    s == ""
    || (s[0] == '\\' && |s| >= 2 && s[1] in SPECIALS && FullyEscaped(s[2..]))
    || (s[0] !in SPECIALS && FullyEscaped(s[1..]))
  }

  predicate IsHex(c: char) { '0' <= c <= '9' || 'a' <= c <= 'f' || 'A' <= c <= 'F' }

  function HexValue(c: char): nat
    requires IsHex(c)
    ensures HexValue(c) < 16
  {
    if '0' <= c <= '9' then (c - '0') as nat
    else if 'a' <= c <= 'f' then 10 + (c - 'a') as nat
    else 10 + (c - 'A') as nat
  }

  function Prepend(c: char, rest: Option<string>): Option<string> {
    if rest.Some? then Some([c] + rest.value) else None
  }

  /** Undoes escapes as section 2.4 of RFC 4514 reads them: a backslash before a special
      character, a space or a number sign stands for that character, before two hex digits for
      that octet; a bare special character other than the equals sign is an error. */
  function Unescape(s: string): Option<string> {
    if s == "" then Some("")
    else if s[0] == '\\' then
      if |s| >= 2 && (s[1] in SPECIALS || s[1] in [' ', '#']) then Prepend(s[1], Unescape(s[2..]))
      else if |s| >= 3 && IsHex(s[1]) && IsHex(s[2]) then
        Prepend((16 * HexValue(s[1]) + HexValue(s[2])) as char, Unescape(s[3..]))
      else None
    else if s[0] in SPECIALS && s[0] != '=' then None
    else Prepend(s[0], Unescape(s[1..]))
  }

  /** For every string: nothing special is left bare, and unescaping gives the string back. */
  lemma {:induction false} EscapeIsUndone(value: string)
    ensures FullyEscaped(Escape(value))
    ensures Unescape(Escape(value)) == Some(value)
  {
    if value != "" {
      EscapeIsUndone(value[1..]);
      var rest := Escape(value[1..]);
      if value[0] in SPECIALS {
        assert (['\\', value[0]] + rest)[2..] == rest;
      } else {
        assert ([value[0]] + rest)[1..] == rest;
      }
      assert value == [value[0]] + value[1..];
    }
  }

  /** The string ends with a space that no backslash precedes. */
  predicate EndsInBareSpace(s: string) {
    if s == "" then false
    else if s[0] == '\\' && |s| >= 2 then EndsInBareSpace(s[2..])
    else if |s| == 1 then s[0] == ' '
    else EndsInBareSpace(s[1..])
  }

  /** The `string` production of RFC 4514: no bare leading space or number sign, no bare trailing
      space, no NUL, and otherwise as `Unescape` reads it. */
  function ReadString(s: string): Option<string> {
    if s != "" && (s[0] == ' ' || s[0] == '#' || EndsInBareSpace(s) || '\0' in s) then None else Unescape(s)
  }

  predicate NeedsMoreEscaping(value: string) {
    value != "" && (value[0] == ' ' || value[0] == '#' || value[|value| - 1] == ' ' || '\0' in value)
  }

  lemma {:induction false} EscapeKeepsShape(value: string)
    ensures EndsInBareSpace(Escape(value)) <==> value != "" && value[|value| - 1] == ' '
    ensures '\0' in Escape(value) <==> '\0' in value
    ensures Escape(value) == "" <==> value == ""
  {
    if value != "" {
      EscapeKeepsShape(value[1..]);
      var rest := Escape(value[1..]);
      assert value == [value[0]] + value[1..];
      if value[0] in SPECIALS {
        assert (['\\', value[0]] + rest)[2..] == rest;
      } else {
        assert ([value[0]] + rest)[1..] == rest;
      }
    }
  }

  /** `_escape_cn` yields a well-formed RFC 4514 string for the value exactly when the value does
      not start with a space or number sign, end with a space, or hold a NUL: those it leaves. */
  lemma EscapeIsWellFormedIff(value: string)
    ensures ReadString(Escape(value)) == (if NeedsMoreEscaping(value) then None else Some(value))
  {
    EscapeIsUndone(value);
    EscapeKeepsShape(value);
    if value != "" {
      assert Escape(value)[0] == if value[0] in SPECIALS then '\\' else value[0];
    }
  }

  // ---------------------------------------------------------------- the safety prefix

  /** The provisioner's settings; the prefix is already stripped. */
  datatype Settings = Settings(honeyOu: string, prefix: string, requirePrefix: bool)

  predicate Kept(t: CharTable, c: char) { t.isAlnum(c) || c in ['.', '-', '_'] }

  predicate AllKept(t: CharTable, s: string) { forall i :: 0 <= i < |s| ==> Kept(t, s[i]) }

  function Filter(t: CharTable, s: string): string {
    if s == "" then "" else if Kept(t, s[0]) then [s[0]] + Filter(t, s[1..]) else Filter(t, s[1..])
  }

  const FALLBACK := "decoy"

  function Cleaned(t: CharTable, name: string): string {
    var kept := Filter(t, Strip(t, name));
    if kept == "" then FALLBACK else kept
  }

  function EnsurePrefix(t: CharTable, p: Settings, name: string): string {
    var cleaned := Cleaned(t, name);
    if p.requirePrefix && p.prefix != "" && !StartsWith(Lower(t, cleaned), Lower(t, p.prefix))
    then p.prefix + cleaned
    else cleaned
  }

  /** `stamp_provision_names` always asks for the prefix, whatever the setting. */
  function Stamp(t: CharTable, p: Settings, name: string): string {
    EnsurePrefix(t, p.(requirePrefix := true), name)
  }

  /** What the results below need of the Unicode tables: the characters with a role in a DN and
      white space are not alphanumeric, ASCII letters are, and lower-casing neither makes nor
      loses a kept character or a special one. */
  ghost predicate Sane(t: CharTable) {
    && (forall c: char :: c in SPECIALS || c == '$' || t.isSpace(c) ==> !Kept(t, c))
    && (forall i :: 0 <= i < |FALLBACK| ==> t.isAlnum(FALLBACK[i]))
    && (forall c: char :: Kept(t, t.lower(c)) <==> Kept(t, c))
    && (forall c: char :: t.lower(c) in SPECIALS || c in SPECIALS ==> t.lower(c) == c)
  }

  /** The filter keeps exactly the alphanumeric characters and '.', '-' and '_'. */
  lemma {:induction false} FilterKeeps(t: CharTable, s: string, c: char)
    ensures c in Filter(t, s) <==> c in s && (t.isAlnum(c) || c == '.' || c == '-' || c == '_')
  {
    if s != "" {
      FilterKeeps(t, s[1..], c);
      assert c in s <==> c == s[0] || c in s[1..];
    }
  }

  lemma {:induction false} FilterConcat(t: CharTable, a: string, b: string)
    ensures Filter(t, a + b) == Filter(t, a) + Filter(t, b)
  {
    if a == "" {
      assert a + b == b;
    } else {
      FilterConcat(t, a[1..], b);
      assert (a + b)[1..] == a[1..] + b;
    }
  }

  lemma {:induction false} FilterOfKept(t: CharTable, s: string)
    ensures AllKept(t, Filter(t, s)) && |Filter(t, s)| <= |s|
    ensures Filter(t, s) == s <==> AllKept(t, s)
  {
    if s != "" {
      FilterOfKept(t, s[1..]);
      if Kept(t, s[0]) {
        assert s == [s[0]] + s[1..];
        assert Filter(t, s)[1..] == Filter(t, s[1..]);
        assert AllKept(t, s) <==> AllKept(t, s[1..]);
      }
    }
  }

  lemma {:induction false} FilterStripLeft(t: CharTable, s: string)
    requires Sane(t)
    ensures Filter(t, StripLeft(t, s)) == Filter(t, s)
  {
    if s != "" && t.isSpace(s[0]) {
      FilterStripLeft(t, s[1..]);
    }
  }

  lemma {:induction false} FilterStripRight(t: CharTable, s: string)
    requires Sane(t)
    ensures Filter(t, StripRight(t, s)) == Filter(t, s)
  {
    if s != "" && t.isSpace(s[|s| - 1]) {
      var n := |s| - 1;
      FilterStripRight(t, s[..n]);
      assert s == s[..n] + [s[n]];
      FilterConcat(t, s[..n], [s[n]]);
      assert Filter(t, [s[n]]) == "";
    }
  }

  lemma FilterStrip(t: CharTable, s: string)
    requires Sane(t)
    ensures Filter(t, Strip(t, s)) == Filter(t, s)
  {
    FilterStripLeft(t, s);
    FilterStripRight(t, StripLeft(t, s));
  }

  lemma CleanedFacts(t: CharTable, name: string)
    requires Sane(t)
    ensures Cleaned(t, name) != "" && AllKept(t, Cleaned(t, name))
    ensures Cleaned(t, "") == FALLBACK
    ensures Cleaned(t, Cleaned(t, name)) == Cleaned(t, name)
  {
    FilterOfKept(t, Strip(t, name));
    FilterStrip(t, Cleaned(t, name));
    FilterOfKept(t, Cleaned(t, name));
  }

  /** A kept name cannot start with a prefix that holds a character the filter drops. */
  lemma KeptNeverStartsWith(t: CharTable, s: string, prefix: string)
    requires Sane(t) && AllKept(t, s) && !AllKept(t, prefix)
    ensures !StartsWith(Lower(t, s), Lower(t, prefix))
  {
    var i :| 0 <= i < |prefix| && !Kept(t, prefix[i]);
    assert !Kept(t, Lower(t, prefix)[i]);
    assert i < |s| ==> Kept(t, Lower(t, s)[i]);
  }

  predicate PrefixFits(t: CharTable, p: Settings) {
    Filter(t, p.prefix) == p.prefix || (p.requirePrefix && Filter(t, p.prefix) == "")
  }

  /** Filtering a prefixed name again drops what the filter drops of the prefix, nothing else. */
  lemma CleanedPrefixed(t: CharTable, prefix: string, cleaned: string)
    requires Sane(t) && AllKept(t, cleaned) && cleaned != ""
    ensures Cleaned(t, prefix + cleaned) == Filter(t, prefix) + cleaned
  {
    FilterStrip(t, prefix + cleaned);
    FilterConcat(t, prefix, cleaned);
    FilterOfKept(t, cleaned);
  }

  lemma StampedAgrees(t: CharTable, p: Settings, name: string)
    requires Sane(t) && PrefixFits(t, p)
    ensures EnsurePrefix(t, p, Stamp(t, p, name)) == Stamp(t, p, name)
  {
    var cleaned, stamped := Cleaned(t, name), Stamp(t, p, name);
    CleanedFacts(t, name);
    if stamped != cleaned {
      CleanedPrefixed(t, p.prefix, cleaned);
      if Filter(t, p.prefix) == p.prefix {
        LowerConcat(t, p.prefix, cleaned);
      } else {
        assert "" + cleaned == cleaned;
      }
    }
  }

  lemma StampChanges(t: CharTable, p: Settings)
    requires Sane(t) && !PrefixFits(t, p)
    ensures EnsurePrefix(t, p, Stamp(t, p, "")) != Stamp(t, p, "")
  {
    var kept := Filter(t, p.prefix);
    FilterOfKept(t, p.prefix);
    FilterOfKept(t, kept);
    CleanedFacts(t, "");
    KeptNeverStartsWith(t, FALLBACK, p.prefix);
    assert Stamp(t, p, "") == p.prefix + FALLBACK;
    CleanedPrefixed(t, p.prefix, FALLBACK);
    var again := kept + FALLBACK;
    KeptNeverStartsWith(t, again, p.prefix);
    if p.requirePrefix {
      assert |p.prefix + again| > |p.prefix + FALLBACK|;
    } else if |kept| == |p.prefix| {
      assert again[..|kept|] == kept && (p.prefix + FALLBACK)[..|kept|] == p.prefix;
    }
  }

  // ---------------------------------------------------------------- a prefix that does not fit

  ghost predicate TellsLettersApart(t: CharTable) { t.lower('d') != t.lower('e') }

  lemma {:induction false} FilterShrinks(t: CharTable, s: string)
    ensures |Filter(t, s)| <= |s|
    ensures |Filter(t, s)| == |s| ==> Filter(t, s) == s
    ensures AllKept(t, Filter(t, s))
    ensures AllKept(t, s) ==> Filter(t, s) == s
  {
    if s != "" {
      FilterShrinks(t, s[1..]);
    }
  }

  lemma {:induction false} LastDropped(t: CharTable, s: string) returns (j: nat)
    requires !AllKept(t, s)
    ensures j < |s| && !Kept(t, s[j]) && forall k :: j < k < |s| ==> Kept(t, s[k])
  {
    var n := |s| - 1;
    if Kept(t, s[n]) {
      j := LastDropped(t, s[..n]);
      assert s[..n][j] == s[j] && forall k :: j < k < n ==> s[..n][k] == s[k];
    } else {
      j := n;
    }
  }

  /** A prefix with a dropped character, put before kept text, is not found again later on. */
  lemma DroppedIsNotRepeated(t: CharTable, prefix: string, kept: string, i: nat, part: string)
    requires Sane(t) && !AllKept(t, prefix) && AllKept(t, kept) && 0 < i <= |prefix + kept|
    ensures !(Lower(t, prefix + part) <= Lower(t, prefix + kept)[i..])
  {
    var j := LastDropped(t, prefix);
    var whole, tail := prefix + kept, Lower(t, prefix + kept)[i..];
    assert (prefix + part)[j] == prefix[j];
    assert !Kept(t, Lower(t, prefix + part)[j]);
    if i + j < |whole| {
      assert i + j >= |prefix| ==> whole[i + j] == kept[i + j - |prefix|];
      assert tail[j] == t.lower(whole[i + j]);
    }
  }

  /** A prefix that is not kept whole, provisioned twice over: the stamped name is not in the
      account name. */
  lemma StampNotInProvisioned(t: CharTable, p: Settings, name: string)
    requires Sane(t) && !PrefixFits(t, p) && AllKept(t, name) && |name| == 1
    requires Filter(t, p.prefix) != "" ==> t.lower(name[0]) != t.lower(Filter(t, p.prefix)[0])
    ensures Stamp(t, p, name) == p.prefix + name
    ensures !Contains(Lower(t, EnsurePrefix(t, p, Stamp(t, p, name))), Lower(t, Stamp(t, p, name)))
  {
    var kept, prefix := Filter(t, p.prefix), p.prefix;
    FilterShrinks(t, prefix);
    FilterShrinks(t, name);
    FilterStrip(t, name);
    assert Cleaned(t, name) == name;
    KeptNeverStartsWith(t, name, prefix);
    CleanedPrefixed(t, prefix, name);
    KeptNeverStartsWith(t, kept + name, prefix);
    var stamped, account := prefix + name, EnsurePrefix(t, p, prefix + name);
    if p.requirePrefix {
      assert account == prefix + (kept + name);
      forall i | 0 <= i <= |account| ensures !(Lower(t, stamped) <= Lower(t, account)[i..]) {
        if i == 0 {
          assert Lower(t, stamped)[|prefix|] == t.lower(name[0]);
          assert Lower(t, account)[0..][|prefix|] == t.lower(kept[0]);
        } else {
          DroppedIsNotRepeated(t, prefix, kept + name, i, name);
        }
      }
    } else {
      assert |account| < |stamped|;
    }
  }

  /** For every prefix that does not fit, a name of one letter whose stamped form is not in the name
      that is provisioned. */
  lemma MisfitName(t: CharTable, p: Settings) returns (name: string)
    requires Sane(t) && !PrefixFits(t, p) && TellsLettersApart(t)
    ensures Stamp(t, p, name) != ""
    ensures !Contains(Lower(t, EnsurePrefix(t, p, Stamp(t, p, name))), Lower(t, Stamp(t, p, name)))
  {
    var kept := Filter(t, p.prefix);
    name := if kept != "" && t.lower(kept[0]) == t.lower('d') then "e" else "d";
    assert FALLBACK[0] == 'd' && FALLBACK[1] == 'e';
    StampNotInProvisioned(t, p, name);
  }

  /** The name stamped on the plan, provisioned in the directory and registered for monitoring is
      one name for every input exactly when the filter keeps the whole prefix, or the prefix is
      required and the filter drops all of it. */
  lemma StampIsStableIff(t: CharTable, p: Settings)
    requires Sane(t)
    ensures (forall name :: EnsurePrefix(t, p, Stamp(t, p, name)) == Stamp(t, p, name)) <==> PrefixFits(t, p)
  {
    if PrefixFits(t, p) {
      forall name ensures EnsurePrefix(t, p, Stamp(t, p, name)) == Stamp(t, p, name) {
        StampedAgrees(t, p, name);
      }
    } else {
      StampChanges(t, p);
    }
  }

  // ---------------------------------------------------------------- the deletion guard

  function DnOf(p: Settings, cn: string): string {
    "CN=" + Escape(cn) + "," + p.honeyOu
  }

  /** The attribute value the guard looks at: between the first '=' and the first ','. */
  function FirstValue(dn: string): string {
    var cn := UpTo(dn, ',');
    if '=' in cn then After(cn, '=') else cn
  }

  predicate IsSafeDn(t: CharTable, p: Settings, dn: string) {
    && EndsWith(Lower(t, dn), Lower(t, p.honeyOu))
    && (!p.requirePrefix || p.prefix == "" || StartsWith(Lower(t, FirstValue(dn)), Lower(t, p.prefix)))
  }

  lemma FirstValueOf(p: Settings, cn: string)
    ensures FirstValue(DnOf(p, cn)) == UpTo(Escape(cn), ',')
  {
    var e := Escape(cn);
    assert DnOf(p, cn) == "CN=" + (e + ("," + p.honeyOu));
    UpToInFront("CN=", e + ("," + p.honeyOu), ',');
    UpToInFront(e, "," + p.honeyOu, ',');
    UpToInFront(e, "", ',');
    assert e + "" == e;
    ValueAfterCn(UpTo(e, ','));
  }

  lemma ValueAfterCn(value: string)
    ensures '=' in "CN=" + value && After("CN=" + value, '=') == value
  {
    CutAtFirst("CN", '=', value);
    assert "CN=" + value == "CN" + ['='] + value;
  }

  lemma LowerSuffix(t: CharTable, p: Settings, cn: string)
    ensures EndsWith(Lower(t, DnOf(p, cn)), Lower(t, p.honeyOu))
  {
    var front := "CN=" + Escape(cn) + ",";
    assert DnOf(p, cn) == front + p.honeyOu;
    LowerConcat(t, front, p.honeyOu);
  }

  predicate AllBackslashes(s: string) { forall i :: 0 <= i < |s| ==> s[i] == '\\' }

  /** No special character, except backslashes at the very end. */
  predicate PlainPrefix(s: string) {
    s == "" || (if s[0] in SPECIALS then AllBackslashes(s) else PlainPrefix(s[1..]))
  }

  lemma {:induction false} EscapeBackslashes(s: string)
    requires AllBackslashes(s)
    ensures AllBackslashes(Escape(s)) && |Escape(s)| == 2 * |s|
  {
    if s != "" {
      assert SPECIALS[0] == '\\';
      EscapeBackslashes(s[1..]);
    }
  }

  lemma {:induction false} PlainStaysInFront(s: string)
    requires PlainPrefix(s)
    ensures s <= Escape(s) && ',' !in Escape(s)
  {
    if s != "" {
      if s[0] in SPECIALS {
        EscapeBackslashes(s);
      } else {
        assert SPECIALS[1] == ',';
        PlainStaysInFront(s[1..]);
      }
    }
  }

  lemma LowerTail(t: CharTable, s: string)
    requires s != ""
    ensures Lower(t, s)[1..] == Lower(t, s[1..])
  {
  }

  /** Dropping the first character of both sides of a prefix test. */
  lemma TailsInFront(t: CharTable, s: string, long: string)
    requires s != "" && Lower(t, s) <= Lower(t, long)
    ensures long != "" && t.lower(s[0]) == t.lower(long[0]) && Lower(t, s[1..]) <= Lower(t, long[1..])
  {
    LowerTail(t, s);
    LowerTail(t, long);
  }

  /** Only a backslash lowers like one. */
  lemma SpecialInFront(t: CharTable, c: char)
    requires Sane(t) && t.lower(c) == t.lower('\\')
    ensures c == '\\'
  {
    assert SPECIALS[0] == '\\';
    assert '\\' in SPECIALS;
  }

  /** Against some backslashes and its own escape, only a string of backslashes can be in front. */
  lemma {:induction false} OnlyBackslashes(t: CharTable, s: string, lead: string)
    requires Sane(t) && lead != "" && AllBackslashes(lead)
    requires Lower(t, s) <= Lower(t, lead + Escape(s))
    ensures AllBackslashes(s)
  {
    if s != "" {
      TailsInFront(t, s, lead + Escape(s));
      SpecialInFront(t, s[0]);
      var more := lead[1..] + "\\\\";
      assert (lead + Escape(s))[1..] == more + Escape(s[1..]);
      OnlyBackslashes(t, s[1..], more);
      assert forall i :: 1 <= i < |s| ==> s[i] == s[1..][i - 1];
    }
  }

  lemma {:induction false} InFrontIsPlain(t: CharTable, s: string)
    requires Sane(t) && Lower(t, s) <= Lower(t, Escape(s))
    ensures PlainPrefix(s)
  {
    if s != "" {
      var e := Escape(s);
      TailsInFront(t, s, e);
      if s[0] in SPECIALS {
        SpecialInFront(t, s[0]);
        assert e[1..] == "\\" + Escape(s[1..]);
        OnlyBackslashes(t, s[1..], "\\");
      } else {
        assert e[1..] == Escape(s[1..]);
        InFrontIsPlain(t, s[1..]);
      }
    }
  }

  lemma PrefixedIsSafe(t: CharTable, p: Settings, cleaned: string)
    requires PlainPrefix(p.prefix) && Escape(cleaned) == cleaned && ',' !in cleaned
    ensures Lower(t, p.prefix) <= Lower(t, FirstValue(DnOf(p, p.prefix + cleaned)))
  {
    PlainStaysInFront(p.prefix);
    EscapeAllConcat(p.prefix, cleaned, SPECIALS);
    var e := Escape(p.prefix + cleaned);
    FirstValueOf(p, p.prefix + cleaned);
    UpToInFront(e, "", ',');
    assert e + "" == e;
  }

  lemma BuiltDnIsSafe(t: CharTable, p: Settings, name: string)
    requires Sane(t) && (!p.requirePrefix || PlainPrefix(p.prefix))
    ensures IsSafeDn(t, p, DnOf(p, EnsurePrefix(t, p, name)))
  {
    var cleaned := Cleaned(t, name);
    LowerSuffix(t, p, EnsurePrefix(t, p, name));
    CleanedFacts(t, name);
    EscapeNone(cleaned, SPECIALS);
    assert ',' !in cleaned by { assert SPECIALS[1] == ','; }
    if p.requirePrefix && p.prefix != "" {
      if StartsWith(Lower(t, cleaned), Lower(t, p.prefix)) {
        FirstValueOf(p, cleaned);
        UpToInFront(cleaned, "", ',');
        assert cleaned + "" == cleaned;
      } else {
        PrefixedIsSafe(t, p, cleaned);
      }
    }
  }

  lemma {:induction false} UpToIsPrefix(s: string, c: char)
    ensures UpTo(s, c) <= s
  {
    if s != "" && s[0] != c { UpToIsPrefix(s[1..], c); }
  }

  lemma NotPlainIsUnsafe(t: CharTable, p: Settings, name: string)
    requires Sane(t) && p.requirePrefix && !PlainPrefix(p.prefix)
    ensures !IsSafeDn(t, p, DnOf(p, EnsurePrefix(t, p, name)))
  {
    NotPlainIsNotKept(t, p.prefix);
    CleanedFacts(t, name);
    var cleaned := Cleaned(t, name);
    KeptNeverStartsWith(t, cleaned, p.prefix);
    var full := p.prefix + cleaned;
    FirstValueOf(p, full);
    UpToIsPrefix(Escape(full), ',');
    EscapeAllConcat(p.prefix, cleaned, SPECIALS);
    EscapeGrows(p.prefix);
    var value := UpTo(Escape(full), ',');
    if Lower(t, p.prefix) <= Lower(t, value) {
      assert Lower(t, p.prefix) <= Lower(t, Escape(p.prefix));
      InFrontIsPlain(t, p.prefix);
    }
  }

  /** The teardown guard accepts the DN of every name the provisioner can produce exactly when no
      prefix is required or the prefix has no special character but trailing backslashes. */
  lemma GuardAcceptsEveryBuiltDnIff(t: CharTable, p: Settings)
    requires Sane(t)
    ensures (forall name :: IsSafeDn(t, p, DnOf(p, EnsurePrefix(t, p, name))))
            <==> !p.requirePrefix || PlainPrefix(p.prefix)
  {
    if !p.requirePrefix || PlainPrefix(p.prefix) {
      forall name ensures IsSafeDn(t, p, DnOf(p, EnsurePrefix(t, p, name))) {
        BuiltDnIsSafe(t, p, name);
      }
    } else {
      NotPlainIsUnsafe(t, p, "");
    }
  }

  lemma {:induction false} EscapeGrows(s: string)
    ensures |Escape(s)| >= |s|
  {
    if s != "" { EscapeGrows(s[1..]); }
  }

  lemma {:induction false} NotPlainIsNotKept(t: CharTable, s: string)
    requires Sane(t) && !PlainPrefix(s)
    ensures !AllKept(t, s) && s != ""
  {
    if s[0] in SPECIALS {
      assert !Kept(t, s[0]);
    } else {
      NotPlainIsNotKept(t, s[1..]);
      var i :| 0 <= i < |s[1..]| && !Kept(t, s[1..][i]);
      assert !Kept(t, s[i + 1]);
    }
  }

  // ---------------------------------------------------------------- computer accounts

  function StripDollars(s: string): string {
    if s == "" || s[|s| - 1] != '$' then s else StripDollars(s[..|s| - 1])
  }

  function ComputerSam(name: string): string {
    if name != "" && name[|name| - 1] == '$' then name else name + "$"
  }

  /** A provisioned name never ends in '$', so a computer's CN is its name and its account name
      is the name and one '$'. */
  lemma ProvisionedNameHasNoDollar(t: CharTable, p: Settings, name: string)
    requires Sane(t)
    ensures var full := EnsurePrefix(t, p, name);
      full != "" && StripDollars(full) == full && ComputerSam(full) == full + "$"
  {
    CleanedFacts(t, name);
    var cleaned, full := Cleaned(t, name), EnsurePrefix(t, p, name);
    assert full[|full| - 1] == cleaned[|cleaned| - 1];
    assert Kept(t, full[|full| - 1]);
  }
}
