/** Strings and the small amount of Python string behaviour the model needs. */
module Text {
  datatype Option<+T> = None | Some(value: T)

  /** The host's Unicode tables, one character at a time: `str.lower`, `str.isalnum`
      and the characters `str.strip` removes.  Nothing is assumed of them unless a
      lemma says so. */
  datatype CharTable = CharTable(lower: char -> char, isAlnum: char -> bool, isSpace: char -> bool)

  /** Python's `s or default`. */
  function Or(s: string, default: string): string { if s != "" then s else default }

  function Lower(t: CharTable, s: string): (r: string)
    ensures |r| == |s|
    ensures forall i :: 0 <= i < |s| ==> r[i] == t.lower(s[i])
  {
    seq(|s|, i requires 0 <= i < |s| => t.lower(s[i]))
  }

  lemma LowerConcat(t: CharTable, a: string, b: string)
    ensures Lower(t, a + b) == Lower(t, a) + Lower(t, b)
  {
  }

  lemma Regroup(a: string, b: string, c: string, d: string)
    ensures (a + b + c) + d == a + (b + (c + d))
  {
  }

  lemma Associative<T>(a: seq<T>, b: seq<T>, c: seq<T>)
    ensures (a + b) + c == a + (b + c)
  {
  }

  lemma NothingAfter<T>(a: seq<T>, none: seq<T>)
    requires none == []
    ensures a + none == a
  {
  }

  function StripLeft(t: CharTable, s: string): string {
    if s == "" || !t.isSpace(s[0]) then s else StripLeft(t, s[1..])
  }

  function StripRight(t: CharTable, s: string): string {
    if s == "" || !t.isSpace(s[|s| - 1]) then s else StripRight(t, s[..|s| - 1])
  }

  function Strip(t: CharTable, s: string): string {
    StripRight(t, StripLeft(t, s))
  }

  /** A string that starts and ends with something other than white space is its own strip. */
  lemma StripOfTrimmed(t: CharTable, s: string)
    requires s == "" || (!t.isSpace(s[0]) && !t.isSpace(s[|s| - 1]))
    ensures Strip(t, s) == s
  {
  }

  predicate AllSpace(t: CharTable, s: string) { forall i :: 0 <= i < |s| ==> t.isSpace(s[i]) }

  lemma {:induction false} StripLeftOfBlank(t: CharTable, g: string, s: string)
    requires AllSpace(t, g)
    ensures StripLeft(t, g + s) == StripLeft(t, s)
  {
    if g == "" {
      assert g + s == s;
    } else {
      assert (g + s)[1..] == g[1..] + s;
      StripLeftOfBlank(t, g[1..], s);
    }
  }

  lemma {:induction false} StripRightOfBlank(t: CharTable, s: string, g: string)
    requires AllSpace(t, g)
    ensures StripRight(t, s + g) == StripRight(t, s)
  {
    if g == "" {
      assert s + g == s;
    } else {
      var n := |g| - 1;
      assert (s + g)[..|s + g| - 1] == s + g[..n];
      StripRightOfBlank(t, s, g[..n]);
    }
  }

  /** Stripping leaves a stretch of the string. */
  lemma {:induction false} StripLeftIsSuffix(t: CharTable, s: string)
    ensures |StripLeft(t, s)| <= |s| && StripLeft(t, s) == s[|s| - |StripLeft(t, s)|..]
    ensures StripLeft(t, s) == "" || !t.isSpace(StripLeft(t, s)[0])
  {
    if s != "" && t.isSpace(s[0]) {
      StripLeftIsSuffix(t, s[1..]);
    }
  }

  lemma {:induction false} StripRightIsPrefix(t: CharTable, s: string)
    ensures |StripRight(t, s)| <= |s| && StripRight(t, s) == s[..|StripRight(t, s)|]
    ensures StripRight(t, s) == "" || !t.isSpace(StripRight(t, s)[|StripRight(t, s)| - 1])
  {
    if s != "" && t.isSpace(s[|s| - 1]) {
      StripRightIsPrefix(t, s[..|s| - 1]);
    }
  }

  predicate Trimmed(t: CharTable, s: string) {
    s == "" || (!t.isSpace(s[0]) && !t.isSpace(s[|s| - 1]))
  }

  lemma StripIsTrimmed(t: CharTable, s: string)
    ensures Trimmed(t, Strip(t, s))
    ensures forall c :: c in Strip(t, s) ==> c in s
  {
    StripLeftIsSuffix(t, s);
    StripRightIsPrefix(t, StripLeft(t, s));
  }

  lemma StripTwice(t: CharTable, s: string)
    ensures Strip(t, Strip(t, s)) == Strip(t, s)
  {
    StripIsTrimmed(t, s);
    StripOfTrimmed(t, Strip(t, s));
  }

  /** Only white space strips to nothing. */
  lemma {:induction false} StripIsBlankIff(t: CharTable, s: string)
    ensures Strip(t, s) == "" <==> AllSpace(t, s)
  {
    if AllSpace(t, s) {
      StripLeftOfBlank(t, s, "");
      NothingAfter(s, "");
    } else {
      StripLeftKeepsRest(t, s);
      StripRightKeepsRest(t, StripLeft(t, s));
    }
  }

  lemma {:induction false} StripLeftKeepsRest(t: CharTable, s: string)
    ensures AllSpace(t, StripLeft(t, s)) ==> AllSpace(t, s)
  {
    if s != "" && t.isSpace(s[0]) {
      StripLeftKeepsRest(t, s[1..]);
      assert s == [s[0]] + s[1..];
    }
  }

  lemma {:induction false} StripRightKeepsRest(t: CharTable, s: string)
    ensures AllSpace(t, StripRight(t, s)) ==> AllSpace(t, s)
  {
    if s != "" && t.isSpace(s[|s| - 1]) {
      StripRightKeepsRest(t, s[..|s| - 1]);
      assert s == s[..|s| - 1] + [s[|s| - 1]];
    }
  }

  predicate StartsWith(s: string, p: string) { p <= s }

  predicate EndsWith(s: string, p: string) {
    |p| <= |s| && s[|s| - |p|..] == p
  }

  /** Python's `sub in s`. */
  predicate Contains(s: string, sub: string) {
    exists i | 0 <= i <= |s| :: sub <= s[i..]
  }

  lemma ContainsAfterLower(t: CharTable, s: string, sub: string)
    requires Contains(s, sub)
    ensures Contains(Lower(t, s), Lower(t, sub))
  {
    var i :| 0 <= i <= |s| && sub <= s[i..];
    assert Lower(t, sub) <= Lower(t, s)[i..];
  }

  // ---------------------------------------------------------------- text, ignoring case

  /** `part` stands in `s` at `i`, character by character after lower-casing. */
  predicate FoldedAt(t: CharTable, part: string, s: string, i: int) {
    0 <= i <= |s| - |part| && forall k :: 0 <= k < |part| ==> t.lower(s[i + k]) == t.lower(part[k])
  }

  predicate FoldedIn(t: CharTable, part: string, s: string) {
    exists i | 0 <= i <= |s| :: FoldedAt(t, part, s, i)
  }

  predicate FoldedSame(t: CharTable, a: string, b: string) {
    |a| == |b| && FoldedAt(t, a, b, 0)
  }

  lemma LowersSame(t: CharTable, a: string, b: string)
    ensures Lower(t, a) == Lower(t, b) <==> FoldedSame(t, a, b)
  {
    if Lower(t, a) == Lower(t, b) {
      assert |a| == |Lower(t, a)| == |Lower(t, b)| == |b|;
      forall k | 0 <= k < |a| ensures t.lower(b[0 + k]) == t.lower(a[k]) {
        assert Lower(t, a)[k] == Lower(t, b)[k];
      }
    }
  }

  lemma LowersContain(t: CharTable, s: string, part: string)
    ensures Contains(Lower(t, s), Lower(t, part)) <==> FoldedIn(t, part, s)
  {
    var s', part' := Lower(t, s), Lower(t, part);
    if i :| 0 <= i <= |s'| && part' <= s'[i..] {
      forall k | 0 <= k < |part| ensures t.lower(s[i + k]) == t.lower(part[k]) {
        assert part'[k] == s'[i..][k];
      }
      assert FoldedAt(t, part, s, i);
    }
    if i :| 0 <= i <= |s| && FoldedAt(t, part, s, i) {
      assert part' <= s'[i..];
    }
  }

  // ---------------------------------------------------------------- cutting

  /** The part of `s` before the first `c` (all of `s` if there is none). */
  function UpTo(s: string, c: char): (r: string)
    ensures |r| <= |s| && (c in s ==> |r| < |s|)
  {
    if s == "" || s[0] == c then "" else [s[0]] + UpTo(s[1..], c)
  }

  /** Everything after the first `c`. */
  function After(s: string, c: char): string
    requires c in s
  {
    s[|UpTo(s, c)| + 1..]
  }

  lemma {:induction false} UpToInFront(a: string, b: string, c: char)
    ensures UpTo(a + b, c) == if c in a then UpTo(a, c) else a + UpTo(b, c)
  {
    if a == "" {
      assert a + b == b;
    } else {
      assert (a + b)[1..] == a[1..] + b;
      if a[0] != c {
        UpToInFront(a[1..], b, c);
        assert a == [a[0]] + a[1..];
        Associative([a[0]], a[1..], UpTo(b, c));
      }
    }
  }

  /** `a` ends at the first `c` of `a + [c] + b` when it has none itself. */
  lemma CutAtFirst(a: string, c: char, b: string)
    requires c !in a
    ensures UpTo(a + [c] + b, c) == a && c in a + [c] + b && After(a + [c] + b, c) == b
  {
    var s := a + [c] + b;
    assert s == a + ([c] + b);
    UpToInFront(a, [c] + b, c);
    assert s[|a|] == c;
  }

  /** Python's `s.split(c)`. */
  function SplitOn(s: string, c: char): (r: seq<string>)
    ensures r != []
    decreases |s|
  {
    if c in s then [UpTo(s, c)] + SplitOn(After(s, c), c) else [s]
  }

  lemma SplitAtFirst(a: string, c: char, b: string)
    requires c !in a
    ensures SplitOn(a + [c] + b, c) == [a] + SplitOn(b, c)
  {
    CutAtFirst(a, c, b);
  }

  lemma {:induction false} UpToHasNone(s: string, c: char)
    ensures c !in UpTo(s, c)
  {
    if s != "" && s[0] != c {
      UpToHasNone(s[1..], c);
    }
  }

  lemma {:induction false} SplitPiecesHaveNone(s: string, c: char)
    ensures forall p :: p in SplitOn(s, c) ==> c !in p
    decreases |s|
  {
    if c in s {
      UpToHasNone(s, c);
      SplitPiecesHaveNone(After(s, c), c);
    }
  }

  function DigitChar(d: nat): char
    requires d < 10
  {
    '0' + d as char
  }

  predicate IsDigit(c: char) { '0' <= c <= '9' }

  function DigitValue(c: char): nat
    requires IsDigit(c)
  {
    (c - '0') as nat
  }

  function NatToString(n: nat): (r: string)
    ensures r != "" && forall i :: 0 <= i < |r| ==> IsDigit(r[i])
  {
    if n < 10 then [DigitChar(n)] else NatToString(n / 10) + [DigitChar(n % 10)]
  }

  /** Python's `str` on an integer. */
  function IntToString(n: int): string {
    if n < 0 then "-" + NatToString(-n) else NatToString(n)
  }

  /** Python's order on strings: code points, left to right. */
  predicate LexLe(a: string, b: string) {
    a == "" || (b != "" && (a[0] < b[0] || (a[0] == b[0] && LexLe(a[1..], b[1..]))))
  }

  lemma {:induction false} LexTotal(a: string, b: string)
    ensures LexLe(a, b) || LexLe(b, a)
    ensures LexLe(a, b) && LexLe(b, a) ==> a == b
  {
    if a != "" && b != "" && a[0] == b[0] {
      LexTotal(a[1..], b[1..]);
      assert a == [a[0]] + a[1..] && b == [b[0]] + b[1..];
    }
  }

  lemma {:induction false} LexTransitive(a: string, b: string, c: string)
    requires LexLe(a, b) && LexLe(b, c)
    ensures LexLe(a, c)
  {
    if a != "" && a[0] == b[0] && b[0] == c[0] {
      LexTransitive(a[1..], b[1..], c[1..]);
    }
  }

  predicate LexLt(a: string, b: string) { LexLe(a, b) && a != b }

  // ---------------------------------------------------------------- counting

  /** The numbers below `k` for which `holds`. */
  ghost function Below(holds: nat -> bool, k: nat): set<nat> { set j: nat | j < k && holds(j) }

  lemma OneBelow(holds: nat -> bool, k: nat)
    ensures Below(holds, k + 1) == if holds(k) then Below(holds, k) + {k} else Below(holds, k)
    ensures k !in Below(holds, k)
  {
  }

  lemma {:induction false} CountsOnce(holds: nat -> bool, count: nat -> nat, k: nat)
    requires count(0) == 0 && forall j: nat :: j < k ==> count(j + 1) == count(j) + (if holds(j) then 1 else 0)
    ensures count(k) == |Below(holds, k)|
  {
    if k > 0 {
      CountsOnce(holds, count, k - 1);
      OneBelow(holds, k - 1);
      assert count((k - 1) + 1) == count(k - 1) + (if holds(k - 1) then 1 else 0);
    } else {
      assert Below(holds, 0) == {};
    }
  }
}
