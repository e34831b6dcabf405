/** Putting a backslash before chosen characters: one replacement at a time, as the printers do
    it, and in a single pass, as one reasons about it. */
module Escaping {
  /** Python's `s.replace(c, "\\" + c)` for one character. */
  function EscapeOne(s: string, c: char): string {
    if s == "" then "" else (if s[0] == c then ['\\', c] else [s[0]]) + EscapeOne(s[1..], c)
  }

  /** One left-to-right pass that puts a backslash before every character of `cs`. */
  function EscapeAll(s: string, cs: seq<char>): string {
    if s == "" then "" else (if s[0] in cs then ['\\', s[0]] else [s[0]]) + EscapeAll(s[1..], cs)
  }

  lemma {:induction false} EscapeOneConcat(a: string, b: string, c: char)
    ensures EscapeOne(a + b, c) == EscapeOne(a, c) + EscapeOne(b, c)
  {
    if a == "" {
      assert a + b == b;
    } else {
      EscapeOneConcat(a[1..], b, c);
      assert (a + b)[1..] == a[1..] + b;
      var head := if a[0] == c then ['\\', c] else [a[0]];
      assert head + (EscapeOne(a[1..], c) + EscapeOne(b, c)) == (head + EscapeOne(a[1..], c)) + EscapeOne(b, c);
    }
  }

  /** A later replacement leaves the work of the earlier ones alone, because the backslash came first. */
  lemma {:induction false} EscapeOneMore(s: string, cs: seq<char>, c: char)
    requires c !in cs && (cs == [] || c != '\\')
    ensures EscapeOne(EscapeAll(s, cs), c) == EscapeAll(s, cs + [c])
  {
    if s != "" {
      var head := if s[0] in cs then ['\\', s[0]] else [s[0]];
      EscapeOneMore(s[1..], cs, c);
      EscapeOneConcat(head, EscapeAll(s[1..], cs), c);
      assert EscapeOne(head, c) == if s[0] in cs + [c] then ['\\', s[0]] else [s[0]] by {
        assert head[1..] == if s[0] in cs then [s[0]] else "";
      }
    }
  }

  lemma {:induction false} EscapeNone(s: string, cs: seq<char>)
    requires forall i :: 0 <= i < |s| ==> s[i] !in cs
    ensures EscapeAll(s, cs) == s
  {
    if s != "" {
      EscapeNone(s[1..], cs);
    }
  }

  lemma {:induction false} EscapeAllConcat(a: string, b: string, cs: seq<char>)
    ensures EscapeAll(a + b, cs) == EscapeAll(a, cs) + EscapeAll(b, cs)
  {
    if a == "" {
      assert a + b == b;
    } else {
      EscapeAllConcat(a[1..], b, cs);
      assert (a + b)[1..] == a[1..] + b;
      var head := if a[0] in cs then ['\\', a[0]] else [a[0]];
      assert head + (EscapeAll(a[1..], cs) + EscapeAll(b, cs)) == (head + EscapeAll(a[1..], cs)) + EscapeAll(b, cs);
    }
  }
}
