/** Reading a directory page by page against reading it at once, and keeping each group
    membership once. */
module Paging {
  import opened Text

  function First<E>(s: seq<E>, n: nat): (r: seq<E>)
    ensures |r| == if |s| <= n then |s| else n
  {
    if |s| <= n then s else s[..n]
  }

  function AtLeastOne(n: int): (r: nat)
    ensures r >= 1 && r >= n && (r == n || r == 1)
  {
    if n < 1 then 1 else n
  }

  // ---------------------------------------------------------------- the server

  /** What one search leaves on the connection.  `ok` is the call's result, and `None` the empty
      cookie.  A cookie means nothing to the client. */
  datatype Page<+E> = Page(ok: bool, entries: seq<E>, cookie: Option<nat>)

  /** The answer to a search: how many went before it, the cookie sent (`None` at first), and the page
      size asked for.  What an answer depends on of the searches before it, their number stands for. */
  type Server<!E> = (nat, Option<nat>, nat) -> Page<E>

  /** A page is the next stretch of the result list, and may be empty.  The cookie is empty only when
      nothing is left, as section 3 of RFC 2696 has it, or with an error. */
  predicate IsPage<E(==)>(p: Page<E>, at: nat, all: seq<E>) {
    && at <= |all| && p.entries <= all[at..]
    && (p.ok && p.cookie.None? ==> at + |p.entries| == |all|)
  }

  // ---------------------------------------------------------------- the loop

  /** The whole answer: the first `cap` entries, and a flag raised when the cap is reached. */
  datatype Found<+E> = Found(entries: seq<E>, truncated: bool)

  function Unpaged<E>(all: seq<E>, cap: nat): Found<E> {
    Found(First(all, cap), |all| >= cap)
  }

  datatype Progress<+E> = Going(entries: seq<E>, cookie: Option<nat>) | Ended(found: Found<E>)

  function SizeFor(perPage: nat, cap: nat, have: nat): (size: nat)
    requires have < cap
    ensures perPage >= 1 ==> size >= 1
    ensures size <= perPage && size <= cap - have && (size == perPage || size == cap - have)
  {
    if perPage <= cap - have then perPage else cap - have
  }

  /** The page the loop gets next, after `k` searches. */
  function NextPage<E>(server: Server<E>, perPage: nat, cap: nat, k: nat, p: Progress<E>): Page<E>
    requires p.Going? && |p.entries| < cap
  {
    server(k, p.cookie, SizeFor(perPage, cap, |p.entries|))
  }

  /** One turn of the loop, against any server. */
  function Turn<E>(server: Server<E>, perPage: nat, cap: nat, k: nat, p: Progress<E>): Progress<E> {
    if p.Ended? then p
    else if |p.entries| >= cap then Ended(Found(p.entries, true))
    else
      var page := NextPage(server, perPage, cap, k, p);
      if !page.ok && page.entries == [] then Ended(Found(p.entries, false))
      else
        var entries := First(p.entries + page.entries, cap);
        if page.cookie.None? then Ended(Found(entries, |entries| >= cap)) else Going(entries, page.cookie)
  }

  function Turns<E>(server: Server<E>, perPage: nat, cap: nat, k: nat): Progress<E> {
    if k == 0 then Going([], None) else Turn(server, perPage, cap, k - 1, Turns(server, perPage, cap, k - 1))
  }

  ghost predicate Ends<E>(server: Server<E>, perPage: nat, cap: nat) {
    exists k: nat :: Turns(server, perPage, cap, k).Ended?
  }

  lemma {:induction false} EndedStays<E>(server: Server<E>, perPage: nat, cap: nat, k: nat, more: nat)
    requires Turns(server, perPage, cap, k).Ended?
    ensures Turns(server, perPage, cap, k + more) == Turns(server, perPage, cap, k)
  {
    if more > 0 {
      EndedStays(server, perPage, cap, k, more - 1);
    }
  }

  /** The inner loop: entries are taken one by one until the cap. */
  method TakePage<E>(entries: seq<E>, page: seq<E>, cap: nat) returns (grown: seq<E>, truncated: bool)
    requires |entries| < cap
    ensures grown == First(entries + page, cap)
    ensures truncated <==> |grown| >= cap
  {
    grown, truncated := entries, false;
    for k := 0 to |page|
      invariant |grown| < cap && !truncated
      invariant grown == entries + page[..k]
    {
      grown := grown + [page[k]];
      if |grown| >= cap {
        truncated := true;
        break;
      }
    }
  }

  /** The loop, against any server that does not keep it going for ever. */
  method RunLoop<E>(server: Server<E>, perPage: nat, cap: nat) returns (found: Found<E>, pages: nat)
    requires cap >= 1 && Ends(server, perPage, cap)
    ensures Turns(server, perPage, cap, pages + 1) == Ended(found)
    ensures pages > 0 ==> Turns(server, perPage, cap, pages - 1).Going?
  {
    ghost var last: nat :| Turns(server, perPage, cap, last).Ended?;
    var entries: seq<E> := [];
    var truncated := false;
    var cookie: Option<nat> := None;
    pages := 0;
    while |entries| < cap
      invariant Turns(server, perPage, cap, pages) == Going(entries, cookie)
      invariant pages > 0 ==> Turns(server, perPage, cap, pages - 1).Going?
      invariant truncated <==> |entries| >= cap
      invariant pages <= last
      decreases last - pages
    {
      assert pages != last;
      var page := server(pages, cookie, SizeFor(perPage, cap, |entries|));
      pages := pages + 1;
      if !page.ok && page.entries == [] {
        break;
      }
      entries, truncated := TakePage(entries, page.entries, cap);
      cookie := page.cookie;
      if cookie.None? {
        break;
      }
    }
    found := Found(entries, truncated);
    assert Turns(server, perPage, cap, pages + 1) == Turn(server, perPage, cap, pages, Turns(server, perPage, cap, pages));
  }

  // ---------------------------------------------------------------- when it ends

  /** After `k` turns the loop stands below the cap and its next page is empty with a cookie, and
      reported as ok. */
  predicate StallsAt<E(==)>(server: Server<E>, perPage: nat, cap: nat, k: nat) {
    var p := Turns(server, perPage, cap, k);
    p.Going? && |p.entries| < cap &&
      var page := NextPage(server, perPage, cap, k, p);
      page.ok && page.entries == [] && page.cookie.Some?
  }

  /** From `k` turns on there is nothing but such pages. */
  ghost predicate StallsFrom<E>(server: Server<E>, perPage: nat, cap: nat, k: nat) {
    forall j: nat :: j >= k ==> StallsAt(server, perPage, cap, j)
  }

  ghost predicate StallsForEver<E>(server: Server<E>, perPage: nat, cap: nat) {
    exists k: nat :: StallsFrom(server, perPage, cap, k)
  }

  /** How many of the first `k` turns got such a page. */
  function StallCount<E(==)>(server: Server<E>, perPage: nat, cap: nat, k: nat): nat {
    if k == 0 then 0
    else StallCount(server, perPage, cap, k - 1) + (if StallsAt(server, perPage, cap, k - 1) then 1 else 0)
  }

  /** It counts each of them once. */
  lemma StallCountIs<E>(server: Server<E>, perPage: nat, cap: nat, k: nat)
    ensures StallCount(server, perPage, cap, k) == |set j: nat | j < k && StallsAt(server, perPage, cap, j)|
  {
    var holds := (j: nat) => StallsAt(server, perPage, cap, j);
    CountsOnce(holds, (j: nat) => StallCount(server, perPage, cap, j), k);
    assert Below(holds, k) == set j: nat | j < k && StallsAt(server, perPage, cap, j);
  }

  /** A turn that goes on took an entry or stalled, and below the cap none is lost. */
  lemma TurnTakesOrStalls<E>(server: Server<E>, perPage: nat, cap: nat, k: nat)
    requires Turns(server, perPage, cap, k + 1).Going?
    ensures var before, after := Turns(server, perPage, cap, k), Turns(server, perPage, cap, k + 1);
      && before.Going? && |before.entries| < cap && before.entries <= after.entries && |after.entries| <= cap
      && (!StallsAt(server, perPage, cap, k) ==> |after.entries| > |before.entries|)
  {
  }

  /** Every turn took an entry or stalled. */
  lemma {:induction false} TurnsAddUp<E>(server: Server<E>, perPage: nat, cap: nat, k: nat)
    requires Turns(server, perPage, cap, k).Going?
    ensures |Turns(server, perPage, cap, k).entries| + StallCount(server, perPage, cap, k) >= k
  {
    if k > 0 {
      TurnTakesOrStalls(server, perPage, cap, k - 1);
      TurnsAddUp(server, perPage, cap, k - 1);
    }
  }

  lemma {:induction false} EntriesOnlyGrow<E>(server: Server<E>, perPage: nat, cap: nat, k: nat, more: nat)
    requires Turns(server, perPage, cap, k + more).Going?
    ensures var p := Turns(server, perPage, cap, k);
      p.Going? && |p.entries| <= |Turns(server, perPage, cap, k + more).entries|
  {
    if more > 0 {
      TurnTakesOrStalls(server, perPage, cap, k + more - 1);
      EntriesOnlyGrow(server, perPage, cap, k, more - 1);
    }
  }

  lemma OneMore<E>(server: Server<E>, perPage: nat, cap: nat, before: nat, j: nat)
    requires !Ends(server, perPage, cap) && j >= before && !StallsAt(server, perPage, cap, j)
    ensures var p, next := Turns(server, perPage, cap, before), Turns(server, perPage, cap, j + 1);
      p.Going? && next.Going? && |next.entries| > |p.entries|
  {
    assert !Turns(server, perPage, cap, j + 1).Ended?;
    TurnTakesOrStalls(server, perPage, cap, j);
    assert before + (j - before) == j;
    EntriesOnlyGrow(server, perPage, cap, before, j - before);
  }

  lemma FullEnds<E>(server: Server<E>, perPage: nat, cap: nat, k: nat)
    requires Turns(server, perPage, cap, k).Going? && |Turns(server, perPage, cap, k).entries| >= cap
    ensures Ends(server, perPage, cap)
  {
    assert Turns(server, perPage, cap, k + 1).Ended?;
  }

  /** If it never ends but keeps getting other pages too, it comes to hold any number of entries. */
  lemma {:induction false} EntriesPile<E>(server: Server<E>, perPage: nat, cap: nat, n: nat) returns (k: nat)
    requires !Ends(server, perPage, cap) && !StallsForEver(server, perPage, cap)
    ensures Turns(server, perPage, cap, k).Going? && |Turns(server, perPage, cap, k).entries| >= n
  {
    if n == 0 {
      k := 0;
    } else {
      var before := EntriesPile(server, perPage, cap, n - 1);
      assert !StallsFrom(server, perPage, cap, before);
      var j: nat :| j >= before && !StallsAt(server, perPage, cap, j);
      k := j + 1;
      OneMore(server, perPage, cap, before, j);
    }
  }

  /** Against any server at all the loop goes on for ever exactly when from some turn on it gets,
      below the cap, nothing but empty pages with a cookie and ok. */
  lemma EndsIff<E>(server: Server<E>, perPage: nat, cap: nat)
    ensures Ends(server, perPage, cap) <==> !StallsForEver(server, perPage, cap)
  {
    if k: nat :| StallsFrom(server, perPage, cap, k) {
      forall j: nat ensures !Turns(server, perPage, cap, j).Ended? {
        var later := if j <= k then k else j;
        assert StallsAt(server, perPage, cap, later);
        if Turns(server, perPage, cap, j).Ended? {
          EndedStays(server, perPage, cap, j, later - j);
        }
      }
    } else if !Ends(server, perPage, cap) {
      var k := EntriesPile(server, perPage, cap, cap);
      FullEnds(server, perPage, cap, k);
    }
  }

  // ---------------------------------------------------------------- with what

  /** In this conversation the server sends `all`, one stretch after the other. */
  ghost predicate Pages<E>(server: Server<E>, all: seq<E>, perPage: nat, cap: nat) {
    forall k: nat :: SendsNext(server, all, perPage, cap, k)
  }

  predicate SendsNext<E(==)>(server: Server<E>, all: seq<E>, perPage: nat, cap: nat, k: nat) {
    var p := Turns(server, perPage, cap, k);
    p.Going? && |p.entries| < cap ==> IsPage(NextPage(server, perPage, cap, k, p), |p.entries|, all)
  }

  /** After `k` turns the loop stands below the cap and is stopped by a page reported as not ok, empty
      or without a cookie, with which neither the cap nor the end of the list is reached. */
  predicate CutAt<E(==)>(server: Server<E>, perPage: nat, cap: nat, total: nat, k: nat) {
    var p := Turns(server, perPage, cap, k);
    p.Going? && |p.entries| < cap &&
      var page := NextPage(server, perPage, cap, k, p);
      && !page.ok && (page.entries == [] || page.cookie.None?)
      && |p.entries| + |page.entries| < total && |p.entries| + |page.entries| < cap
  }

  ghost predicate CutShort<E>(server: Server<E>, perPage: nat, cap: nat, total: nat) {
    exists k: nat :: CutAt(server, perPage, cap, total, k)
  }

  function Taken<E>(p: Progress<E>): seq<E> {
    if p.Going? then p.entries else p.found.entries
  }

  /** Whatever the turn, the entries taken are the first of the list. */
  lemma {:induction false} TurnsKeepCourse<E>(server: Server<E>, all: seq<E>, perPage: nat, cap: nat, k: nat)
    requires Pages(server, all, perPage, cap)
    ensures var taken := Taken(Turns(server, perPage, cap, k)); taken <= all && |taken| <= cap
  {
    if k > 0 {
      var before := Turns(server, perPage, cap, k - 1);
      TurnsKeepCourse(server, all, perPage, cap, k - 1);
      if before.Going? && |before.entries| < cap {
        assert SendsNext(server, all, perPage, cap, k - 1);
        StretchesJoin(before.entries, NextPage(server, perPage, cap, k - 1, before).entries, all);
      }
    }
  }

  lemma StretchesJoin<E>(entries: seq<E>, more: seq<E>, all: seq<E>)
    requires entries <= all && more <= all[|entries|..]
    ensures entries + more <= all
  {
    assert entries + all[|entries|..] == all;
  }

  /** What the turn that ends gives. */
  lemma LastTurn<E>(server: Server<E>, all: seq<E>, perPage: nat, cap: nat, k: nat)
    requires Pages(server, all, perPage, cap)
    requires Turns(server, perPage, cap, k).Going? && Turns(server, perPage, cap, k + 1).Ended?
    ensures Turns(server, perPage, cap, k + 1).found == Unpaged(all, cap) <==> !CutAt(server, perPage, cap, |all|, k)
  {
    var p := Turns(server, perPage, cap, k);
    TurnsKeepCourse(server, all, perPage, cap, k);
    if |p.entries| < cap {
      assert SendsNext(server, all, perPage, cap, k);
      var page := NextPage(server, perPage, cap, k, p);
      StretchesJoin(p.entries, page.entries, all);
      assert page.entries == [] ==> First(p.entries + page.entries, cap) == p.entries;
    }
  }

  /** Ended by turn `k`, the loop gave the unpaged answer exactly when it was not cut short. */
  lemma {:induction false} AnswerIff<E>(server: Server<E>, all: seq<E>, perPage: nat, cap: nat, k: nat)
    requires Pages(server, all, perPage, cap) && Turns(server, perPage, cap, k).Ended?
    ensures Turns(server, perPage, cap, k).found == Unpaged(all, cap) <==> !CutShort(server, perPage, cap, |all|)
  {
    if Turns(server, perPage, cap, k - 1).Ended? {
      AnswerIff(server, all, perPage, cap, k - 1);
    } else {
      LastTurn(server, all, perPage, cap, k - 1);
      forall j: nat | j != k - 1 ensures !CutAt(server, perPage, cap, |all|, j) {
        NotCutElsewhere(server, perPage, cap, |all|, k, j);
      }
      if CutShort(server, perPage, cap, |all|) {
        assert CutAt(server, perPage, cap, |all|, k - 1);
      } else {
        assert !CutAt(server, perPage, cap, |all|, k - 1);
      }
    }
  }

  lemma NotCutElsewhere<E>(server: Server<E>, perPage: nat, cap: nat, total: nat, k: nat, j: nat)
    requires k > 0 && Turns(server, perPage, cap, k - 1).Going? && Turns(server, perPage, cap, k).Ended? && j != k - 1
    ensures !CutAt(server, perPage, cap, total, j)
  {
    if j >= k {
      EndedStays(server, perPage, cap, k, j - k);
    } else if CutAt(server, perPage, cap, total, j) {
      assert Turns(server, perPage, cap, j + 1).Ended?;
      EndedStays(server, perPage, cap, j + 1, k - 1 - (j + 1));
    }
  }

  lemma PagesAreFew<E>(server: Server<E>, all: seq<E>, perPage: nat, cap: nat, pages: nat)
    requires Pages(server, all, perPage, cap) && (pages > 0 ==> Turns(server, perPage, cap, pages - 1).Going?)
    ensures pages <= |all| + StallCount(server, perPage, cap, pages) + 1
  {
    if pages > 0 {
      TurnsAddUp(server, perPage, cap, pages - 1);
      TurnsKeepCourse(server, all, perPage, cap, pages - 1);
    }
  }

  /** The paged read.  It asks for termination, which `EndsIff` explains; and for every page size the
      answer is that of one unpaged read - the first min(n, cap) entries, the flag exactly when n is
      at least the cap - unless a page reported as not ok cut it short.  It takes one search more,
      at most, than there are entries and pages without any. */
  method PagedSearch<E>(server: Server<E>, pageSize: int, maxObjects: int, ghost all: seq<E>)
    returns (found: Found<E>, pages: nat)
    requires Pages(server, all, AtLeastOne(pageSize), AtLeastOne(maxObjects))
    requires Ends(server, AtLeastOne(pageSize), AtLeastOne(maxObjects))
    ensures Turns(server, AtLeastOne(pageSize), AtLeastOne(maxObjects), pages + 1) == Ended(found)
    ensures found == Unpaged(all, AtLeastOne(maxObjects))
       <==> !CutShort(server, AtLeastOne(pageSize), AtLeastOne(maxObjects), |all|)
    ensures found.entries <= all
    ensures pages <= |all| + StallCount(server, AtLeastOne(pageSize), AtLeastOne(maxObjects), pages) + 1
  {
    var perPage, cap := AtLeastOne(pageSize), AtLeastOne(maxObjects);
    found, pages := RunLoop(server, perPage, cap);
    AnswerIff(server, all, perPage, cap, pages + 1);
    TurnsKeepCourse(server, all, perPage, cap, pages + 1);
    PagesAreFew(server, all, perPage, cap, pages);
  }

  // ---------------------------------------------------------------- kinds of server

  /** A server whose cookies stand for places in the list: it goes on from the place its cookie
      stands for, whatever else its answer depends on. */
  ghost predicate Honours<E(!new)>(server: Server<E>, place: Option<nat> -> nat, all: seq<E>) {
    && place(None) == 0
    && forall k: nat, c: Option<nat>, size: nat :: size >= 1 && place(c) <= |all| ==>
         var page := server(k, c, size);
         && IsPage(page, place(c), all)
         && (page.cookie.Some? ==> place(page.cookie) == place(c) + |page.entries|)
  }

  lemma {:induction false} CookieTellsPlace<E(!new)>(
      server: Server<E>, place: Option<nat> -> nat, all: seq<E>, perPage: nat, cap: nat, k: nat)
    requires Honours(server, place, all) && perPage >= 1
    ensures SendsNext(server, all, perPage, cap, k)
    ensures var p := Turns(server, perPage, cap, k); p.Going? && |p.entries| < cap ==> place(p.cookie) == |p.entries|
  {
    if k > 0 {
      CookieTellsPlace(server, place, all, perPage, cap, k - 1);
    }
  }

  /** Such a server sends its list in every conversation. */
  lemma HonouringServersPage<E(!new)>(server: Server<E>, place: Option<nat> -> nat, all: seq<E>, perPage: nat, cap: nat)
    requires Honours(server, place, all) && perPage >= 1
    ensures Pages(server, all, perPage, cap)
  {
    forall k: nat ensures SendsNext(server, all, perPage, cap, k) {
      CookieTellsPlace(server, place, all, perPage, cap, k);
    }
  }

  /** Its answer depends on the place and the size alone. */
  ghost predicate ByPlace<E(!new)>(server: Server<E>, place: Option<nat> -> nat) {
    forall k: nat, j: nat, c: Option<nat>, d: Option<nat>, size: nat :: place(c) == place(d) ==>
      server(k, c, size) == server(j, d, size)
  }

  lemma StalledTurn<E>(server: Server<E>, perPage: nat, cap: nat, k: nat)
    requires StallsAt(server, perPage, cap, k)
    ensures var p := Turns(server, perPage, cap, k);
      Turns(server, perPage, cap, k + 1) == Going(p.entries, NextPage(server, perPage, cap, k, p).cookie)
  {
    var p := Turns(server, perPage, cap, k);
    assert First(p.entries + [], cap) == p.entries;
  }

  lemma SamePlaceStallsAgain<E(!new)>(
      server: Server<E>, place: Option<nat> -> nat, all: seq<E>, perPage: nat, cap: nat, k: nat)
    requires Honours(server, place, all) && ByPlace(server, place) && perPage >= 1 && StallsAt(server, perPage, cap, k)
    ensures StallsAt(server, perPage, cap, k + 1)
  {
    var p, next := Turns(server, perPage, cap, k), Turns(server, perPage, cap, k + 1);
    StalledTurn(server, perPage, cap, k);
    CookieTellsPlace(server, place, all, perPage, cap, k);
    CookieTellsPlace(server, place, all, perPage, cap, k + 1);
    assert place(p.cookie) == place(next.cookie);
  }

  lemma {:induction false} SamePlaceStallsOn<E(!new)>(
      server: Server<E>, place: Option<nat> -> nat, all: seq<E>, perPage: nat, cap: nat, k: nat, more: nat)
    requires Honours(server, place, all) && ByPlace(server, place) && perPage >= 1 && StallsAt(server, perPage, cap, k)
    ensures StallsAt(server, perPage, cap, k + more)
  {
    if more > 0 {
      SamePlaceStallsOn(server, place, all, perPage, cap, k, more - 1);
      SamePlaceStallsAgain(server, place, all, perPage, cap, k + more - 1);
    }
  }

  /** Against a server that answers by place alone, one empty page with a cookie is enough to go on
      for ever. */
  lemma ByPlaceEndsIff<E(!new)>(server: Server<E>, place: Option<nat> -> nat, all: seq<E>, perPage: nat, cap: nat)
    requires Honours(server, place, all) && ByPlace(server, place) && perPage >= 1
    ensures Ends(server, perPage, cap) <==> forall k: nat :: !StallsAt(server, perPage, cap, k)
  {
    EndsIff(server, perPage, cap);
    if k: nat :| StallsAt(server, perPage, cap, k) {
      forall j: nat | j >= k ensures StallsAt(server, perPage, cap, j) {
        SamePlaceStallsOn(server, place, all, perPage, cap, k, j - k);
      }
      assert StallsFrom(server, perPage, cap, k);
    } else if k: nat :| StallsFrom(server, perPage, cap, k) {
      assert StallsAt(server, perPage, cap, k);
    }
  }

  /** Against any other, an empty page with a cookie need not be the end: the loop reads on. */
  lemma FreshCookieGoesOn(perPage: nat, cap: nat)
    requires perPage >= 1 && cap >= 2
    ensures var server: Server<string> := (_: nat, c: Option<nat>, _: nat) =>
                if c.None? then Page(true, [], Some(1)) else Page(true, ["x"], None);
      && StallsAt(server, perPage, cap, 0)
      && Turns(server, perPage, cap, 2) == Ended(Unpaged(["x"], cap))
  {
    var server: Server<string> := (_: nat, c: Option<nat>, _: nat) => if c.None? then Page(true, [], Some(1)) else Page(true, ["x"], None);
    assert Turns(server, perPage, cap, 1) == Going([], Some(1));
  }

  /** A server without errors that sends no empty page while entries remain, and none with a cookie
      after them: the read ends with the unpaged answer, whatever the page size. */
  lemma FullPagesAreTransparent<E(!new)>(server: Server<E>, all: seq<E>, perPage: nat, cap: nat)
    requires Pages(server, all, perPage, cap)
    requires forall k: nat, c: Option<nat>, size: nat ::
               var page := server(k, c, size); (page.entries == [] ==> page.cookie.None?) && (page.ok || page.cookie.Some?)
    ensures Ends(server, perPage, cap)
    ensures forall k: nat :: Turns(server, perPage, cap, k).Ended? ==> Turns(server, perPage, cap, k).found == Unpaged(all, cap)
  {
    forall k: nat ensures !StallsAt(server, perPage, cap, k) && !CutAt(server, perPage, cap, |all|, k) {
    }
    forall k: nat ensures !StallsFrom(server, perPage, cap, k) {
      assert !StallsAt(server, perPage, cap, k);
    }
    EndsIff(server, perPage, cap);
    forall k: nat | Turns(server, perPage, cap, k).Ended? ensures Turns(server, perPage, cap, k).found == Unpaged(all, cap) {
      AnswerIff(server, all, perPage, cap, k);
    }
  }

  /** The extreme case: a server that only sends empty pages with a cookie keeps the loop going for ever. */
  lemma EmptyPagesNeverEnd<E(!new)>(server: Server<E>, perPage: nat, cap: nat)
    requires cap >= 1
    requires forall k: nat, c: Option<nat>, size: nat ::
               var page := server(k, c, size); page.ok && page.entries == [] && page.cookie.Some?
    ensures !Ends(server, perPage, cap)
  {
    forall k: nat ensures StallsAt(server, perPage, cap, k) {
      EmptySoFar(server, perPage, cap, k);
    }
    assert StallsFrom(server, perPage, cap, 0);
    EndsIff(server, perPage, cap);
  }

  lemma {:induction false} EmptySoFar<E(!new)>(server: Server<E>, perPage: nat, cap: nat, k: nat)
    requires cap >= 1
    requires forall k: nat, c: Option<nat>, size: nat ::
               var page := server(k, c, size); page.ok && page.entries == [] && page.cookie.Some?
    ensures var p := Turns(server, perPage, cap, k); p.Going? && p.entries == []
  {
    if k > 0 {
      EmptySoFar(server, perPage, cap, k - 1);
    }
  }

  // ---------------------------------------------------------------- the unpaged search

  /** One search with a size limit, as against a small lab directory; `served` is whatever the server
      sent back for it and `all` its whole result.  The flag says whether something sent was left
      out.  So from a server that keeps to the limit the entries are those of a paged read but the
      flag never rises, and from one that ignores it the answers differ when the cap is hit exactly. */
  method SimpleSearch<E>(served: seq<E>, maxObjects: int, ghost all: seq<E>) returns (found: Found<E>)
    ensures found.entries <= served && |found.entries| <= AtLeastOne(maxObjects)
    ensures found.truncated <==> found.entries < served
    ensures !found.truncated ==> found.entries == served
    ensures found.truncated ==> |found.entries| == AtLeastOne(maxObjects)
    ensures served == First(all, AtLeastOne(maxObjects)) ==>
              && found.entries == Unpaged(all, AtLeastOne(maxObjects)).entries && !found.truncated
              && (found == Unpaged(all, AtLeastOne(maxObjects)) <==> |all| < AtLeastOne(maxObjects))
    ensures served == all ==> (found == Unpaged(all, AtLeastOne(maxObjects)) <==> |all| != AtLeastOne(maxObjects))
  {
    var cap := AtLeastOne(maxObjects);
    found := Found(First(served, cap), |served| > cap);
  }

  // ---------------------------------------------------------------- memberships

  datatype Membership = Membership(member: string, group: string)

  function Key(t: CharTable, m: Membership): (string, string) {
    (Lower(t, m.member), Lower(t, m.group))
  }

  function Keys(t: CharTable, items: seq<Membership>): set<(string, string)> {
    set m | m in items :: Key(t, m)
  }

  /** Each item whose key no earlier item has. */
  function Dedupe(t: CharTable, items: seq<Membership>): seq<Membership> {
    if items == [] then []
    else
      var n := |items| - 1;
      Dedupe(t, items[..n]) + (if Key(t, items[n]) in Keys(t, items[..n]) then [] else [items[n]])
  }

  method DedupeMemberships(t: CharTable, items: seq<Membership>) returns (unique: seq<Membership>)
    ensures unique == Dedupe(t, items)
  {
    var seen: set<(string, string)> := {};
    unique := [];
    for i := 0 to |items|
      invariant seen == Keys(t, items[..i])
      invariant unique == Dedupe(t, items[..i])
    {
      assert items[..i + 1][..i] == items[..i];
      assert items[..i + 1] == items[..i] + [items[i]];
      var key := Key(t, items[i]);
      if key !in seen {
        seen := seen + {key};
        unique := unique + [items[i]];
      }
    }
    assert items[..|items|] == items;
  }

  /** The same member in the same group, ignoring case. */
  predicate SameMembership(t: CharTable, a: Membership, b: Membership) {
    FoldedSame(t, a.member, b.member) && FoldedSame(t, a.group, b.group)
  }

  lemma KeyMeans(t: CharTable, a: Membership, b: Membership)
    ensures Key(t, a) == Key(t, b) <==> SameMembership(t, a, b)
  {
    LowersSame(t, a.member, b.member);
    LowersSame(t, a.group, b.group);
  }

  /** What is kept are items of the list, no two of them the same membership, and every item is the same
      membership as one that is kept. */
  lemma DedupeMeans(t: CharTable, items: seq<Membership>)
    ensures var kept := Dedupe(t, items);
      && (forall m :: m in kept ==> m in items)
      && (forall i, j :: 0 <= i < j < |kept| ==> !SameMembership(t, kept[i], kept[j]))
      && (forall m :: m in items ==> exists k :: k in kept && SameMembership(t, m, k))
  {
    var kept := Dedupe(t, items);
    DedupeKeepsNoKeyTwice(t, items);
    DedupeKeepsEveryKey(t, items);
    forall i, j | 0 <= i < j < |kept| ensures !SameMembership(t, kept[i], kept[j]) {
      KeyMeans(t, kept[i], kept[j]);
    }
    forall m | m in items ensures exists k :: k in kept && SameMembership(t, m, k) {
      assert Key(t, m) in Keys(t, kept);
      var k :| k in kept && Key(t, k) == Key(t, m);
      KeyMeans(t, m, k);
    }
  }

  ghost predicate Distinct(t: CharTable, items: seq<Membership>) {
    forall i, j :: 0 <= i < j < |items| ==> Key(t, items[i]) != Key(t, items[j])
  }

  lemma KeysOfAppend(t: CharTable, items: seq<Membership>, m: Membership)
    ensures Keys(t, items + [m]) == Keys(t, items) + {Key(t, m)}
  {
    assert forall x :: x in items + [m] <==> x in items || x == m;
  }

  lemma KeyIsThere(t: CharTable, items: seq<Membership>, i: nat)
    requires i < |items|
    ensures Key(t, items[i]) in Keys(t, items)
  {
  }

  /** No key is lost. */
  lemma {:induction false} DedupeKeepsEveryKey(t: CharTable, items: seq<Membership>)
    ensures Keys(t, Dedupe(t, items)) == Keys(t, items)
  {
    if items != [] {
      var n := |items| - 1;
      DedupeKeepsEveryKey(t, items[..n]);
      assert items == items[..n] + [items[n]];
      KeysOfAppend(t, items[..n], items[n]);
      KeysOfAppend(t, Dedupe(t, items[..n]), items[n]);
      assert Dedupe(t, items[..n]) + [] == Dedupe(t, items[..n]);
    }
  }

  /** No key is kept twice, and nothing is made up. */
  lemma {:induction false} DedupeKeepsNoKeyTwice(t: CharTable, items: seq<Membership>)
    ensures Distinct(t, Dedupe(t, items))
    ensures forall m :: m in Dedupe(t, items) ==> m in items
  {
    if items != [] {
      var n := |items| - 1;
      var kept := Dedupe(t, items[..n]);
      DedupeKeepsNoKeyTwice(t, items[..n]);
      DedupeKeepsEveryKey(t, items[..n]);
      forall i | 0 <= i < |kept| ensures Key(t, kept[i]) in Keys(t, items[..n]) {
        KeyIsThere(t, kept, i);
      }
    }
  }

  /** Memberships found again from the other side - a group's member list after a user's group
      list, or differently cased - change nothing. */
  lemma {:induction false} SeenAgainChangesNothing(t: CharTable, items: seq<Membership>, again: seq<Membership>)
    requires Keys(t, again) <= Keys(t, items)
    ensures Dedupe(t, items + again) == Dedupe(t, items)
  {
    if again == [] {
      assert items + again == items;
    } else {
      var n := |again| - 1;
      assert (items + again)[..|items| + n] == items + again[..n];
      assert forall m :: m in again[..n] ==> m in again;
      SeenAgainChangesNothing(t, items, again[..n]);
      assert Key(t, again[n]) in Keys(t, again);
      assert forall m :: m in items ==> m in items + again[..n];
    }
  }
}
