/** The recovery sweep over all organisations: a rotating cursor through the directory (recovery.go).
    What one organisation's pass does is Transactions.Store.ReclaimInOrg. */
module Recovery {
  import opened Wrappers

  const SWEEP_BATCH := 50

  /** The organisations directory, in id order. */
  ghost predicate Directory(orgs: seq<Id>) {
    && (forall i | 0 <= i < |orgs| :: orgs[i] != NO_ID)
    && (forall i, j | 0 <= i < j < |orgs| :: orgs[i] < orgs[j])
  }

  /** SELECT id ... WHERE id > after ORDER BY id. */
  function After(orgs: seq<Id>, after: Id): seq<Id> {
    if orgs == [] then []
    else if orgs[0] > after then [orgs[0]] + After(orgs[1..], after)
    else After(orgs[1..], after)
  }

  function Page(orgs: seq<Id>, after: Id): seq<Id> {
    var all := After(orgs, after);
    if |all| <= SWEEP_BATCH then all else all[..SWEEP_BATCH]
  }

  /** The cursor a pass leaves for the next one; it starts again once a page is not full. */
  function NextCursor(orgs: seq<Id>, cursor: Id): Id {
    var page := Page(orgs, cursor);
    if |page| < SWEEP_BATCH then NO_ID else page[|page| - 1]
  }

  /** What reclaimInOrg returned for an organisation. */
  datatype Pass = Recovered(runs: nat) | PassFailed

  function TotalOf(page: seq<Id>, passes: map<Id, Pass>): nat {
    if page == [] then 0
    else
      (if page[0] in passes && passes[page[0]].Recovered? then passes[page[0]].runs else 0) + TotalOf(page[1..], passes)
  }

  /** orgsAfter, and whether the walk reached the end of the directory. */
  method OrgsAfter(orgs: seq<Id>, after: Id) returns (page: seq<Id>, wrapped: bool)
    ensures page == Page(orgs, after) && (wrapped <==> |page| < SWEEP_BATCH)
  {
    page := [];
    var i := 0;
    while i < |orgs| && |page| < SWEEP_BATCH
      invariant 0 <= i <= |orgs| && |page| <= SWEEP_BATCH
      invariant After(orgs, after) == page + After(orgs[i..], after)
    {
      assert orgs[i..][0] == orgs[i] && orgs[i..][1..] == orgs[i + 1..];
      if orgs[i] > after {
        page := page + [orgs[i]];
      }
      i := i + 1;
    }
    if i == |orgs| {
      assert orgs[i..] == [];
      assert After(orgs, after) == page;
    }
    wrapped := |page| < SWEEP_BATCH;
  }

  /** One pass over a page. An organisation that fails is passed over. */
  method ReclaimSweep(orgs: seq<Id>, cursor: Id, passes: map<Id, Pass>) returns (total: nat, next: Id)
    ensures total == TotalOf(Page(orgs, cursor), passes) && next == NextCursor(orgs, cursor)
  {
    var page, wrapped := OrgsAfter(orgs, cursor);
    total := 0;
    for i := 0 to |page|
      invariant total + TotalOf(page[i..], passes) == TotalOf(page, passes)
    {
      assert page[i..][0] == page[i] && page[i..][1..] == page[i + 1..];
      if page[i] in passes && passes[page[i]].Recovered? {
        total := total + passes[page[i]].runs;
      }
    }
    next := if wrapped || |page| == 0 then NO_ID else page[|page| - 1];
  }

  // ---- Nobody is left out --------------------------------------------------------------------

  /** The sweep loop: `read` says which passes could read their page; the others leave the cursor. */
  ghost function Examined(orgs: seq<Id>, cursor: Id, read: seq<bool>): set<Id>
    decreases |read|
  {
    if read == [] then {}
    else if !read[0] then Examined(orgs, cursor, read[1..])
    else (set org | org in Page(orgs, cursor)) + Examined(orgs, NextCursor(orgs, cursor), read[1..])
  }

  ghost function CursorAfter(orgs: seq<Id>, cursor: Id, read: seq<bool>): Id
    decreases |read|
  {
    if read == [] then cursor
    else CursorAfter(orgs, if read[0] then NextCursor(orgs, cursor) else cursor, read[1..])
  }

  function Count(read: seq<bool>): nat {
    if read == [] then 0 else (if read[0] then 1 else 0) + Count(read[1..])
  }

  /** The cursors a sweep that starts at the beginning can have: the end of each full page. */
  function CursorAt(orgs: seq<Id>, page: nat): Id
    requires page <= |orgs| / SWEEP_BATCH
  {
    if page == 0 then NO_ID else orgs[page * SWEEP_BATCH - 1]
  }

  lemma {:induction false} AfterSuffix(orgs: seq<Id>, i: nat, after: Id)
    requires Directory(orgs) && i <= |orgs|
    requires i > 0 ==> after == orgs[i - 1]
    requires i == 0 ==> after == NO_ID
    ensures After(orgs, after) == orgs[i..]
  {
    if orgs != [] {
      var rest := orgs[1..];
      assert Directory(rest) by {
        assert forall j | 0 <= j < |rest| :: rest[j] == orgs[j + 1];
      }
      if i == 0 {
        NothingBefore(rest, after);
      } else if i == 1 {
        assert forall j | 0 <= j < |rest| :: rest[j] == orgs[j + 1];
        NothingBefore(rest, after);
      } else {
        assert rest[i - 2] == orgs[i - 1] && orgs[0] < orgs[i - 1];
        AfterSuffix(rest, i - 1, after);
      }
    }
  }

  lemma {:induction false} NothingBefore(orgs: seq<Id>, after: Id)
    requires forall j | 0 <= j < |orgs| :: orgs[j] > after
    ensures After(orgs, after) == orgs
  {
    if orgs != [] {
      NothingBefore(orgs[1..], after);
    }
  }

  lemma PageIs(orgs: seq<Id>, page: nat)
    requires Directory(orgs) && page <= |orgs| / SWEEP_BATCH
    ensures var first := page * SWEEP_BATCH;
      var last := if first + SWEEP_BATCH <= |orgs| then first + SWEEP_BATCH else |orgs|;
      Page(orgs, CursorAt(orgs, page)) == orgs[first..last]
    ensures NextCursor(orgs, CursorAt(orgs, page))
      == CursorAt(orgs, if page < |orgs| / SWEEP_BATCH then page + 1 else 0)
  {
    AfterSuffix(orgs, page * SWEEP_BATCH, CursorAt(orgs, page));
  }

  /** The page that is `ahead` pages after this one, the first page following the last. */
  function Later(page: nat, ahead: nat, pages: nat): nat
    requires page < pages && ahead < pages
  {
    if page + ahead < pages then page + ahead else page + ahead - pages
  }

  /** From any reachable cursor, the passes that could read their page visit the pages in turn. */
  lemma {:induction false} Visits(orgs: seq<Id>, pages: nat, page: nat, read: seq<bool>, ahead: nat)
    requires Directory(orgs) && pages == |orgs| / SWEEP_BATCH + 1 && page < pages
    requires ahead < pages && ahead < Count(read)
    ensures forall org | org in Page(orgs, CursorAt(orgs, Later(page, ahead, pages))) ::
      org in Examined(orgs, CursorAt(orgs, page), read)
    decreases |read|
  {
    if !read[0] {
      Visits(orgs, pages, page, read[1..], ahead);
    } else {
      PageIs(orgs, page);
      if ahead > 0 {
        Visits(orgs, pages, Later(page, 1, pages), read[1..], ahead - 1);
      }
    }
  }

  lemma {:induction false} CursorsReached(orgs: seq<Id>, page: nat, read: seq<bool>) returns (reached: nat)
    requires Directory(orgs) && page <= |orgs| / SWEEP_BATCH
    ensures reached <= |orgs| / SWEEP_BATCH
    ensures CursorAfter(orgs, CursorAt(orgs, page), read) == CursorAt(orgs, reached)
    decreases |read|
  {
    if read == [] {
      reached := page;
    } else {
      PageIs(orgs, page);
      var next := if !read[0] then page else if page < |orgs| / SWEEP_BATCH then page + 1 else 0;
      reached := CursorsReached(orgs, next, read[1..]);
    }
  }

  /** How many pages the cursor still has to pass before it reaches this one. */
  function Ahead(page: nat, wanted: nat, pages: nat): (ahead: nat)
    requires page < pages && wanted < pages
    ensures ahead < pages && Later(page, ahead, pages) == wanted
  {
    if wanted >= page then wanted - page else wanted + pages - page
  }

  lemma NothingRead(orgs: seq<Id>, cursor: Id, read: seq<bool>)
    requires Count(read) == 0
    ensures Examined(orgs, cursor, read) == {}
    decreases |read|
  {
    if read != [] {
      NothingRead(orgs, cursor, read[1..]);
    }
  }

  /** Passes that do not get as far as its page do not examine an organisation. */
  lemma {:induction false} Misses(orgs: seq<Id>, pages: nat, page: nat, read: seq<bool>, i: nat)
    requires Directory(orgs) && pages == |orgs| / SWEEP_BATCH + 1 && page < pages && i < |orgs|
    requires Count(read) <= Ahead(page, i / SWEEP_BATCH, pages)
    ensures orgs[i] !in Examined(orgs, CursorAt(orgs, page), read)
    decreases |read|
  {
    if Count(read) == 0 {
      NothingRead(orgs, CursorAt(orgs, page), read);
    } else if !read[0] {
      Misses(orgs, pages, page, read[1..], i);
    } else {
      PageIs(orgs, page);
      OnNoOtherPage(orgs, page, i);
      Misses(orgs, pages, if page < |orgs| / SWEEP_BATCH then page + 1 else 0, read[1..], i);
    }
  }

  lemma OnNoOtherPage(orgs: seq<Id>, page: nat, i: nat)
    requires Directory(orgs) && page <= |orgs| / SWEEP_BATCH && i < |orgs| && i / SWEEP_BATCH != page
    ensures orgs[i] !in Page(orgs, CursorAt(orgs, page))
  {
    PageIs(orgs, page);
    var first := page * SWEEP_BATCH;
    var last := if first + SWEEP_BATCH <= |orgs| then first + SWEEP_BATCH else |orgs|;
    forall j | 0 <= j < last - first ensures orgs[first..last][j] != orgs[i] {
      assert orgs[first..last][j] == orgs[first + j];
    }
  }

  /** Exactly when an organisation is examined: as soon as more passes could read their page than there
      are pages before its own. */
  lemma ExaminedIff(orgs: seq<Id>, page: nat, read: seq<bool>, i: nat)
    requires Directory(orgs) && page <= |orgs| / SWEEP_BATCH && i < |orgs|
    ensures orgs[i] in Examined(orgs, CursorAt(orgs, page), read)
      <==> Count(read) > Ahead(page, i / SWEEP_BATCH, |orgs| / SWEEP_BATCH + 1)
  {
    hide Page, Examined, CursorAt, Directory, Count;
    var pages := |orgs| / SWEEP_BATCH + 1;
    if Count(read) > Ahead(page, i / SWEEP_BATCH, pages) {
      Visits(orgs, pages, page, read, Ahead(page, i / SWEEP_BATCH, pages));
      OnItsPage(orgs, i);
    } else {
      Misses(orgs, pages, page, read, i);
    }
  }

  /** No tenant is starved: wherever the cursor got to, any further passes of which floor(n / 50) + 1 could
      read their page examine every one of the n organisations, whether or not their own passes fail. */
  lemma EveryOrganisationIsExamined(orgs: seq<Id>, before: seq<bool>, read: seq<bool>, org: Id)
    requires Directory(orgs) && org in orgs && Count(read) >= |orgs| / SWEEP_BATCH + 1
    ensures org in Examined(orgs, CursorAfter(orgs, NO_ID, before), read)
  {
    hide Page, Examined, CursorAfter, NextCursor, Directory, Count;
    var page := CursorsReached(orgs, 0, before);
    var i :| 0 <= i < |orgs| && orgs[i] == org;
    ExaminedIff(orgs, page, read, i);
  }

  lemma OnItsPage(orgs: seq<Id>, i: nat)
    requires Directory(orgs) && i < |orgs|
    ensures orgs[i] in Page(orgs, CursorAt(orgs, i / SWEEP_BATCH))
  {
    var page := i / SWEEP_BATCH;
    PageIs(orgs, page);
    var first := page * SWEEP_BATCH;
    var last := if first + SWEEP_BATCH <= |orgs| then first + SWEEP_BATCH else |orgs|;
    assert orgs[first..last][i - first] == orgs[i];
  }

  // ---- How many passes it takes --------------------------------------------------------------

  /** That many passes that could read their page always examine everybody, wherever the cursor is. */
  ghost predicate PassesSuffice(orgs: seq<Id>, passes: nat) {
    forall before, read, org | org in orgs && Count(read) >= passes ::
      org in Examined(orgs, CursorAfter(orgs, NO_ID, before), read)
  }

  function AllRead(passes: nat): (read: seq<bool>)
    ensures |read| == passes && Count(read) == passes
  {
    if passes == 0 then [] else [true] + AllRead(passes - 1)
  }

  lemma {:induction false} CursorAdvances(orgs: seq<Id>, page: nat, passes: nat)
    requires Directory(orgs) && page + passes <= |orgs| / SWEEP_BATCH
    ensures CursorAfter(orgs, CursorAt(orgs, page), AllRead(passes)) == CursorAt(orgs, page + passes)
    decreases passes
  {
    hide Directory, Page, NextCursor, CursorAt;
    if passes > 0 {
      PageIs(orgs, page);
      CursorAdvances(orgs, page + 1, passes - 1);
      assert AllRead(passes)[1..] == AllRead(passes - 1);
    }
  }

  /** floor(n / 50) + 1 passes always suffice, and no fewer do: from the end of the first page the first
      one comes last. */
  lemma PassesSufficeIff(orgs: seq<Id>, passes: nat)
    requires Directory(orgs) && orgs != []
    ensures PassesSuffice(orgs, passes) <==> passes >= |orgs| / SWEEP_BATCH + 1
  {
    hide Examined, CursorAfter, Directory, Count, CursorAt;
    var full := |orgs| / SWEEP_BATCH;
    if passes >= full + 1 {
      forall before, read, org | org in orgs && Count(read) >= passes
        ensures org in Examined(orgs, CursorAfter(orgs, NO_ID, before), read)
      {
        EveryOrganisationIsExamined(orgs, before, read, org);
      }
    } else {
      var page := if full == 0 then 0 else 1;
      CursorAdvances(orgs, 0, page);
      ExaminedIff(orgs, page, AllRead(passes), 0);
      FirstCursor(orgs);
      NotSufficient(orgs, passes, AllRead(page), AllRead(passes), orgs[0]);
    }
  }

  lemma NotSufficient(orgs: seq<Id>, passes: nat, before: seq<bool>, read: seq<bool>, org: Id)
    requires org in orgs && Count(read) >= passes
    requires org !in Examined(orgs, CursorAfter(orgs, NO_ID, before), read)
    ensures !PassesSuffice(orgs, passes)
  {
  }

  lemma FirstCursor(orgs: seq<Id>)
    ensures CursorAt(orgs, 0) == NO_ID
  {
  }

  /** The pages it takes to hold everybody. */
  function Pages(organisations: nat): nat {
    (organisations + SWEEP_BATCH - 1) / SWEEP_BATCH
  }

  /** The latency promised for the sweep, one pass for each page it takes to hold the directory, is met
      exactly when the last page is not full. */
  lemma PromisedLatencyIff(orgs: seq<Id>)
    requires Directory(orgs) && orgs != []
    ensures PassesSuffice(orgs, Pages(|orgs|)) <==> |orgs| % SWEEP_BATCH != 0
  {
    hide PassesSuffice, Directory;
    PassesSufficeIff(orgs, Pages(|orgs|));
  }

  /** When it is full: the cursor stands at the last organisation, the next pass finds nobody, and the n / 50
      passes promised end before they get to that organisation. */
  lemma FullPagesMissTheLast(orgs: seq<Id>)
    requires Directory(orgs) && orgs != [] && |orgs| % SWEEP_BATCH == 0
    ensures var passes := AllRead(|orgs| / SWEEP_BATCH);
      var last := orgs[|orgs| - 1];
      && CursorAfter(orgs, NO_ID, passes) == last
      && last !in Examined(orgs, last, passes)
  {
    hide Examined, CursorAfter, Directory, Count;
    var full := |orgs| / SWEEP_BATCH;
    FirstCursor(orgs);
    CursorAdvances(orgs, 0, full);
    ExaminedIff(orgs, full, AllRead(full), |orgs| - 1);
  }
}
