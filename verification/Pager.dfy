/** The pagination machine of the background jobs (src/job_loop.rs), and the
    worker loop that drives it (the counting phase of src/maintenance/worker.rs). */
module Pager {
  import opened Common

  /** The page budget `maxPages` is 10000 unless overridden. */
  class Pager {
    var token: Option<string>
    var resumed: bool
    var pagesStarted: nat
    const maxPages: nat
    var morePending: bool

    constructor Resuming(resumeToken: Option<string>, maxPages: nat)
      ensures token == resumeToken && resumed == resumeToken.Some? && pagesStarted == 0
      ensures this.maxPages == maxPages && !morePending
    {
      token, resumed, pagesStarted, morePending := resumeToken, resumeToken.Some?, 0, false;
      this.maxPages := maxPages;
    }

    method BeginPage() returns (index: Option<nat>)
      modifies this`pagesStarted
      ensures old(pagesStarted) >= maxPages ==> index.None? && pagesStarted == old(pagesStarted)
      ensures old(pagesStarted) < maxPages ==> index == Some(old(pagesStarted)) && pagesStarted == old(pagesStarted) + 1
    {
      if pagesStarted >= maxPages {
        return None;
      }
      index := Some(pagesStarted);
      pagesStarted := pagesStarted + 1;
    }

    /** The page that just failed was the first of a resumed loop. */
    predicate PoisonedResumeToken()
      reads this
    {
      resumed && pagesStarted == 1
    }

    method RestartFresh()
      modifies this
      ensures token.None? && !resumed && pagesStarted == 0 && !morePending
    {
      token, resumed, pagesStarted, morePending := None, false, 0, false;
    }

    predicate TruncatedByPageBudget()
      reads this
    {
      pagesStarted >= maxPages && morePending
    }

    /** Thread one page result; a token without truncation counts as the end. */
    method Advance(isTruncated: bool, nextToken: Option<string>) returns (more: bool)
      modifies this`token, this`morePending
      ensures more == (isTruncated && nextToken.Some?) && morePending == more
      ensures token == if more then nextToken else None
    {
      more := isTruncated && nextToken.Some?;
      token := if more then nextToken else None;
      morePending := more;
    }
  }

  // ------------------------------------------------------------------ listings

  /** A fixed listing of `count` pages; `tokenOf(i)` continues at page `i`. */
  datatype Listing = Listing(count: nat, tokenOf: nat -> string)

  ghost predicate ValidListing(l: Listing) {
    l.count >= 1 && forall i, j :: 1 <= i < j < l.count ==> l.tokenOf(i) != l.tokenOf(j)
  }

  /** The token stands for this page. */
  predicate At(l: Listing, token: Option<string>, page: nat) {
    if page == 0 then token.None? else page < l.count && token == Some(l.tokenOf(page))
  }

  ghost predicate Known(l: Listing, token: Option<string>) {
    exists page :: At(l, token, page)
  }

  /** What the backend answers for a token: the page, or nothing for a token it
      does not recognise. */
  method List(l: Listing, token: Option<string>) returns (page: Option<nat>)
    requires ValidListing(l)
    ensures page.Some? ==> At(l, token, page.value)
    ensures page.None? ==> !Known(l, token)
  {
    for i := 0 to l.count
      invariant forall k: nat :: k < i ==> !At(l, token, k)
    {
      if At(l, token, i) {
        return Some(i);
      }
    }
    page := None;
  }

  function Pages(lo: nat, hi: nat): (pages: seq<nat>)
    requires lo <= hi
    ensures |pages| == hi - lo && forall i :: 0 <= i < |pages| ==> pages[i] == lo + i
  {
    seq(hi - lo, i => lo + i)
  }

  // ---------------------------------------------------------------------- runs

  datatype Outcome = Finished | Truncated | Errored

  /** One run of a job: the token it was given, the pages it processed since its
      last restart, and the token it left behind. */
  datatype Run = Run(from: Option<string>, processed: seq<nat>, to: Option<string>, outcome: Outcome, restarts: nat, begun: nat)

  /** Where the pages of a run start. */
  ghost predicate StartsAt(l: Listing, r: Run, start: nat) {
    if r.restarts > 0 then start == 0 else At(l, r.from, start)
  }

  /** The pages form one stretch, and the token left behind is the next page. */
  ghost predicate Stretch(l: Listing, r: Run, start: nat, end: nat) {
    && start <= end <= l.count && r.processed == Pages(start, end)
    && (end == l.count ==> r.to.None?)
    && (end < l.count ==> At(l, r.to, end))
  }

  /** What every run of the worker guarantees. */
  ghost predicate RunOk(l: Listing, maxPages: nat, r: Run) {
    && r.restarts <= 1 && r.begun <= maxPages + r.restarts
    && (r.restarts > 0 ==> r.from.Some?)
    && (maxPages > 0 ==> Known(l, r.from) || r.restarts > 0 || r.outcome == Errored)
    && forall start: nat :: StartsAt(l, r, start) ==>
         exists end: nat ::
           && Stretch(l, r, start, end)
           && (r.outcome == Truncated ==> end < l.count)
           && (r.outcome != Errored && maxPages > 0 ==> (r.outcome == Finished <==> end == l.count))
  }

  /** The state of a run between two pages. `first` is where its pages start,
      `page` the one that comes next. */
  datatype Midway = Midway(from: Option<string>, restarts: nat, resumed: bool, started: nat,
                           token: Option<string>, processed: seq<nat>, first: nat, page: nat)

  ghost predicate MidwayOk(l: Listing, maxPages: nat, s: Midway) {
    && s.restarts <= 1 && s.started <= maxPages && |s.processed| == s.started
    && (s.restarts > 0 ==> s.from.Some? && s.first == 0 && !s.resumed)
    && (s.restarts == 0 ==> s.resumed == s.from.Some?)
    && (s.restarts == 0 && Known(l, s.from) ==> At(l, s.from, s.first))
    && (s.restarts == 0 && !Known(l, s.from) ==> s.token == s.from && s.started == 0)
    && (Known(l, s.from) || s.restarts > 0 ==>
          s.first <= s.page < l.count && At(l, s.token, s.page) && s.processed == Pages(s.first, s.page))
  }

  lemma MidwayStarts(l: Listing, maxPages: nat, from: Option<string>) returns (page: nat)
    requires ValidListing(l)
    ensures MidwayOk(l, maxPages, Midway(from, 0, from.Some?, 0, from, [], page, page))
  {
    page := 0;
    if start: nat :| At(l, from, start) {
      page := start;
      assert Pages(page, page) == [];
    }
  }

  lemma MidwayRestarts(l: Listing, maxPages: nat, s: Midway)
    requires ValidListing(l) && MidwayOk(l, maxPages, s) && s.resumed
    ensures s.restarts == 0
    ensures MidwayOk(l, maxPages, Midway(s.from, 1, false, 0, None, [], 0, 0))
  {
  }

  /** The page at the token is the next one; after it the state is in order. */
  lemma MidwayLists(l: Listing, maxPages: nat, s: Midway, listed: nat)
    requires ValidListing(l) && MidwayOk(l, maxPages, s) && At(l, s.token, listed) && s.started < maxPages
    ensures listed == s.page < l.count
    ensures var token := if listed + 1 < l.count then Some(l.tokenOf(listed + 1)) else None;
            PageDone(l, maxPages, s.(started := s.started + 1, token := token,
                                     processed := s.processed + [listed], page := s.page + 1))
  {
  }

  lemma MidwayEnds(l: Listing, maxPages: nat, s: Midway, outcome: Outcome, begun: nat)
    requires ValidListing(l) && MidwayOk(l, maxPages, s) && begun <= maxPages + s.restarts
    requires outcome != Finished || maxPages == 0
    requires outcome == Errored || (maxPages > 0 ==> s.started > 0)
    ensures RunOk(l, maxPages, Run(s.from, s.processed, s.token, outcome, s.restarts, begun))
  {
    EndsHere(l, maxPages, Run(s.from, s.processed, s.token, outcome, s.restarts, begun), s.first, s.page);
  }

  /** The one condition under which a run drops its token: it gets as far as
      listing with it, and that listing fails for whatever reason. */
  ghost predicate StartsOver(l: Listing, persisted: Option<string>, maxPages: nat, cancelledFirst: bool, firstFails: bool) {
    persisted.Some? && maxPages > 0 && !cancelledFirst && (firstFails || !Known(l, persisted))
  }

  lemma DecidedEarly(l: Listing, persisted: Option<string>, maxPages: nat, cancelledFirst: bool, firstFails: bool)
    ensures persisted.None? || maxPages == 0 || cancelledFirst ==> !StartsOver(l, persisted, maxPages, cancelledFirst, firstFails)
    ensures persisted.Some? && maxPages > 0 && !cancelledFirst ==>
              (StartsOver(l, persisted, maxPages, cancelledFirst, firstFails) <==> firstFails || !Known(l, persisted))
  {
  }

  /** How one turn of the loop can go. */
  datatype Turn = Cancelled | ListError | Restarted | Turned(page: nat, more: bool, alive: bool)

  /** One turn, after its page was begun: check for cancellation, list, and either
      start over, give up, or process the page, persist the cursor and beat. */
  method TurnPage(l: Listing, pager: Pager, cancelled: bool, listFails: bool, heartbeatFails: bool) returns (turn: Turn)
    requires ValidListing(l)
    modifies pager
    ensures turn.Cancelled? <==> cancelled
    ensures turn.Cancelled? || turn.ListError? ==> unchanged(pager)
    ensures turn.ListError? || turn.Restarted? ==> listFails || !Known(l, old(pager.token))
    ensures turn.ListError? ==> !old(pager.PoisonedResumeToken())
    ensures turn.Restarted? ==>
              && old(pager.PoisonedResumeToken())
              && pager.token.None? && !pager.resumed && pager.pagesStarted == 0 && !pager.morePending
    ensures turn.Turned? ==>
              && !listFails && Known(l, old(pager.token)) && At(l, old(pager.token), turn.page) && turn.more == (turn.page + 1 < l.count)
              && pager.token == (if turn.more then Some(l.tokenOf(turn.page + 1)) else None)
              && pager.resumed == old(pager.resumed) && pager.pagesStarted == old(pager.pagesStarted)
              && pager.morePending == turn.more && turn.alive == !heartbeatFails
  {
    hide ValidListing, At;
    if cancelled {
      return Cancelled;
    }
    var listed := List(l, pager.token);
    if listFails || listed.None? {
      if pager.PoisonedResumeToken() {
        pager.RestartFresh();
        return Restarted;
      }
      return ListError;
    }
    var isTruncated := listed.value + 1 < l.count;
    var more := pager.Advance(isTruncated, if isTruncated then Some(l.tokenOf(listed.value + 1)) else None);
    return Turned(listed.value, more, !heartbeatFails);
  }

  /** The worker loop. A call may be cancelled before it lists, its listing may
      fail, and the heartbeat after a page may fail; a page is processed and the
      cursor persisted in one go. */
  method RunJob(l: Listing, persisted: Option<string>, maxPages: nat,
                cancelled: nat -> bool, listFails: nat -> bool, heartbeatFails: nat -> bool)
    returns (r: Run)
    requires ValidListing(l)
    ensures r.from == persisted && RunOk(l, maxPages, r)
    // It stops short, or starts over, only for a reason.
    ensures r.outcome == Errored ==>
              cancelled(r.begun) || heartbeatFails(r.begun) || (listFails(r.begun) && r.begun > r.restarts)
    ensures |r.processed| <= maxPages && (r.outcome == Truncated ==> |r.processed| == maxPages)
    ensures r.restarts > 0 <==> StartsOver(l, persisted, maxPages, cancelled(1), listFails(1))
  {
    hide StartsOver, RunOk, ValidListing, MidwayOk, PageDone, At, Known, Pages;
    var pager := new Pager.Resuming(persisted, maxPages);
    var processed, restarts, begun := [], 0, 0;
    ghost var over := StartsOver(l, persisted, maxPages, cancelled(1), listFails(1));
    DecidedEarly(l, persisted, maxPages, cancelled(1), listFails(1));
    ghost var page := MidwayStarts(l, maxPages, persisted);
    ghost var s := Midway(persisted, 0, persisted.Some?, 0, persisted, [], page, page);
    while true
      invariant fresh(pager) && pager.maxPages == maxPages && MidwayOk(l, maxPages, s)
      invariant s == Midway(persisted, restarts, pager.resumed, pager.pagesStarted, pager.token, processed, s.first, s.page)
      invariant begun == pager.pagesStarted + restarts && pager.pagesStarted <= maxPages
      invariant |processed| == pager.pagesStarted && pager.morePending == (pager.pagesStarted > 0)
      invariant restarts > 0 ==> over
      invariant begun == 0 ==> pager.token == persisted
      invariant restarts == 0 ==> pager.resumed == persisted.Some? && (begun > 0 || !pager.resumed || maxPages == 0 ==> !over)
      decreases pager.resumed, maxPages - pager.pagesStarted
    {
      var index := pager.BeginPage();
      if index.None? {
        break;
      }
      begun := begun + 1;
      ListedOrFirst(l, maxPages, s);
      var turn := TurnPage(l, pager, cancelled(begun), listFails(begun), heartbeatFails(begun));
      if turn.Cancelled? || turn.ListError? {
        MidwayEnds(l, maxPages, s, Errored, begun);
        return Run(persisted, processed, pager.token, Errored, restarts, begun);
      }
      if turn.Restarted? {
        MidwayRestarts(l, maxPages, s);
        processed, restarts := [], restarts + 1;
        s := Midway(persisted, 1, false, 0, None, [], 0, 0);
        continue;
      }
      MidwayLists(l, maxPages, s, turn.page);
      processed := processed + [turn.page];
      s := s.(started := s.started + 1, token := pager.token, processed := processed, page := s.page + 1);
      if !turn.alive || !turn.more {
        var outcome := if turn.alive then Finished else Errored;
        PageEnds(l, maxPages, s, outcome, begun);
        return Run(persisted, processed, pager.token, outcome, restarts, begun);
      }
      MidwayGoesOn(l, maxPages, s);
    }
    var outcome := if pager.TruncatedByPageBudget() then Truncated else Finished;
    MidwayEnds(l, maxPages, s, outcome, begun);
    r := Run(persisted, processed, pager.token, outcome, restarts, begun);
  }

  /** A token unknown to the backend can only be the one the run was given. */
  lemma ListedOrFirst(l: Listing, maxPages: nat, s: Midway)
    requires MidwayOk(l, maxPages, s)
    ensures Known(l, s.token) || (s.resumed && s.started == 0 && !Known(l, s.from))
  {
    assert At(l, None, 0);
    if Known(l, s.from) || s.restarts > 0 {
      assert At(l, s.token, s.page);
    }
  }

  /** Right after a page: the state is in order but for the page count. */
  ghost predicate PageDone(l: Listing, maxPages: nat, s: Midway) {
    && s.restarts <= 1 && s.started <= maxPages && |s.processed| == s.started
    && (s.restarts > 0 ==> s.from.Some? && s.first == 0 && !s.resumed)
    && (s.restarts == 0 ==> s.resumed == s.from.Some? && At(l, s.from, s.first))
    && s.first < s.page <= l.count && s.processed == Pages(s.first, s.page)
    && s.token == if s.page < l.count then Some(l.tokenOf(s.page)) else None
  }

  lemma MidwayGoesOn(l: Listing, maxPages: nat, s: Midway)
    requires PageDone(l, maxPages, s) && s.page < l.count
    ensures MidwayOk(l, maxPages, s)
  {
  }

  lemma PageEnds(l: Listing, maxPages: nat, s: Midway, outcome: Outcome, begun: nat)
    requires ValidListing(l) && PageDone(l, maxPages, s) && begun <= maxPages + s.restarts
    requires outcome == Errored || (outcome == Finished && s.page == l.count)
    ensures RunOk(l, maxPages, Run(s.from, s.processed, s.token, outcome, s.restarts, begun))
  {
    if s.restarts == 0 {
      assert Known(l, s.from);
    }
    EndsHere(l, maxPages, Run(s.from, s.processed, s.token, outcome, s.restarts, begun), s.first, s.page);
  }

  lemma EndsHere(l: Listing, maxPages: nat, r: Run, start: nat, end: nat)
    requires ValidListing(l) && r.restarts <= 1 && r.begun <= maxPages + r.restarts
    requires r.restarts > 0 ==> r.from.Some?
    requires maxPages > 0 ==> Known(l, r.from) || r.restarts > 0 || r.outcome == Errored
    requires Known(l, r.from) || r.restarts > 0 ==>
      && StartsAt(l, r, start) && Stretch(l, r, start, end)
      && (r.outcome == Truncated ==> end < l.count)
      && (r.outcome != Errored && maxPages > 0 ==> (r.outcome == Finished <==> end == l.count))
    ensures RunOk(l, maxPages, r)
  {
  }

  // -------------------------------------------------------------------- chains

  function AllProcessed(runs: seq<Run>): seq<nat> {
    if runs == [] then [] else AllProcessed(runs[..|runs| - 1]) + runs[|runs| - 1].processed
  }

  /** Runs that hand on their token, from a fresh start; only the last may finish. */
  ghost predicate Chained(l: Listing, maxPages: nat, runs: seq<Run>) {
    && (forall i :: 0 <= i < |runs| ==> RunOk(l, maxPages, runs[i]))
    && (|runs| > 0 ==> runs[0].from.None?)
    && (forall i :: 0 <= i < |runs| - 1 ==> runs[i + 1].from == runs[i].to && runs[i].outcome != Finished)
  }

  /** The run began at the first page: without a token, or after dropping it. */
  ghost predicate Afresh(r: Run) {
    r.restarts > 0 || r.from.None?
  }

  /** The pages processed since the last run that began at the first page. */
  ghost function SinceStart(runs: seq<Run>): seq<nat> {
    if runs == [] then []
    else
      var last := runs[|runs| - 1];
      if Afresh(last) then last.processed else SinceStart(runs[..|runs| - 1]) + last.processed
  }

  lemma ChainedBefore(l: Listing, maxPages: nat, runs: seq<Run>)
    requires Chained(l, maxPages, runs) && runs != []
    ensures Chained(l, maxPages, runs[..|runs| - 1])
  {
  }

  /** Since its last start at the first page a chain of runs has processed the
      pages from the first on, each once, in order and without a gap, however its
      runs ended; it has come to the last page exactly when it finished, or was
      cut short right after that page. */
  lemma {:induction false} ChainCovers(l: Listing, maxPages: nat, runs: seq<Run>) returns (end: nat)
    requires ValidListing(l) && maxPages > 0 && Chained(l, maxPages, runs) && runs != []
    ensures end <= l.count && SinceStart(runs) == Pages(0, end)
    ensures runs[|runs| - 1].outcome == Finished <==> end == l.count && runs[|runs| - 1].outcome != Errored
    ensures end < l.count ==> At(l, runs[|runs| - 1].to, end)
    ensures end == l.count ==> runs[|runs| - 1].to.None?
    decreases |runs|
  {
    hide RunOk, At;
    var last, before := runs[|runs| - 1], runs[..|runs| - 1];
    var start: nat := 0;
    ChainedBefore(l, maxPages, runs);
    if !Afresh(last) {
      start := ChainCovers(l, maxPages, before);
      assert before[|before| - 1] == runs[|runs| - 2];
      assert last.from == runs[|runs| - 2].to;
    }
    AfreshStarts(l, last);
    end := OneMoreRun(l, maxPages, last, start);
    assert Pages(0, start) + Pages(start, end) == Pages(0, end);
    assert [] + last.processed == last.processed;
  }

  lemma AfreshStarts(l: Listing, r: Run)
    ensures Afresh(r) ==> StartsAt(l, r, 0)
  {
  }

  lemma OneMoreRun(l: Listing, maxPages: nat, r: Run, start: nat) returns (end: nat)
    requires maxPages > 0 && RunOk(l, maxPages, r) && StartsAt(l, r, start)
    ensures start <= end <= l.count && r.processed == Pages(start, end)
    ensures end == l.count ==> r.to.None?
    ensures end < l.count ==> At(l, r.to, end)
    ensures r.outcome != Errored ==> (r.outcome == Finished <==> end == l.count)
  {
    end :| Stretch(l, r, start, end)
           && (r.outcome == Truncated ==> end < l.count)
           && (r.outcome != Errored && maxPages > 0 ==> (r.outcome == Finished <==> end == l.count));
  }

  // ---------------------------------------------------------------- repetition

  /** Run `i` does pages over that an earlier run has done. */
  ghost predicate RepeatsAt(runs: seq<Run>, i: nat)
    requires i < |runs|
  {
    Afresh(runs[i]) && runs[i].processed != [] && AllProcessed(runs[..i]) != []
  }

  ghost predicate FromFirst(pages: seq<nat>) {
    forall i :: 0 <= i < |pages| ==> pages[i] == i
  }

  /** A run that goes on from a token comes after pages since the last start. */
  lemma TokenMeansPages(l: Listing, maxPages: nat, runs: seq<Run>)
    requires ValidListing(l) && maxPages > 0 && Chained(l, maxPages, runs) && runs != []
    requires !Afresh(runs[|runs| - 1])
    ensures SinceStart(runs[..|runs| - 1]) != []
  {
    var before := runs[..|runs| - 1];
    ChainedBefore(l, maxPages, runs);
    var end := ChainCovers(l, maxPages, before);
    assert before[|before| - 1] == runs[|runs| - 2];
  }

  /** Without repetition everything processed is what the last start has led to,
      or the last start has led to nothing yet. */
  lemma {:induction false} UnrepeatedIsOneStretch(l: Listing, maxPages: nat, runs: seq<Run>)
    requires ValidListing(l) && maxPages > 0 && Chained(l, maxPages, runs)
    requires forall i :: 0 <= i < |runs| ==> !RepeatsAt(runs, i)
    ensures FromFirst(AllProcessed(runs))
    ensures SinceStart(runs) == [] || SinceStart(runs) == AllProcessed(runs)
    decreases |runs|
  {
    hide RunOk, At;
    if runs != [] {
      var last, before := runs[|runs| - 1], runs[..|runs| - 1];
      ChainedBefore(l, maxPages, runs);
      forall i | 0 <= i < |before|
        ensures !RepeatsAt(before, i)
      {
        assert before[..i] == runs[..i] && !RepeatsAt(runs, i);
      }
      UnrepeatedIsOneStretch(l, maxPages, before);
      assert !RepeatsAt(runs, |runs| - 1);
      var end := ChainCovers(l, maxPages, runs);
      if !Afresh(last) {
        TokenMeansPages(l, maxPages, runs);
      }
    }
  }

  lemma {:induction false} AllProcessedGrows(runs: seq<Run>, i: nat)
    requires i <= |runs|
    ensures AllProcessed(runs[..i]) <= AllProcessed(runs)
    decreases |runs|
  {
    if i == |runs| {
      assert runs[..i] == runs;
    } else {
      AllProcessedGrows(runs[..|runs| - 1], i);
      assert runs[..|runs| - 1][..i] == runs[..i];
    }
  }

  lemma RepetitionShows(l: Listing, maxPages: nat, runs: seq<Run>, i: nat)
    requires ValidListing(l) && maxPages > 0 && Chained(l, maxPages, runs) && i < |runs| && RepeatsAt(runs, i)
    ensures !FromFirst(AllProcessed(runs))
  {
    hide RunOk, At;
    var upTo := runs[..i + 1];
    assert upTo[..i] == runs[..i] && Chained(l, maxPages, upTo) && upTo[i] == runs[i];
    var end := ChainCovers(l, maxPages, upTo);
    assert SinceStart(upTo) == runs[i].processed && runs[i].processed[0] == 0;
    var k := |AllProcessed(runs[..i])|;
    assert AllProcessed(upTo)[k] == 0;
    AllProcessedGrows(runs, i + 1);
    assert AllProcessed(runs)[k] == 0 && k > 0;
  }

  /** A chain processes each page at most once exactly when none of its runs
      begins at the first page again, and gets that page done, after others. */
  lemma ChainCoversOnceExactlyWhen(l: Listing, maxPages: nat, runs: seq<Run>)
    requires ValidListing(l) && maxPages > 0 && Chained(l, maxPages, runs)
    ensures FromFirst(AllProcessed(runs)) <==> forall i :: 0 <= i < |runs| ==> !RepeatsAt(runs, i)
  {
    hide RunOk, At, AllProcessed;
    if i :| 0 <= i < |runs| && RepeatsAt(runs, i) {
      RepetitionShows(l, maxPages, runs, i);
    } else {
      UnrepeatedIsOneStretch(l, maxPages, runs);
    }
  }

  /** Two pages, one page a run, and a listing error at the start of the second
      run: the worker takes the token for bad and does the first page again. */
  method RepeatingChain() returns (l: Listing, runs: seq<Run>)
    ensures ValidListing(l) && Chained(l, 1, runs) && AllProcessed(runs) == [0, 0]
  {
    l := Listing(2, _ => "t");
    var never, once := (k: nat) => false, (k: nat) => k == 1;
    var r1 := RunJob(l, None, 1, never, never, never);
    ghost var e1 := OneMoreRun(l, 1, r1, 0);
    var r2 := RunJob(l, r1.to, 1, never, once, never);
    ghost var e2 := OneMoreRun(l, 1, r2, 0);
    runs := [r1, r2];
    assert r1.processed == [0] && r2.processed == [0];
    assert runs[..1] == [r1] && [r1][..0] == [];
    assert AllProcessed([r1]) == [] + [0];
  }
}
