/**
  What fetch_all_ads promises, stated about whole runs of the page loop
  (app.py:56-126): the requests it makes and their order, why it stops,
  what it returns and how long it sleeps.
*/
module FetchProperties {
  import opened Ads
  import opened Paging
  import opened Fetcher

  /**
    The attempts at a page are made in order with the same parameters; only
    a timeout is retried, after one backoff; the page's fate is decided by
    its final attempt, and a final timeout happens only when the attempts
    are used up.
  */
  lemma {:induction false} TryPageShape(t: Transport, page: nat, params: Params, attempt: nat)
    requires attempt < MaxRetries
    ensures var a := TryPage(t, page, params, attempt);
      && 1 <= |a.log| <= MaxRetries - attempt
      && (forall i :: 0 <= i < |a.log| ==> a.log[i] == Sent(t, page, attempt + i, params))
      && (forall i :: 0 <= i < |a.log| - 1 ==> a.log[i].outcome == Timeout)
      && a.result == Verdict(Last(a.log).outcome)
      && (Last(a.log).outcome == Timeout ==> attempt + |a.log| == MaxRetries)
      && a.backoffs == |a.log| - 1
    decreases MaxRetries - attempt
  {
    if t(page, attempt, params) == Timeout && attempt < MaxRetries - 1 {
      TryPageShape(t, page, params, attempt + 1);
      TryPageRetries(t, page, params, attempt);
      var later := TryPage(t, page, params, attempt + 1);
      var a := TryPage(t, page, params, attempt);
      assert a.log == [Sent(t, page, attempt, params)] + later.log;
      assert forall i :: 1 <= i < |a.log| ==> a.log[i] == later.log[i - 1];
    }
  }

  /** b is the retry of a: a timed out, and b asks for the same page with the same parameters. */
  predicate Retried(a: Request, b: Request) {
    a.outcome == Timeout && b.page == a.page && b.attempt == a.attempt + 1 && b.params == a.params
  }

  /** The response to req is a non-empty page without "error" that links to a next page. */
  predicate Follows(req: Request) {
    && req.outcome.Ok?
    && !req.outcome.body.hasError
    && req.outcome.body.data != []
    && req.outcome.body.next.Some?
  }

  /** b is the first attempt at the page after a's, with the parameters of a's next link. */
  predicate Advanced(a: Request, b: Request) {
    && Follows(a)
    && b.page == a.page + 1 && b.attempt == 0
    && b.params == CursorParams(a.outcome.body.next.value)
  }

  /** Each request is a retry of the one before it or the start of the next page. */
  predicate Chained(log: seq<Request>) {
    forall i :: 0 <= i < |log| - 1 ==> Retried(log[i], log[i + 1]) || Advanced(log[i], log[i + 1])
  }

  /**
    Every request got the transport's answer, asked for a page after
    pageCount and no later than MaxPages, and was one of the first
    MaxRetries attempts at it.
  */
  predicate Answered(t: Transport, log: seq<Request>, pageCount: nat) {
    forall i :: 0 <= i < |log| ==>
      && log[i].outcome == t(log[i].page, log[i].attempt, log[i].params)
      && pageCount < log[i].page <= MaxPages
      && log[i].attempt < MaxRetries
  }

  lemma ChainedAppend(a: seq<Request>, b: seq<Request>)
    requires Chained(a) && Chained(b)
    requires a != [] && b != [] ==> Advanced(Last(a), b[0])
    ensures Chained(a + b)
  {
    var ab := a + b;
    forall i | 0 <= i < |ab| - 1
      ensures Retried(ab[i], ab[i + 1]) || Advanced(ab[i], ab[i + 1])
    {
      if i < |a| - 1 {
        assert ab[i] == a[i] && ab[i + 1] == a[i + 1];
      } else if i == |a| - 1 {
        assert ab[i] == Last(a) && ab[i + 1] == b[0];
      } else {
        assert ab[i] == b[i - |a|] && ab[i + 1] == b[i - |a| + 1];
      }
    }
  }

  lemma AnsweredAppend(t: Transport, a: seq<Request>, b: seq<Request>, pageCount: nat)
    requires Answered(t, a, pageCount) && Answered(t, b, pageCount)
    ensures Answered(t, a + b, pageCount)
  {
    var ab := a + b;
    forall i | 0 <= i < |ab|
      ensures ab[i].outcome == t(ab[i].page, ab[i].attempt, ab[i].params)
      ensures pageCount < ab[i].page <= MaxPages && ab[i].attempt < MaxRetries
    {
      if i < |a| {
        assert ab[i] == a[i];
      } else {
        assert ab[i] == b[i - |a|];
      }
    }
  }

  /** The attempts at one page are retries of one another, each answered by the transport. */
  lemma AttemptsInOrder(t: Transport, page: nat, params: Params)
    requires 0 < page <= MaxPages
    ensures var tries := TryPage(t, page, params, 0);
      && tries.log[0] == Sent(t, page, 0, params)
      && Chained(tries.log)
      && Answered(t, tries.log, page - 1)
      && tries.result == Verdict(Last(tries.log).outcome)
  {
    var tries := TryPage(t, page, params, 0);
    TryPageShape(t, page, params, 0);
    forall i | 0 <= i < |tries.log| - 1
      ensures Retried(tries.log[i], tries.log[i + 1])
    {
    }
  }

  /**
    The requests of a run from page_count == pageCount with the given
    parameters, in the order made: the first asks for page pageCount + 1
    with those parameters; each later one is a retry after a timeout or the
    first attempt at the next page with the parameters of the previous
    page's next link; none asks for a page past MaxPages; and the run makes
    no request only when it starts at the cap.
  */
  predicate InOrder(t: Transport, log: seq<Request>, params: Params, pageCount: nat) {
    && (log == [] <==> pageCount == MaxPages)
    && (log != [] ==> log[0] == Sent(t, pageCount + 1, 0, params))
    && Chained(log)
    && Answered(t, log, pageCount)
  }

  /** The attempts at a page followed by the requests of the rest of the run, which starts at the next link. */
  lemma InOrderAfterPage(t: Transport, tries: Attempts, rest: seq<Request>, params: Params, next: Params, page: nat)
    requires 0 < page <= MaxPages
    requires tries.log != [] && tries.log[0] == Sent(t, page, 0, params)
    requires Chained(tries.log) && Answered(t, tries.log, page - 1)
    requires Follows(Last(tries.log)) && Last(tries.log).page == page
    requires next == CursorParams(Last(tries.log).outcome.body.next.value)
    requires InOrder(t, rest, next, page)
    ensures InOrder(t, tries.log + rest, params, page - 1)
  {
    if rest != [] {
      assert Advanced(Last(tries.log), rest[0]);
    }
    ChainedAppend(tries.log, rest);
    AnsweredAppend(t, tries.log, rest, page - 1);
    assert (tries.log + rest)[0] == tries.log[0];
  }

  /**
    The requests of every run are in order. So a request that fails other
    than by a timeout, an "error" body, an empty page and a page without a
    next link are each followed by nothing.
  */
  lemma {:induction false} RequestsInOrder(t: Transport, params: Params, pageCount: nat)
    requires pageCount <= MaxPages
    ensures InOrder(t, FetchFrom(t, params, pageCount).log, params, pageCount)
    decreases MaxPages - pageCount
  {
    FetchFromPage(t, params, pageCount);
    if pageCount < MaxPages {
      var page := pageCount + 1;
      var tries := TryPage(t, page, params, 0);
      AttemptsInOrder(t, page, params);
      PageEnds(t, page, params);
      var step := Decide(tries.result);
      if step.Follow? {
        RequestsInOrder(t, step.next, page);
        InOrderAfterPage(t, tries, FetchFrom(t, step.next, page).log, params, step.next, page);
      }
    }
  }

  /**
    The request that ended a run, and the reason it gives: a timeout on the
    last attempt (app.py:84-86), any other request failure (app.py:88-93,
    119-124), an "error" body (app.py:95-98), an empty page (app.py:101-102)
    or a page without a next link (app.py:109-110).
  */
  predicate Ends(req: Request, reason: Reason) {
    match req.outcome
    case Ok(body) =>
      if body.hasError then reason == ApiError
      else if body.data == [] then reason == EmptyPage
      else body.next.None? && reason == NoNextPage
    case Timeout => reason == RetriesExhausted && req.attempt == MaxRetries - 1
    case RequestError => reason == RequestFailed
    case BadJson => reason == InvalidJson
    case Interrupt => reason == Cancelled
    case Crash => reason == UnexpectedError
  }

  /**
    How the attempts at one page end: the final attempt is for that page,
    and it either gives the reason the loop stops or returns a page to
    follow.
  */
  lemma PageEnds(t: Transport, page: nat, params: Params)
    ensures var tries := TryPage(t, page, params, 0);
      && tries.log != []
      && Last(tries.log).page == page
      && var step := Decide(tries.result);
         (step.Stop? ==> Ends(Last(tries.log), step.reason)) && (step.Follow? ==> Follows(Last(tries.log)))
  {
    TryPageShape(t, page, params, 0);
  }

  /**
    Why a run from page_count == pageCount stops: it reaches the cap
    exactly when page_count passes MaxPages, having followed every page up
    to MaxPages; otherwise it stops at the page of its last request.
  */
  predicate StopsAt(r: Run, pageCount: nat) {
    && pageCount < r.pageCount <= MaxPages + 1
    && (r.log == [] ==> pageCount == MaxPages)
    && (r.reason == PageCapReached <==> r.pageCount == MaxPages + 1)
    && (r.reason == PageCapReached && r.log != [] ==> Last(r.log).page == MaxPages && Follows(Last(r.log)))
    && (r.reason != PageCapReached ==> r.log != [] && Last(r.log).page == r.pageCount)
  }

  /** A page that stops the loop below the cap. */
  lemma StopsAtPage(tries: Attempts, reason: Reason, r: Run, page: nat)
    requires 0 < page <= MaxPages && reason != PageCapReached
    requires tries.log != [] && Last(tries.log).page == page
    requires r.log == tries.log && r.reason == reason && r.pageCount == page
    ensures StopsAt(r, page - 1)
  {
  }

  /** A page followed by the rest of the run. */
  lemma StopsAfterPage(tries: Attempts, rest: Run, r: Run, page: nat)
    requires 0 < page <= MaxPages
    requires tries.log != [] && Last(tries.log).page == page && Follows(Last(tries.log))
    requires StopsAt(rest, page)
    requires r.log == tries.log + rest.log && r.reason == rest.reason && r.pageCount == rest.pageCount
    ensures StopsAt(r, page - 1)
  {
    if rest.log != [] {
      assert Last(r.log) == Last(rest.log);
    } else {
      assert Last(r.log) == Last(tries.log);
    }
  }

  /** Every run stops as StopsAt describes. */
  lemma {:induction false} StopPage(t: Transport, params: Params, pageCount: nat)
    requires pageCount <= MaxPages
    ensures StopsAt(FetchFrom(t, params, pageCount), pageCount)
    decreases MaxPages - pageCount
  {
    FetchFromPage(t, params, pageCount);
    if pageCount < MaxPages {
      var page := pageCount + 1;
      var tries := TryPage(t, page, params, 0);
      PageEnds(t, page, params);
      var step := Decide(tries.result);
      var r := FetchFrom(t, params, pageCount);
      if step.Follow? {
        StopPage(t, step.next, page);
        StopsAfterPage(tries, FetchFrom(t, step.next, page), r, page);
      } else {
        StopsAtPage(tries, step.reason, r, page);
      }
    }
  }

  /** The last request of a run that does not reach the cap gives the reason it stops. */
  predicate EndsFor(r: Run) {
    r.reason != PageCapReached ==> r.log != [] && Ends(Last(r.log), r.reason)
  }

  /** A page followed by the rest of the run: the run ends where the rest does. */
  lemma EndsAfterPage(tries: Attempts, rest: Run, r: Run)
    requires EndsFor(rest)
    requires r.log == tries.log + rest.log && r.reason == rest.reason
    ensures EndsFor(r)
  {
    if rest.log != [] {
      assert Last(r.log) == Last(rest.log);
    }
  }

  /** A page that stops the loop below the cap: its final attempt gives the reason. */
  lemma EndsAtPage(tries: Attempts, reason: Reason, r: Run)
    requires tries.log != [] && Ends(Last(tries.log), reason)
    requires r.log == tries.log && r.reason == reason
    ensures EndsFor(r)
  {
  }

  /** Every run that does not reach the cap ends at a request that gives its reason. */
  lemma {:induction false} StopReason(t: Transport, params: Params, pageCount: nat)
    requires pageCount <= MaxPages
    ensures EndsFor(FetchFrom(t, params, pageCount))
    decreases MaxPages - pageCount
  {
    FetchFromPage(t, params, pageCount);
    if pageCount < MaxPages {
      var page := pageCount + 1;
      var tries := TryPage(t, page, params, 0);
      var step := Decide(tries.result);
      if step.Follow? {
        StopReason(t, step.next, page);
        EndsAfterPage(tries, FetchFrom(t, step.next, page), FetchFrom(t, params, pageCount));
      } else {
        PageEnds(t, page, params);
        EndsAtPage(tries, step.reason, FetchFrom(t, params, pageCount));
      }
    }
  }

  /** The records a request contributes: the data of a response without "error", nothing otherwise. */
  function Kept(req: Request): seq<Record>
  {
    if req.outcome.Ok? && !req.outcome.body.hasError then req.outcome.body.data else []
  }

  /** The records of every request of a log, in request order. */
  function Gathered(log: seq<Request>): seq<Record>
    decreases |log|
  {
    if log == [] then [] else Kept(log[0]) + Gathered(log[1..])
  }

  lemma {:induction false} GatheredAppend(a: seq<Request>, b: seq<Request>)
    ensures Gathered(a + b) == Gathered(a) + Gathered(b)
    decreases |a|
  {
    if a == [] {
      assert a + b == b;
    } else {
      assert (a + b)[0] == a[0];
      assert (a + b)[1..] == a[1..] + b;
      GatheredAppend(a[1..], b);
      assert Kept(a[0]) + (Gathered(a[1..]) + Gathered(b)) == (Kept(a[0]) + Gathered(a[1..])) + Gathered(b);
    }
  }

  /** Attempts that time out contribute nothing: a page's records come from its final attempt. */
  lemma {:induction false} GatheredAttempts(log: seq<Request>)
    requires log != []
    requires forall i :: 0 <= i < |log| - 1 ==> log[i].outcome == Timeout
    ensures Gathered(log) == Kept(Last(log))
    decreases |log|
  {
    if |log| > 1 {
      GatheredAttempts(log[1..]);
      assert Last(log[1..]) == Last(log);
    }
  }

  /** The records the loop keeps from a page are those its final attempt contributes. */
  lemma PageKept(t: Transport, page: nat, params: Params)
    ensures var tries := TryPage(t, page, params, 0);
            Gathered(tries.log) == Decide(tries.result).ads
  {
    var tries := TryPage(t, page, params, 0);
    TryPageShape(t, page, params, 0);
    GatheredAttempts(tries.log);
  }

  /** A page followed by the rest of the run: the page's records come before the rest's. */
  lemma GatheredAfterPage(tries: Attempts, ads: seq<Record>, rest: Run, r: Run)
    requires Gathered(tries.log) == ads && rest.ads == Gathered(rest.log)
    requires r.ads == ads + rest.ads && r.log == tries.log + rest.log
    ensures r.ads == Gathered(r.log)
  {
    GatheredAppend(tries.log, rest.log);
  }

  /**
    What fetch_all_ads returns is the data of every response without
    "error", in the order the requests were made, each page whole
    (app.py:100-104): nothing from a page with "error", nothing from a
    failed request, and nothing twice.
  */
  lemma {:induction false} AdsGathered(t: Transport, params: Params, pageCount: nat)
    requires pageCount <= MaxPages
    ensures var r := FetchFrom(t, params, pageCount);
            r.ads == Gathered(r.log)
    decreases MaxPages - pageCount
  {
    FetchFromPage(t, params, pageCount);
    if pageCount < MaxPages {
      var page := pageCount + 1;
      var tries := TryPage(t, page, params, 0);
      PageKept(t, page, params);
      var step := Decide(tries.result);
      if step.Follow? {
        AdsGathered(t, step.next, page);
        GatheredAfterPage(tries, step.ads, FetchFrom(t, step.next, page), FetchFrom(t, params, pageCount));
      } else {
        var r := FetchFrom(t, params, pageCount);
        assert r.ads == step.ads && r.log == tries.log;
      }
    }
  }

  /** How many requests of a log timed out. */
  function Timeouts(log: seq<Request>): nat
    decreases |log|
  {
    if log == [] then 0 else (if log[0].outcome == Timeout then 1 else 0) + Timeouts(log[1..])
  }

  lemma {:induction false} TimeoutsAppend(a: seq<Request>, b: seq<Request>)
    ensures Timeouts(a + b) == Timeouts(a) + Timeouts(b)
    decreases |a|
  {
    if a == [] {
      assert a + b == b;
    } else {
      assert (a + b)[0] == a[0];
      assert (a + b)[1..] == a[1..] + b;
      TimeoutsAppend(a[1..], b);
    }
  }

  /** Every attempt at a page but the last timed out; the last may have too. */
  lemma {:induction false} TimeoutsOfAttempts(log: seq<Request>)
    requires log != []
    requires forall i :: 0 <= i < |log| - 1 ==> log[i].outcome == Timeout
    ensures Timeouts(log) == |log| - 1 + (if Last(log).outcome == Timeout then 1 else 0)
    decreases |log|
  {
    if |log| > 1 {
      TimeoutsOfAttempts(log[1..]);
      assert Last(log[1..]) == Last(log);
    }
  }

  /** A page's two-second sleeps are its timeouts, less the last one when the attempts ran out. */
  lemma PageBackoffs(t: Transport, page: nat, params: Params)
    ensures var tries := TryPage(t, page, params, 0);
            var step := Decide(tries.result);
            && (step.Follow? ==> tries.backoffs == Timeouts(tries.log))
            && (step.Stop? ==> tries.backoffs + (if step.reason == RetriesExhausted then 1 else 0) == Timeouts(tries.log))
  {
    var tries := TryPage(t, page, params, 0);
    TryPageShape(t, page, params, 0);
    TimeoutsOfAttempts(tries.log);
  }

  /** The two-second sleeps of a run are its timeouts, less one when the attempts ran out. */
  predicate SleptPerTimeout(r: Run) {
    r.backoffs + (if r.reason == RetriesExhausted then 1 else 0) == Timeouts(r.log)
  }

  /** A page followed by the rest of the run: its sleeps and timeouts add to the rest's. */
  lemma SleptAfterPage(tries: Attempts, rest: Run, r: Run)
    requires tries.backoffs == Timeouts(tries.log)
    requires SleptPerTimeout(rest)
    requires r.log == tries.log + rest.log && r.backoffs == tries.backoffs + rest.backoffs && r.reason == rest.reason
    ensures SleptPerTimeout(r)
  {
    TimeoutsAppend(tries.log, rest.log);
  }

  /** A page that stops the loop: its sleeps and timeouts are the run's. */
  lemma SleptAtPage(tries: Attempts, reason: Reason, r: Run)
    requires tries.backoffs + (if reason == RetriesExhausted then 1 else 0) == Timeouts(tries.log)
    requires r.log == tries.log && r.backoffs == tries.backoffs && r.reason == reason
    ensures SleptPerTimeout(r)
  {
  }

  /**
    A two-second sleep follows every timeout except one that ends the run
    (app.py:82-87).
  */
  lemma {:induction false} BackoffPerTimeout(t: Transport, params: Params, pageCount: nat)
    requires pageCount <= MaxPages
    ensures SleptPerTimeout(FetchFrom(t, params, pageCount))
    decreases MaxPages - pageCount
  {
    FetchFromPage(t, params, pageCount);
    if pageCount < MaxPages {
      var page := pageCount + 1;
      var tries := TryPage(t, page, params, 0);
      PageBackoffs(t, page, params);
      var step := Decide(tries.result);
      if step.Follow? {
        BackoffPerTimeout(t, step.next, page);
        SleptAfterPage(tries, FetchFrom(t, step.next, page), FetchFrom(t, params, pageCount));
      } else {
        SleptAtPage(tries, step.reason, FetchFrom(t, params, pageCount));
      }
    }
  }

  /** The naps of a run from page_count == pageCount: one per pass, less the very first pass. */
  predicate NappedPerPass(r: Run, pageCount: nat) {
    r.naps == r.pageCount - pageCount - (if pageCount == 0 then 1 else 0)
  }

  /** A page followed by the rest of the run: its nap, if any, adds to the rest's. */
  lemma NappedAfterPage(nap: nat, rest: Run, r: Run, page: nat)
    requires page >= 1 && nap == (if page > 1 then 1 else 0)
    requires NappedPerPass(rest, page)
    requires r.naps == nap + rest.naps && r.pageCount == rest.pageCount
    ensures NappedPerPass(r, page - 1)
  {
  }

  /**
    A one-second sleep comes before every page but the first, the page
    that hits the cap included (app.py:63-73): the naps of the run from
    page_count == pageCount are the passes it makes through the loop, less
    the very first pass of fetch_all_ads.
  */
  lemma {:induction false} NapPerPage(t: Transport, params: Params, pageCount: nat)
    requires pageCount <= MaxPages
    ensures NappedPerPass(FetchFrom(t, params, pageCount), pageCount)
    decreases MaxPages - pageCount
  {
    FetchFromPage(t, params, pageCount);
    if pageCount < MaxPages {
      var page := pageCount + 1;
      var step := Decide(TryPage(t, page, params, 0).result);
      if step.Follow? {
        NapPerPage(t, step.next, page);
        NappedAfterPage(if page > 1 then 1 else 0, FetchFrom(t, step.next, page), FetchFrom(t, params, pageCount), page);
      }
    }
  }

  /** Each page is tried at most MaxRetries times, so a run makes at most MaxRetries requests per page left. */
  lemma {:induction false} RequestCount(t: Transport, params: Params, pageCount: nat)
    requires pageCount <= MaxPages
    ensures |FetchFrom(t, params, pageCount).log| <= MaxRetries * (MaxPages - pageCount)
    decreases MaxPages - pageCount
  {
    FetchFromPage(t, params, pageCount);
    if pageCount < MaxPages {
      var page := pageCount + 1;
      var tries := TryPage(t, page, params, 0);
      TryPageShape(t, page, params, 0);
      var step := Decide(tries.result);
      if step.Follow? {
        RequestCount(t, step.next, page);
      }
    }
  }

  /**
    fetch_all_ads as a whole: it asks for pages 1 to MaxPages at most,
    makes at most MaxRetries * MaxPages requests, ends with page_count at
    most MaxPages + 1, and sleeps one second once per pass but the first.
  */
  lemma FetchBounds(t: Transport, params: Params)
    ensures var r := Fetch(t, params);
      && r.pageCount <= MaxPages + 1
      && |r.log| <= MaxRetries * MaxPages
      && (forall i :: 0 <= i < |r.log| ==> 1 <= r.log[i].page <= MaxPages)
      && r.naps == r.pageCount - 1
  {
    RequestsInOrder(t, params, 0);
    RequestCount(t, params, 0);
    StopPage(t, params, 0);
    NapPerPage(t, params, 0);
  }

  /**
    A server that always times out: three attempts at page 1, a two-second
    sleep before each retry, no records and no sleep between pages.
  */
  lemma AlwaysTimingOut(t: Transport, params: Params)
    requires forall page, attempt, q :: t(page, attempt, q) == Timeout
    ensures Fetch(t, params) ==
      Run([], RetriesExhausted, [Sent(t, 1, 0, params), Sent(t, 1, 1, params), Sent(t, 1, 2, params)], 0, 2, 1)
  {
    assert TryPage(t, 1, params, 2) == Attempts(GaveUp(RetriesExhausted), [Sent(t, 1, 2, params)], 0);
    assert TryPage(t, 1, params, 1) ==
      Attempts(GaveUp(RetriesExhausted), [Sent(t, 1, 1, params), Sent(t, 1, 2, params)], 1);
  }

  /**
    A server whose every page holds one record and links to another: one
    request per page, every page kept, until the cap.
  */
  lemma {:induction false} EndlessPages(t: Transport, ad: Record, pairs: seq<QueryPair>, params: Params, pageCount: nat)
    requires forall page, attempt, q :: t(page, attempt, q) == Ok(Body(false, [ad], Some(pairs)))
    requires pageCount <= MaxPages
    ensures var r := FetchFrom(t, params, pageCount);
      && r.reason == PageCapReached
      && |r.log| == MaxPages - pageCount
      && r.ads == seq(MaxPages - pageCount, _ => ad)
    decreases MaxPages - pageCount
  {
    FetchFromPage(t, params, pageCount);
    if pageCount < MaxPages {
      var page := pageCount + 1;
      var next := CursorParams(pairs);
      assert TryPage(t, page, params, 0) == Attempts(Got(Body(false, [ad], Some(pairs))), [Sent(t, page, 0, params)], 0);
      EndlessPages(t, ad, pairs, next, page);
      assert [ad] + seq(MaxPages - page, _ => ad) == seq(MaxPages - pageCount, _ => ad);
    }
  }

  /**
    Against such a server fetch_all_ads stops at the cap with ten records
    from ten requests, having slept one second before each of pages 2 to
    10 and once more before breaking at page_count 11.
  */
  lemma CapAfterTenPages(t: Transport, ad: Record, pairs: seq<QueryPair>, params: Params)
    requires forall page, attempt, q :: t(page, attempt, q) == Ok(Body(false, [ad], Some(pairs)))
    ensures var r := Fetch(t, params);
      && r.reason == PageCapReached
      && |r.ads| == 10 && |r.log| == 10
      && r.pageCount == 11 && r.naps == 10
  {
    EndlessPages(t, ad, pairs, params, 0);
    StopPage(t, params, 0);
    NapPerPage(t, params, 0);
  }
}
