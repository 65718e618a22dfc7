/**
  The paginated fetch loop fetch_all_ads (app.py:56-126).

  The network is an abstract transport: a total function from the request's
  page number, its attempt number and its query parameters to what happened
  when the request was made. The page number and the attempt number identify
  each request of a run, so every run of the loop is a run against some
  transport. Sleeps are counted, not taken: `naps` counts the one-second
  pauses between pages and `backoffs` the two-second pauses before a retry.
*/
module Fetcher {
  import opened Ads
  import opened Paging

  /** Attempts per page (app.py:59). */
  const MaxRetries: nat := 3

  /** Pages requested at most (app.py:71). */
  const MaxPages: nat := 10

  datatype Option<T> = None | Some(value: T)

  /**
    A response body that decoded to a JSON object: whether it has an "error"
    key, its "data" list (an absent list is empty) and the query string of
    its "paging.next" URL, if there is one.
  */
  datatype Body = Body(hasError: bool, data: seq<Record>, next: Option<seq<QueryPair>>)

  /** What one request comes to. */
  datatype Outcome =
    | Timeout          // requests.Timeout
    | RequestError     // any other requests.RequestException, HTTP status errors included
    | BadJson          // json.JSONDecodeError while decoding the body
    | Interrupt        // KeyboardInterrupt
    | Crash            // any other exception
    | Ok(body: Body)

  /** The network: (page_count, attempt, params) to outcome. */
  type Transport = (nat, nat, Params) -> Outcome

  /** Why the loop stopped. */
  datatype Reason =
    | PageCapReached
    | ApiError
    | EmptyPage
    | NoNextPage
    | RetriesExhausted
    | RequestFailed
    | InvalidJson
    | Cancelled
    | UnexpectedError

  /** One request as it was made, and its outcome. */
  datatype Request = Request(page: nat, attempt: nat, params: Params, outcome: Outcome)

  /** How the attempts at one page end: with a body, or with the loop giving up. */
  datatype PageResult = Got(body: Body) | GaveUp(reason: Reason)

  /**
    What the page loop does with a page once its attempts are over: stop,
    returning these records after the ones gathered so far, or append these
    records and go on with the next parameters.
  */
  datatype Step = Stop(reason: Reason, ads: seq<Record>) | Follow(ads: seq<Record>, next: Params)

  /** The attempts at one page: how they end, the requests made, the two-second sleeps taken. */
  datatype Attempts = Attempts(result: PageResult, log: seq<Request>, backoffs: nat)

  /**
    A whole run: the records returned, why the loop stopped, every request in
    the order made, the sleeps taken, and the value of page_count at the end.
  */
  datatype Run = Run(ads: seq<Record>, reason: Reason, log: seq<Request>,
                     naps: nat, backoffs: nat, pageCount: nat)

  /** The request for a page at an attempt, with the outcome the transport gives it. */
  function Sent(t: Transport, page: nat, attempt: nat, params: Params): Request
  {
    Request(page, attempt, params, t(page, attempt, params))
  }

  function Last<T>(s: seq<T>): T
    requires s != []
  {
    s[|s| - 1]
  }

  /**
    The verdict on a page once its final attempt is known: a body, or the
    reason the loop gives up, by the except clause the outcome lands in.
  */
  function Verdict(o: Outcome): PageResult
  {
    match o
    case Ok(body) => Got(body)
    case Timeout => GaveUp(RetriesExhausted)
    case RequestError => GaveUp(RequestFailed)
    case BadJson => GaveUp(InvalidJson)
    case Interrupt => GaveUp(Cancelled)
    case Crash => GaveUp(UnexpectedError)
  }

  /** The attempt loop (app.py:75-93) from the given attempt on. */
  function TryPage(t: Transport, page: nat, params: Params, attempt: nat): Attempts
    requires attempt < MaxRetries
    decreases MaxRetries - attempt
  {
    var sent := Sent(t, page, attempt, params);
    if sent.outcome.Timeout? && attempt < MaxRetries - 1 then
      var later := TryPage(t, page, params, attempt + 1);
      Attempts(later.result, [sent] + later.log, later.backoffs + 1)
    else Attempts(Verdict(sent.outcome), [sent], 0)
  }

  /**
    The checks on a page after its attempts (app.py:95-117): give up with
    the attempts' reason; stop on an "error" body without its data; stop on
    an empty page even if it has a next link; append a non-empty page, then
    stop if it has no next link or follow the link's parameters.
  */
  function Decide(result: PageResult): Step
  {
    match result
    case GaveUp(reason) => Stop(reason, [])
    case Got(body) =>
      if body.hasError then Stop(ApiError, [])
      else if body.data == [] then Stop(EmptyPage, [])
      else if body.next.None? then Stop(NoNextPage, body.data)
      else Follow(body.data, CursorParams(body.next.value))
  }

  /**
    The page loop (app.py:62-117) entered with page_count == pageCount and the
    given parameters: what it returns from here on.
  */
  function FetchFrom(t: Transport, params: Params, pageCount: nat): Run
    requires pageCount <= MaxPages
    decreases MaxPages - pageCount
  {
    var page := pageCount + 1;
    var nap := if page > 1 then 1 else 0;
    if page > MaxPages then Run([], PageCapReached, [], nap, 0, page)
    else
      var tries := TryPage(t, page, params, 0);
      match Decide(tries.result)
      case Stop(reason, ads) => Run(ads, reason, tries.log, nap, tries.backoffs, page)
      case Follow(ads, next) =>
        var rest := FetchFrom(t, next, page);
        Run(ads + rest.ads, rest.reason, tries.log + rest.log,
            nap + rest.naps, tries.backoffs + rest.backoffs, rest.pageCount)
  }

  /** fetch_all_ads(params) as a function. */
  function Fetch(t: Transport, params: Params): Run
  {
    FetchFrom(t, params, 0)
  }

  /**
    One pass of the page loop: past the cap it stops at once; below it, the
    attempts at the page, then what Decide makes of them.
  */
  lemma FetchFromPage(t: Transport, params: Params, pageCount: nat)
    requires pageCount <= MaxPages
    ensures pageCount == MaxPages ==>
      FetchFrom(t, params, pageCount) == Run([], PageCapReached, [], 1, 0, MaxPages + 1)
    ensures pageCount < MaxPages ==>
      var page := pageCount + 1;
      var tries := TryPage(t, page, params, 0);
      var step := Decide(tries.result);
      var nap := if page > 1 then 1 else 0;
      var r := FetchFrom(t, params, pageCount);
      && (step.Stop? ==> r == Run(step.ads, step.reason, tries.log, nap, tries.backoffs, page))
      && (step.Follow? ==>
            var rest := FetchFrom(t, step.next, page);
            r == Run(step.ads + rest.ads, rest.reason, tries.log + rest.log,
                     nap + rest.naps, tries.backoffs + rest.backoffs, rest.pageCount))
  {
  }

  /** One retried timeout: the attempts from here are this request followed by the attempts from the next. */
  lemma TryPageRetries(t: Transport, page: nat, params: Params, attempt: nat)
    requires attempt < MaxRetries - 1 && t(page, attempt, params) == Timeout
    ensures var later := TryPage(t, page, params, attempt + 1);
            TryPage(t, page, params, attempt) ==
              Attempts(later.result, [Sent(t, page, attempt, params)] + later.log, later.backoffs + 1)
  {
  }

  lemma Associative<T>(a: seq<T>, b: seq<T>, c: seq<T>)
    ensures a + (b + c) == (a + b) + c
  {
  }

  /**
    The attempt loop of one page (app.py:75-93): tries the request up to
    MaxRetries times, sleeping two seconds before each retry of a timeout,
    and gives up at once on any other failure. Its verdict and requests are
    exactly those of TryPage. A GaveUp verdict makes FetchAllAds return at
    once, as the `return all_ads` inside the attempt loop does.
  */
  method FetchPage(transport: Transport, pageCount: nat, params: Params)
    returns (result: PageResult, ghost sent: seq<Request>, ghost backoffs: nat)
    ensures result == TryPage(transport, pageCount, params, 0).result
    ensures sent == TryPage(transport, pageCount, params, 0).log
    ensures backoffs == TryPage(transport, pageCount, params, 0).backoffs
  {
    sent, backoffs := [], 0;
    var attempt := 0;
    while true
      invariant attempt < MaxRetries
      invariant var left := TryPage(transport, pageCount, params, attempt);
                TryPage(transport, pageCount, params, 0) ==
                  Attempts(left.result, sent + left.log, backoffs + left.backoffs)
      decreases MaxRetries - attempt
    {
      var outcome := transport(pageCount, attempt, params);
      ghost var request := Request(pageCount, attempt, params, outcome);
      ghost var before := sent;
      sent := sent + [request];
      match outcome {
        case Ok(body) =>
          result := Got(body);
          break;
        case Timeout =>
          if attempt == MaxRetries - 1 {
            result := GaveUp(RetriesExhausted);
            break;
          }
          backoffs := backoffs + 1;  // time.sleep(2)
          TryPageRetries(transport, pageCount, params, attempt);
          Associative(before, [request], TryPage(transport, pageCount, params, attempt + 1).log);
        case RequestError =>
          result := GaveUp(RequestFailed);
          break;
        case BadJson =>
          result := GaveUp(InvalidJson);
          break;
        case Interrupt =>
          result := GaveUp(Cancelled);
          break;
        case Crash =>
          result := GaveUp(UnexpectedError);
          break;
      }
      attempt := attempt + 1;
    }
  }

  /**
    One pass of the page loop after its sleep and page-cap check
    (app.py:75-117): the attempts at the page, then the checks on what they
    gave. A Stop step ends fetch_all_ads, which returns the records gathered
    so far followed by the step's records; a Follow step appends its records
    and carries the next request's parameters.
  */
  method TakePage(transport: Transport, pageCount: nat, params: Params)
    returns (step: Step, ghost sent: seq<Request>, ghost backoffs: nat)
    ensures step == Decide(TryPage(transport, pageCount, params, 0).result)
    ensures sent == TryPage(transport, pageCount, params, 0).log
    ensures backoffs == TryPage(transport, pageCount, params, 0).backoffs
  {
    var result;
    result, sent, backoffs := FetchPage(transport, pageCount, params);
    if result.GaveUp? {
      return Stop(result.reason, []), sent, backoffs;
    }
    var data := result.body;
    if data.hasError {
      return Stop(ApiError, []), sent, backoffs;
    }
    var currentAds := data.data;
    if currentAds == [] {
      return Stop(EmptyPage, []), sent, backoffs;
    }
    if data.next.None? {
      return Stop(NoNextPage, currentAds), sent, backoffs;
    }
    step := Follow(currentAds, CursorParams(data.next.value));
  }

  /**
    fetch_all_ads: returns the records of the run; the ghost result records
    the rest of it (reason, requests, sleeps, final page_count).
  */
  method FetchAllAds(transport: Transport, initial: Params) returns (allAds: seq<Record>, ghost run: Run)
    ensures run == Fetch(transport, initial)
    ensures allAds == run.ads
  {
    ghost var whole := Fetch(transport, initial);
    allAds := [];
    var params := initial;
    var pageCount: nat := 0;
    ghost var log: seq<Request> := [];
    ghost var naps: nat, backoffs: nat := 0, 0;
    ghost var reason: Reason;
    while true
      invariant pageCount <= MaxPages
      invariant whole.ads == allAds + FetchFrom(transport, params, pageCount).ads
      invariant whole.log == log + FetchFrom(transport, params, pageCount).log
      invariant whole.naps == naps + FetchFrom(transport, params, pageCount).naps
      invariant whole.backoffs == backoffs + FetchFrom(transport, params, pageCount).backoffs
      invariant whole.reason == FetchFrom(transport, params, pageCount).reason
      invariant whole.pageCount == FetchFrom(transport, params, pageCount).pageCount
      decreases MaxPages - pageCount
    {
      ghost var adsBefore, logBefore := allAds, log;
      pageCount := pageCount + 1;
      if pageCount > 1 {
        naps := naps + 1;  // time.sleep(1)
      }
      if pageCount > MaxPages {
        reason := PageCapReached;
        assert log + [] == log;
        break;
      }
      var step, sent, retried := TakePage(transport, pageCount, params);
      log, backoffs := log + sent, backoffs + retried;
      allAds := allAds + step.ads;
      if step.Stop? {
        reason := step.reason;
        break;
      }
      params := step.next;
      ghost var rest := FetchFrom(transport, params, pageCount);
      Associative(adsBefore, step.ads, rest.ads);
      Associative(logBefore, sent, rest.log);
    }
    run := Run(allAds, reason, log, naps, backoffs, pageCount);
  }
}
