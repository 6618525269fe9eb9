/** The request tracker: a window of the last requests beside totals over the whole history. */
module RequestTracking {
  import opened Common
  import opened Counting

  const MAX_REQUESTS := 10000

  datatype Request = Request(path: string, status: int, seconds: real)

  predicate IsError(r: Request) {
    r.status >= 400
  }

  datatype Totals = Totals(requests: nat, errors: nat, seconds: real)

  function CountErrors(rs: seq<Request>): nat {
    if rs == [] then 0 else CountErrors(rs[..|rs| - 1]) + if IsError(rs[|rs| - 1]) then 1 else 0
  }

  function SumSeconds(rs: seq<Request>): real {
    if rs == [] then 0.0 else SumSeconds(rs[..|rs| - 1]) + rs[|rs| - 1].seconds
  }

  function TotalsOf(history: seq<Request>): Totals {
    Totals(|history|, CountErrors(history), SumSeconds(history))
  }

  /** Python's xs[-limit:]. */
  function SliceFromEnd<T>(xs: seq<T>, limit: int): seq<T> {
    var start := if limit > 0 then |xs| - limit else -limit;
    if start <= 0 then xs else if start >= |xs| then [] else xs[start..]
  }

  function Where(rs: seq<Request>, p: Request -> bool): seq<Request> {
    if rs == [] then [] else Where(rs[..|rs| - 1], p) + if p(rs[|rs| - 1]) then [rs[|rs| - 1]] else []
  }

  /** Filtering goes request by request and keeps the order. */
  lemma {:induction false} WhereJoined(a: seq<Request>, b: seq<Request>, p: Request -> bool)
    ensures Where(a + b, p) == Where(a, p) + Where(b, p)
  {
    if b == [] {
      assert a + b == a;
    } else {
      var init, last := b[..|b| - 1], b[|b| - 1];
      WhereJoined(a, init, p);
      assert (a + b)[..|a + b| - 1] == a + init && (a + b)[|a + b| - 1] == last;
      assert Where(a + b, p) == Where(a + init, p) + if p(last) then [last] else [];
    }
  }

  lemma WhereOne(r: Request, p: Request -> bool)
    ensures Where([r], p) == if p(r) then [r] else []
  {
    assert [r][..0] == [];
  }

  /** All but the first n. */
  function LeavingOut<T>(xs: seq<T>, n: nat): seq<T> {
    if n < |xs| then xs[n..] else []
  }

  /** A negative limit leaves out that many of the oldest. */
  lemma NegativeSliceMeans<T>(xs: seq<T>, limit: int)
    requires limit < 0
    ensures SliceFromEnd(xs, limit) == LeavingOut(xs, -limit)
  {
  }

  /** A positive limit takes that many of the newest; a limit of 0 takes them all. */
  lemma SliceMeans<T>(xs: seq<T>, limit: nat)
    ensures SliceFromEnd(xs, limit) == if limit == 0 then xs else LastN(xs, limit)
  {
  }

  /** The window after one more request. */
  function Slide(window: seq<Request>, r: Request): seq<Request> {
    var grown := window + [r];
    if |grown| > MAX_REQUESTS then grown[1..] else grown
  }

  lemma SlideMeans(window: seq<Request>, r: Request)
    requires |window| <= MAX_REQUESTS
    ensures Slide(window, r) == (if |window| < 10000 then window else window[1..]) + [r]
  {
  }

  lemma WindowSlides(history: seq<Request>, r: Request)
    ensures LastN(history + [r], MAX_REQUESTS) == Slide(LastN(history, MAX_REQUESTS), r)
  {
  }

  lemma TotalsGrow(history: seq<Request>, r: Request)
    ensures var t := TotalsOf(history);
            TotalsOf(history + [r]) == Totals(t.requests + 1, t.errors + if IsError(r) then 1 else 0, t.seconds + r.seconds)
  {
    assert (history + [r])[..|history|] == history;
  }

  class RequestTracker {
    var requests: seq<Request>
    var stats: Totals
    ghost var history: seq<Request>

    ghost predicate Valid()
      reads this
    {
      requests == LastN(history, MAX_REQUESTS) && stats == TotalsOf(history)
    }

    constructor ()
      ensures Valid() && history == []
    {
      requests, stats, history := [], Totals(0, 0, 0.0), [];
    }

    method LogRequest(r: Request)
      requires Valid()
      modifies this
      ensures Valid() && history == old(history) + [r]
      ensures stats == Totals(old(stats).requests + 1, old(stats).errors + (if r.status >= 400 then 1 else 0),
                              old(stats).seconds + r.seconds)
      ensures requests == (if |old(requests)| < 10000 then old(requests) else old(requests)[1..]) + [r]
    {
      WindowSlides(history, r);
      SlideMeans(requests, r);
      TotalsGrow(history, r);
      history := history + [r];
      stats := stats.(requests := stats.requests + 1);
      stats := stats.(seconds := stats.seconds + r.seconds);
      if r.status >= 400 {
        stats := stats.(errors := stats.errors + 1);
      }
      requests := requests + [r];
      if |requests| > MAX_REQUESTS {
        requests := requests[1..];
      }
    }

    method GetRecentRequests(limit: int) returns (recent: seq<Request>)
      requires Valid()
      ensures 1 <= limit <= MAX_REQUESTS ==> recent == LastN(history, limit)
      ensures limit == 0 || limit > MAX_REQUESTS ==> recent == LastN(history, MAX_REQUESTS)
      ensures limit < 0 ==> recent == LeavingOut(LastN(history, MAX_REQUESTS), -limit)
    {
      if limit >= 0 { SliceMeans(requests, limit); } else { NegativeSliceMeans(requests, limit); }
      recent := SliceFromEnd(requests, limit);
    }

    /** The error, slow and by-path queries: a filter, then a slice. */
    method GetMatching(p: Request -> bool, limit: int) returns (matching: seq<Request>)
      requires Valid()
      ensures limit >= 1 ==> matching == LastN(Where(LastN(history, MAX_REQUESTS), p), limit)
      ensures limit == 0 ==> matching == Where(LastN(history, MAX_REQUESTS), p)
      ensures limit < 0 ==> matching == LeavingOut(Where(LastN(history, MAX_REQUESTS), p), -limit)
    {
      var found := [];
      for i := 0 to |requests|
        invariant found == Where(requests[..i], p)
      {
        assert requests[..i + 1][..i] == requests[..i];
        if p(requests[i]) {
          found := found + [requests[i]];
        }
      }
      assert requests[..|requests|] == requests;
      if limit >= 0 { SliceMeans(found, limit); } else { NegativeSliceMeans(found, limit); }
      matching := SliceFromEnd(found, limit);
    }

    /** get_request_stats counts the window, not the totals. */
    method GetRequestStats() returns (total: nat, errors: nat, codes: map<int, nat>, order: seq<int>)
      requires Valid()
      ensures total == if stats.requests < MAX_REQUESTS then stats.requests else MAX_REQUESTS
      ensures errors == CountErrors(LastN(history, MAX_REQUESTS)) <= stats.errors
      ensures Tallied(Codes(LastN(history, MAX_REQUESTS)), order, codes)
    {
      ErrorsOfSuffix(history, MAX_REQUESTS);
      total, errors := |requests|, 0;
      for i := 0 to |requests|
        invariant errors == CountErrors(requests[..i])
      {
        assert requests[..i + 1][..i] == requests[..i];
        if IsError(requests[i]) {
          errors := errors + 1;
        }
      }
      assert requests[..|requests|] == requests;
      order, codes := Tally(Codes(requests));
    }
  }

  function Codes(rs: seq<Request>): seq<int> {
    seq(|rs|, i requires 0 <= i < |rs| => rs[i].status)
  }

  lemma {:induction false} ErrorsConcat(a: seq<Request>, b: seq<Request>)
    ensures CountErrors(a + b) == CountErrors(a) + CountErrors(b)
  {
    if b == [] {
      assert a + b == a;
    } else {
      ErrorsConcat(a, b[..|b| - 1]);
      assert (a + b)[..|a + b| - 1] == a + b[..|b| - 1];
    }
  }

  lemma ErrorsOfSuffix(rs: seq<Request>, n: nat)
    ensures CountErrors(LastN(rs, n)) <= CountErrors(rs)
  {
    if |rs| > n {
      ErrorsConcat(rs[..|rs| - n], rs[|rs| - n..]);
      assert rs == rs[..|rs| - n] + rs[|rs| - n..];
    }
  }
}
