/**
 * The request filter that limits login attempts and order requests: a
 * fixed one-minute window counter per (remote address, request URI), kept
 * in a map of counters that are reset and incremented in place. The clock
 * reading is the `now` argument (milliseconds since the epoch).
 */
module RateLimiting {
  import opened Wrappers
  import opened Text

  const LOGIN_LIMIT: int := 10
  const ORDER_LIMIT: int := 5
  const WINDOW_MILLIS: int := 60000
  const TOO_MANY_REQUESTS: int := 429

  /** A counter's value: when its window began and how many calls it has counted in it. */
  datatype Window = Window(start: int, count: int)

  /** What the filter does with a request: pass it down the chain, or answer it itself. */
  datatype FilterOutcome = Forwarded | Rejected(status: int, contentType: string, body: string)

  datatype Request = Request(remoteAddr: string, requestUri: string)

  /** One counted call at time `now`: the key's window after it, and whether the call is over the limit. */
  function Tick(w: Option<Window>, now: int, limit: int): (r: (Window, bool))
    ensures r.1 <==> r.0.count > limit
    ensures r.0 == Window(now, 1) || (w.Some? && r.0 == w.value.(count := w.value.count + 1))
  {
    var current := if w.None? then Window(now, 0) else w.value;
    var started := if now - current.start >= WINDOW_MILLIS then Window(now, 0) else current;
    var counted := started.(count := started.count + 1);
    (counted, counted.count > limit)
  }

  function Lookup(windows: map<string, Window>, key: string): Option<Window>
  {
    if key in windows then Some(windows[key]) else None
  }

  /** The limit and rejection message for a path, or None for a path the filter does not count. */
  function Classify(path: string): (r: Option<(int, string)>)
    ensures r.Some? ==> StartsWith(path, "/api/") && r.value.0 in {LOGIN_LIMIT, ORDER_LIMIT}
  {
    if StartsWith(path, "/api/auth/login") then Some((LOGIN_LIMIT, "Too many login attempts"))
    else if StartsWith(path, "/api/orders") then Some((ORDER_LIMIT, "Too many order requests"))
    else None
  }

  /** The counter key: the remote address, a colon, then the full request URI. */
  function Key(request: Request): (k: string)
    ensures StartsWith(k, request.remoteAddr + ":")
    ensures k[|request.remoteAddr| + 1..] == request.requestUri
  {
    request.remoteAddr + ":" + request.requestUri
  }

  function RejectBody(message: string): string
  {
    "{\"error\":\"RATE_LIMIT\",\"message\":\"" + message + "\"}"
  }

  function Reject(message: string): FilterOutcome
  {
    Rejected(TOO_MANY_REQUESTS, "application/json", RejectBody(message))
  }

  /** The filter on the counters' values: the counters afterwards and what happens to the request. */
  function FilterStep(windows: map<string, Window>, request: Request, now: int): (r: (map<string, Window>, FilterOutcome))
    ensures Classify(request.requestUri).None? ==> r.0 == windows
    ensures Classify(request.requestUri).Some? ==> r.0.Keys == windows.Keys + {Key(request)}
    ensures r.1.Rejected? ==> Classify(request.requestUri).Some? && r.1.status == TOO_MANY_REQUESTS
  {
    match Classify(request.requestUri)
    case None => (windows, Forwarded)
    case Some((limit, message)) =>
      var (w, limited) := Tick(Lookup(windows, Key(request)), now, limit);
      (windows[Key(request) := w], if limited then Reject(message) else Forwarded)
  }

  /** A key's calls at the given times, one after another: whether each was over the limit. */
  function TickRun(w: Option<Window>, times: seq<int>, limit: int): (r: seq<bool>)
    ensures |r| == |times|
    decreases |times|
  {
    if times == [] then []
    else
      var (next, limited) := Tick(w, times[0], limit);
      [limited] + TickRun(Some(next), times[1..], limit)
  }

  /** The same request sent at each of the times: what the filter does with each. */
  function Repeat(windows: map<string, Window>, request: Request, times: seq<int>): (r: seq<FilterOutcome>)
    ensures |r| == |times|
    decreases |times|
  {
    if times == [] then []
    else
      var (next, outcome) := FilterStep(windows, request, times[0]);
      [outcome] + Repeat(next, request, times[1..])
  }

  /**
   * A key seen for the first time opens a window at `now` and counts one
   * call; a window that began a full minute or more ago (the boundary
   * included) restarts at `now` with one call; otherwise the call is added
   * to the count, rejected calls included. The call is over the limit
   * exactly when the new count exceeds it.
   */
  lemma TickEffect(w: Option<Window>, now: int, limit: int)
    ensures var (next, limited) := Tick(w, now, limit);
      && (limited <==> next.count > limit)
      && (w.None? ==> next == Window(now, 1))
      && (w.Some? && now - w.value.start >= WINDOW_MILLIS ==> next == Window(now, 1))
      && (w.Some? && now - w.value.start < WINDOW_MILLIS ==> next == w.value.(count := w.value.count + 1))
  {
  }

  /**
   * Inside one window, the counts only grow: the k-th further call of a key
   * whose window began at `start` with `c` calls is over the limit exactly
   * when c + k + 1 exceeds it.
   */
  lemma {:induction false} WithinWindow(start: int, c: int, times: seq<int>, limit: int)
    requires forall k :: 0 <= k < |times| ==> times[k] - start < WINDOW_MILLIS
    ensures forall k :: 0 <= k < |times| ==> (TickRun(Some(Window(start, c)), times, limit)[k] <==> c + k + 1 > limit)
    decreases |times|
  {
    if times != [] {
      WithinWindow(start, c + 1, times[1..], limit);
      var r := TickRun(Some(Window(start, c)), times, limit);
      assert r[1..] == TickRun(Some(Window(start, c + 1)), times[1..], limit);
      forall k | 0 <= k < |times|
        ensures r[k] <==> c + k + 1 > limit
      {
        if k > 0 {
          assert r[k] == r[1..][k - 1];
        }
      }
    }
  }

  /**
   * A new key's calls within a minute of its first: call k (from 0) is over
   * the limit exactly when k + 1 exceeds it, so the first `limit` calls pass
   * and every later one in the window is rejected.
   */
  lemma NewKeyWindow(times: seq<int>, limit: int)
    requires |times| > 0
    requires forall k :: 0 <= k < |times| ==> times[k] - times[0] < WINDOW_MILLIS
    ensures forall k :: 0 <= k < |times| ==> (TickRun(None, times, limit)[k] <==> k + 1 > limit)
  {
    var r := TickRun(None, times, limit);
    var rest := times[1..];
    assert forall k :: 0 <= k < |rest| ==> rest[k] == times[k + 1];
    WithinWindow(times[0], 1, rest, limit);
    assert r[1..] == TickRun(Some(Window(times[0], 1)), rest, limit);
    forall k | 0 <= k < |times|
      ensures r[k] <==> k + 1 > limit
    {
      if k > 0 {
        assert r[k] == r[1..][k - 1];
      }
    }
  }

  /**
   * Only the request's own counter changes, and only for a counted path: an
   * uncounted path is forwarded with every counter as it was. A request is
   * rejected exactly when its path is counted and its key's new count
   * exceeds the path's limit; the rejection is a 429 JSON body with error
   * RATE_LIMIT and the path's message.
   */
  lemma FilterStepEffect(windows: map<string, Window>, request: Request, now: int)
    ensures var (after, outcome) := FilterStep(windows, request, now);
      && (Classify(request.requestUri).None? ==> after == windows && outcome == Forwarded)
      && (forall k :: k != Key(request) ==> (k in after <==> k in windows))
      && (forall k :: k in windows && k != Key(request) ==> after[k] == windows[k])
      && (Classify(request.requestUri).Some? ==> Key(request) in after)
      && (outcome.Rejected? <==>
            Classify(request.requestUri).Some? && after[Key(request)].count > Classify(request.requestUri).value.0)
      && (outcome.Rejected? ==>
            outcome == Reject(Classify(request.requestUri).value.1)
            && outcome.status == 429 && outcome.contentType == "application/json"
            && StartsWith(outcome.body, "{\"error\":\"RATE_LIMIT\",\"message\":\""))
  {
    var outcome := FilterStep(windows, request, now).1;
    if outcome.Rejected? {
      var prefix := "{\"error\":\"RATE_LIMIT\",\"message\":\"";
      assert outcome.body[..|prefix|] == prefix;
    }
  }

  /** Login paths are limited to 10 calls a window and order paths to 5, with their own messages; nothing else is counted. */
  lemma ClassifyPaths(path: string)
    ensures StartsWith(path, "/api/auth/login") ==> Classify(path) == Some((10, "Too many login attempts"))
    ensures !StartsWith(path, "/api/auth/login") && StartsWith(path, "/api/orders") ==>
              Classify(path) == Some((5, "Too many order requests"))
    ensures Classify(path).None? <==> !StartsWith(path, "/api/auth/login") && !StartsWith(path, "/api/orders")
  {
  }

  /** The key's first '/' comes right after the address and its separator. */
  lemma KeySlash(r: Request)
    requires '/' !in r.remoteAddr
    requires |r.requestUri| > 0 && r.requestUri[0] == '/'
    ensures Key(r)[|r.remoteAddr| + 1] == '/'
    ensures forall i :: 0 <= i <= |r.remoteAddr| ==> Key(r)[i] != '/'
    ensures Key(r)[..|r.remoteAddr|] == r.remoteAddr && Key(r)[|r.remoteAddr| + 1..] == r.requestUri
  {
    forall i | 0 <= i <= |r.remoteAddr|
      ensures Key(r)[i] != '/'
    {
      if i < |r.remoteAddr| {
        assert Key(r)[i] == r.remoteAddr[i];
      }
    }
  }

  /**
   * Counters are per address and full URI: when addresses contain no '/'
   * and URIs begin with one, two requests share a counter only if they have
   * the same address and the same URI.
   */
  lemma KeyInjective(a: Request, b: Request)
    requires '/' !in a.remoteAddr && '/' !in b.remoteAddr
    requires |a.requestUri| > 0 && a.requestUri[0] == '/'
    requires |b.requestUri| > 0 && b.requestUri[0] == '/'
    ensures Key(a) == Key(b) ==> a == b
  {
    KeySlash(a);
    KeySlash(b);
  }

  /** Repeating one counted request follows its key's counter call by call. */
  lemma {:induction false} RepeatFollowsCounter(windows: map<string, Window>, request: Request, times: seq<int>)
    requires Classify(request.requestUri).Some?
    decreases |times|
    ensures var (limit, message) := Classify(request.requestUri).value;
      forall k :: 0 <= k < |times| ==>
        Repeat(windows, request, times)[k]
          == if TickRun(Lookup(windows, Key(request)), times, limit)[k] then Reject(message) else Forwarded
  {
    if times != [] {
      var (limit, message) := Classify(request.requestUri).value;
      var (next, outcome) := FilterStep(windows, request, times[0]);
      var (w, limited) := Tick(Lookup(windows, Key(request)), times[0], limit);
      assert Lookup(next, Key(request)) == Some(w);
      RepeatFollowsCounter(next, request, times[1..]);
      var r := Repeat(windows, request, times);
      var t := TickRun(Lookup(windows, Key(request)), times, limit);
      assert r[1..] == Repeat(next, request, times[1..]);
      assert t[1..] == TickRun(Some(w), times[1..], limit);
      forall k | 0 <= k < |times|
        ensures r[k] == if t[k] then Reject(message) else Forwarded
      {
        if k > 0 {
          assert r[k] == r[1..][k - 1] && t[k] == t[1..][k - 1];
        }
      }
    }
  }

  /**
   * The same order request from one address, with no counter yet, sent six
   * times within a minute: the first five are forwarded and the sixth is
   * rejected with 429 and "Too many order requests".
   */
  lemma OrderRequestsWithinAMinute(windows: map<string, Window>, addr: string, uri: string, times: seq<int>)
    requires StartsWith(uri, "/api/orders") && !StartsWith(uri, "/api/auth/login")
    requires Key(Request(addr, uri)) !in windows
    requires |times| == 6
    requires forall k :: 0 <= k < 6 ==> times[k] - times[0] < WINDOW_MILLIS
    ensures forall k :: 0 <= k < 5 ==> Repeat(windows, Request(addr, uri), times)[k] == Forwarded
    ensures Repeat(windows, Request(addr, uri), times)[5] == Reject("Too many order requests")
  {
    var request := Request(addr, uri);
    assert Classify(uri) == Some((ORDER_LIMIT, "Too many order requests"));
    assert Lookup(windows, Key(request)) == None;
    RepeatFollowsCounter(windows, request, times);
    NewKeyWindow(times, ORDER_LIMIT);
    var t := TickRun(None, times, ORDER_LIMIT);
    assert forall k :: 0 <= k < 5 ==> !t[k];
    assert t[5];
  }

  /**
   * Login attempts from one address to one URI within a minute of the first:
   * attempt k (from 0) is rejected exactly when k >= 10.
   */
  lemma LoginAttemptsWithinAMinute(windows: map<string, Window>, request: Request, times: seq<int>)
    requires StartsWith(request.requestUri, "/api/auth/login")
    requires Key(request) !in windows
    requires |times| > 0
    requires forall k :: 0 <= k < |times| ==> times[k] - times[0] < WINDOW_MILLIS
    ensures forall k :: 0 <= k < |times| ==>
              (Repeat(windows, request, times)[k].Rejected? <==> k >= LOGIN_LIMIT)
  {
    RepeatFollowsCounter(windows, request, times);
    NewKeyWindow(times, LOGIN_LIMIT);
  }

  /** One key's counter, updated in place. */
  class WindowCounter {
    var windowStart: int
    var count: int

    constructor (windowStart: int)
      ensures this.windowStart == windowStart && count == 0
    {
      this.windowStart := windowStart;
      count := 0;
    }
  }

  class RateLimitFilter {
    var counters: map<string, WindowCounter>

    /** Each key has a counter object of its own. */
    ghost predicate Valid()
      reads this
    {
      forall k1, k2 :: k1 in counters && k2 in counters && k1 != k2 ==> counters[k1] != counters[k2]
    }

    /** The counters' current values. */
    ghost function Windows(): map<string, Window>
      reads this, counters.Values
    {
      map k | k in counters :: Window(counters[k].windowStart, counters[k].count)
    }

    constructor ()
      ensures Valid() && Windows() == map[]
    {
      counters := map[];
    }

    /** Counts a call for `key` at time `now` and says whether it is over `limit`. */
    method IsRateLimited(key: string, limit: int, now: int) returns (limited: bool)
      requires Valid()
      modifies this, counters.Values
      ensures Valid()
      ensures (Windows(), limited)
           == var (w, l) := Tick(Lookup(old(Windows()), key), now, limit); (old(Windows())[key := w], l)
    {
      ghost var before := Windows();
      var counter: WindowCounter;
      if key in counters {
        counter := counters[key];
      } else {
        counter := new WindowCounter(now);
        counters := counters[key := counter];
      }
      if now - counter.windowStart >= WINDOW_MILLIS {
        counter.windowStart := now;
        counter.count := 0;
      }
      counter.count := counter.count + 1;
      limited := counter.count > limit;
      assert Windows() == before[key := Window(counter.windowStart, counter.count)];
    }

    /** Counts the request when its path is limited and rejects it when over the limit; otherwise it goes down the chain. */
    method DoFilterInternal(request: Request, now: int) returns (outcome: FilterOutcome)
      requires Valid()
      modifies this, counters.Values
      ensures Valid()
      ensures (Windows(), outcome) == FilterStep(old(Windows()), request, now)
    {
      var path := request.requestUri;
      if StartsWith(path, "/api/auth/login") {
        var limited := IsRateLimited(Key(request), LOGIN_LIMIT, now);
        if limited {
          return Reject("Too many login attempts");
        }
      } else if StartsWith(path, "/api/orders") {
        var limited := IsRateLimited(Key(request), ORDER_LIMIT, now);
        if limited {
          return Reject("Too many order requests");
        }
      }
      outcome := Forwarded;
    }
  }
}
