/*
 * The retry loop of `check_subdomain`, with the network replaced by a
 * deterministic oracle: `oracle(url, attempt)` is what the GET of `url`
 * yields on that attempt (status 200 with the page title, another status,
 * or an exception). Sleeping is recorded as an event instead of waited for.
 */
module Probing {

  datatype Option<T> = None | Some(value: T)

  /** The outcome of one `session.get(url)`; the title of a 200 is opaque data ("No Title" included). */
  datatype Response = Ok200(title: string) | OtherStatus | Error

  type Oracle = (string, nat) -> Response

  /** What one probe does, in order: a request for an attempt, or a back-off sleep. */
  datatype Event = Attempted(url: string, attempt: nat) | Slept(ms: nat)

  /** The scanner's session (as an oracle) and its `max_retries`. */
  datatype ProbeConfig = ProbeConfig(oracle: Oracle, maxRetries: int)

  /** The title of the first 200 response, if any, and everything the loop did. */
  datatype Attempts = Attempts(title: Option<string>, events: seq<Event>)

  /** The back-off unit `0.1` s, in milliseconds. */
  const BaseDelayMs: nat := 100

  /** `asyncio.sleep(0.1 * (attempt + 1))`, in milliseconds. */
  function Delay(attempt: nat): nat
  {
    BaseDelayMs * (attempt + 1)
  }

  /**
   * `for attempt in range(k, max_retries)`: a 200 returns its title at once;
   * another status moves on to the next attempt, an exception sleeps first.
   */
  function Retry(p: ProbeConfig, url: string, k: nat): Attempts
    decreases p.maxRetries - k
  {
    if k >= p.maxRetries then Attempts(None, [])
    else
      var response := p.oracle(url, k);
      if response.Ok200? then Attempts(Some(response.title), [Attempted(url, k)])
      else
        var rest := Retry(p, url, k + 1);
        Attempts(rest.title, AttemptEvents(url, k, response) + rest.events)
  }

  /** What one attempt that got no 200 leaves in the trace: its request, then the back-off sleep after an exception. */
  function AttemptEvents(url: string, k: nat, response: Response): seq<Event>
  {
    if response.Error? then [Attempted(url, k), Slept(Delay(k))] else [Attempted(url, k)]
  }

  /** The trace of attempts `0 .. k - 1`, none of which got a 200. */
  function Failures(p: ProbeConfig, url: string, k: nat): seq<Event>
  {
    if k == 0 then [] else Failures(p, url, k - 1) + AttemptEvents(url, k - 1, p.oracle(url, k - 1))
  }

  predicate Succeeds(p: ProbeConfig, url: string, j: nat)
  {
    p.oracle(url, j).Ok200?
  }

  /** Attempt `j` is the first one from `k` on whose response is a 200, and it is within the budget. */
  predicate FirstSuccess(p: ProbeConfig, url: string, k: nat, j: nat)
  {
    k <= j < p.maxRetries && Succeeds(p, url, j) &&
    forall i :: k <= i < j ==> !Succeeds(p, url, i)
  }

  /** The attempt numbers of the requests in a trace, in order. */
  function AttemptsMade(events: seq<Event>): (r: seq<nat>)
    ensures |r| <= |events|
  {
    if events == [] then []
    else if events[0].Attempted? then [events[0].attempt] + AttemptsMade(events[1..])
    else AttemptsMade(events[1..])
  }

  /** The total time a trace spends sleeping, in milliseconds. */
  function TotalDelay(events: seq<Event>): nat
  {
    if events == [] then 0
    else (if events[0].Slept? then events[0].ms else 0) + TotalDelay(events[1..])
  }

  function Range(lo: nat, hi: int): (r: seq<nat>)
    ensures |r| == if lo <= hi then hi - lo else 0
    decreases hi - lo
  {
    if lo >= hi then [] else [lo] + Range(lo + 1, hi)
  }

  // ---------------------------------------------------------------------

  /**
   * The loop after `k` attempts without a 200: what it returns is the
   * rest of the loop from attempt `k`, after the trace of those attempts.
   */
  lemma {:induction false} RetrySplit(p: ProbeConfig, url: string, k: nat)
    requires k == 0 || k <= p.maxRetries
    requires forall j :: 0 <= j < k ==> !Succeeds(p, url, j)
    ensures var rest := Retry(p, url, k);
      Retry(p, url, 0) == Attempts(rest.title, Failures(p, url, k) + rest.events)
  {
    var rest := Retry(p, url, k);
    if k == 0 {
      assert [] + rest.events == rest.events;
    } else {
      RetrySplit(p, url, k - 1);
      assert !Succeeds(p, url, k - 1);
      var ev := AttemptEvents(url, k - 1, p.oracle(url, k - 1));
      assert Failures(p, url, k - 1) + (ev + rest.events) == Failures(p, url, k - 1) + ev + rest.events;
    }
  }

  /** The loop returns a title exactly when some attempt within the budget gets a 200, and then it is the first one's. */
  lemma {:induction false} RetryFindsFirstSuccess(p: ProbeConfig, url: string, k: nat)
    ensures Retry(p, url, k).title.Some? <==> exists j :: k <= j < p.maxRetries && Succeeds(p, url, j)
    ensures forall j: nat :: FirstSuccess(p, url, k, j) ==> Retry(p, url, k).title == Some(p.oracle(url, j).title)
    decreases p.maxRetries - k
  {
    if k < p.maxRetries {
      RetryFindsFirstSuccess(p, url, k + 1);
      if !Succeeds(p, url, k) {
        forall j: nat | FirstSuccess(p, url, k, j) ensures FirstSuccess(p, url, k + 1, j) {
        }
      } else {
        forall j: nat | FirstSuccess(p, url, k, j) ensures j == k {
        }
      }
    }
  }

  /**
   * Requests are made for attempts `k, k + 1, ...` in order, stopping right
   * after the first 200; without a 200 every attempt of the budget is made.
   */
  lemma {:induction false} RetryAttempts(p: ProbeConfig, url: string, k: nat)
    ensures Retry(p, url, k).title.None? ==> AttemptsMade(Retry(p, url, k).events) == Range(k, p.maxRetries)
    ensures forall j: nat :: FirstSuccess(p, url, k, j) ==> AttemptsMade(Retry(p, url, k).events) == Range(k, j + 1)
    ensures |AttemptsMade(Retry(p, url, k).events)| <= if k <= p.maxRetries then p.maxRetries - k else 0
    decreases p.maxRetries - k
  {
    if k < p.maxRetries {
      RetryAttempts(p, url, k + 1);
      var rest := Retry(p, url, k + 1);
      var response := p.oracle(url, k);
      if response.Ok200? {
        assert AttemptsMade([Attempted(url, k)]) == [k];
        assert Succeeds(p, url, k);
        forall j: nat | FirstSuccess(p, url, k, j) ensures j == k {
        }
      } else {
        var ev := AttemptEvents(url, k, response) + rest.events;
        if response.Error? {
          assert ev[1..][1..] == rest.events;
        } else {
          assert ev[1..] == rest.events;
        }
        forall j: nat | FirstSuccess(p, url, k, j) ensures FirstSuccess(p, url, k + 1, j) {
        }
      }
    }
  }

  /**
   * The shape of the trace: every request is for `url`; a failed request
   * (exception) is followed by a sleep of `Delay(attempt)`, also after the
   * last attempt; a non-200 status goes straight on to the next request; a
   * 200 ends the trace; and every sleep follows a failed request.
   */
  ghost predicate WellPaced(p: ProbeConfig, url: string, ev: seq<Event>)
  {
    forall i :: 0 <= i < |ev| ==> PacedAt(p, url, ev, i)
  }

  ghost predicate PacedAt(p: ProbeConfig, url: string, ev: seq<Event>, i: nat)
    requires i < |ev|
  {
    match ev[i]
    case Attempted(u, a) =>
      u == url &&
      (match p.oracle(url, a)
       case Error => i + 1 < |ev| && ev[i + 1] == Slept(Delay(a))
       case OtherStatus => i + 1 == |ev| || ev[i + 1].Attempted?
       case Ok200(_) => i + 1 == |ev|)
    case Slept(ms) =>
      0 < i && ev[i - 1].Attempted? && p.oracle(url, ev[i - 1].attempt).Error? && ms == Delay(ev[i - 1].attempt)
  }

  lemma {:induction false} RetryPacing(p: ProbeConfig, url: string, k: nat)
    ensures WellPaced(p, url, Retry(p, url, k).events)
    ensures var ev := Retry(p, url, k).events; ev != [] ==> ev[0] == Attempted(url, k)
    decreases p.maxRetries - k
  {
    if k < p.maxRetries {
      RetryPacing(p, url, k + 1);
      var rest := Retry(p, url, k + 1).events;
      var ev := Retry(p, url, k).events;
      var response := p.oracle(url, k);
      if response.Ok200? {
        assert PacedAt(p, url, ev, 0);
      } else if response.OtherStatus? {
        assert ev == [Attempted(url, k)] + rest;
        forall i | 0 <= i < |ev| ensures PacedAt(p, url, ev, i) {
          if i >= 1 {
            assert PacedAt(p, url, rest, i - 1);
          }
        }
      } else {
        assert ev == [Attempted(url, k), Slept(Delay(k))] + rest;
        forall i | 0 <= i < |ev| ensures PacedAt(p, url, ev, i) {
          if i >= 2 {
            assert PacedAt(p, url, rest, i - 2);
          }
        }
      }
    }
  }

  /**
   * A candidate whose every attempt fails with an exception: no title,
   * exactly `max_retries` requests, and sleeps of 100, 200, ... ms, in all
   * `50 * n * (n + 1)` ms for a budget of `n` attempts.
   */
  lemma {:induction false} AlwaysFailing(p: ProbeConfig, url: string, k: nat)
    requires forall j :: p.oracle(url, j) == Error
    requires k <= p.maxRetries
    ensures Retry(p, url, k).title == None
    ensures |AttemptsMade(Retry(p, url, k).events)| == p.maxRetries - k
    ensures TotalDelay(Retry(p, url, k).events) == 50 * (p.maxRetries * (p.maxRetries + 1) - k * (k + 1))
    decreases p.maxRetries - k
  {
    if k < p.maxRetries {
      AlwaysFailing(p, url, k + 1);
      var rest := Retry(p, url, k + 1).events;
      var ev := [Attempted(url, k), Slept(Delay(k))] + rest;
      assert Retry(p, url, k).events == ev;
      assert ev[1..] == [Slept(Delay(k))] + rest;
      assert ev[1..][1..] == rest;
      assert (k + 1) * (k + 2) - k * (k + 1) == 2 * (k + 1);
    }
  }
}
