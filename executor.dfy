/** The retry and error-classification loop that services/hd_image_generation.py
    and services/erase_foreground.py each carry a copy of. The network is replaced
    by an oracle: the response the server gives to each attempt, in order. The
    clock is replaced by a trace that records every attempt and every sleep. */
module Executor {
  import opened Wrappers
  import opened Http

  /** RETRY_COUNT: the retries allowed after the first attempt. */
  const RetryCount: nat := 2

  /** The most attempts one call makes. */
  const MaxAttempts: nat := RetryCount + 1

  /** The base of every sleep, in seconds. */
  const Backoff: real := 1.0

  /** RETRY_BACKOFF: the factor the sleep grows by with each attempt. */
  const RetryBackoff: real := 1.5

  /** DEFAULT_TIMEOUT: the per-attempt timeout, in seconds. */
  const DefaultTimeout: nat := 15

  /** What one POST can come back with. */
  datatype Response =
    | Ok(body: Value)                             // a 2xx status with a JSON body
    | NotJson(reason: string)                     // the body did not decode as JSON
    | HttpErr(status: Option<int>, text: string)  // an HTTP error, its status if it had one, and its body text
    | NetErr(reason: string)                      // a connection error, a timeout or another transport failure

  /** What a call does that the outside world can see, in order. */
  datatype Event = Attempt(index: nat) | Sleep(seconds: real)

  /** The errors a call can end with. */
  datatype Failure =
    | InvalidInput(reason: string)             // a required argument was missing; raised before any request
    | ClientError(status: int, text: string)   // a 4xx status other than 429
    | DecodeError(reason: string)              // a response body that was not JSON
    | Exhausted(attempts: nat, last: Option<Response>)  // every attempt failed transiently
    | Wrapped(prefix: string, cause: Response) // a single-attempt call's failure, under a fixed prefix

  /** The result of a call together with what it did on the way. */
  datatype Call = Call(result: Result<Value, Failure>, trace: seq<Event>)

  /** A status that ends the loop at once: present, non-zero, in [400, 500) and not 429. */
  predicate IsClientError(status: Option<int>) {
    status.Some? && status.value != 0 && 400 <= status.value < 500 && status.value != 429
  }

  /** A response that is retried: a transport failure, or an HTTP error that is not a client error. */
  predicate IsTransient(r: Response) {
    r.NetErr? || (r.HttpErr? && !IsClientError(r.status))
  }

  /** How one attempt ends the call, or None when the loop goes on. */
  function Settle(r: Response): (s: Option<Result<Value, Failure>>)
    ensures s.None? <==> IsTransient(r)
    ensures r.Ok? ==> s == Some(Success(r.body))
    ensures s.Some? && s.value.Success? ==> r.Ok?
  {
    match r
    case Ok(body) => Some(Success(body))
    case NotJson(reason) => Some(Failure(DecodeError(reason)))
    case HttpErr(status, text) =>
      if IsClientError(status) then Some(Failure(ClientError(status.value, text))) else None
    case NetErr(_) => None
  }

  /** `b ** n` for a natural exponent, over exact rationals. */
  function Pow(b: real, n: nat): real {
    if n == 0 then 1.0 else b * Pow(b, n - 1)
  }

  /** The sleep taken before attempt `k` (counted from 0): backoff * RETRY_BACKOFF ** k. */
  function SleepBefore(k: nat): real {
    Backoff * Pow(RetryBackoff, k)
  }

  /** The loop, from attempt `attempt` on, with `last` the last transient response seen. */
  function Run(oracle: seq<Response>, attempt: nat, last: Option<Response>): Call
    requires |oracle| >= MaxAttempts
    decreases MaxAttempts - attempt
  {
    if attempt > RetryCount then Call(Failure(Exhausted(MaxAttempts, last)), [])
    else
      var r := oracle[attempt];
      match Settle(r)
      case Some(res) => Call(res, [Attempt(attempt)])
      case None =>
        var next := attempt + 1;
        var rest := Run(oracle, next, Some(r));
        var pause := if next <= RetryCount then [Sleep(SleepBefore(next))] else [];
        Call(rest.result, [Attempt(attempt)] + pause + rest.trace)
  }

  /** `c` with `t` in front of its trace. */
  function Extend(t: seq<Event>, c: Call): Call {
    Call(c.result, t + c.trace)
  }

  lemma ExtendTwice(t: seq<Event>, u: seq<Event>, c: Call)
    ensures Extend(t, Extend(u, c)) == Extend(t + u, c)
  {
    assert t + (u + c.trace) == (t + u) + c.trace;
  }

  /** One step of the loop: attempt `a` either settles the call or is followed by the next attempt. */
  lemma RunStep(oracle: seq<Response>, a: nat, last: Option<Response>)
    requires |oracle| >= MaxAttempts && a <= RetryCount
    ensures Settle(oracle[a]).Some? ==> Run(oracle, a, last) == Call(Settle(oracle[a]).value, [Attempt(a)])
    ensures Settle(oracle[a]).None? ==>
              Run(oracle, a, last)
              == Extend([Attempt(a)] + (if a + 1 <= RetryCount then [Sleep(SleepBefore(a + 1))] else []),
                        Run(oracle, a + 1, Some(oracle[a])))
  {
  }

  /** The retry loop: POST, classify, and either return, raise, or sleep and go again. */
  method Execute(oracle: seq<Response>) returns (result: Result<Value, Failure>, trace: seq<Event>)
    requires |oracle| >= MaxAttempts
    ensures Call(result, trace) == Run(oracle, 0, None)
  {
    var attempt: nat := 0;
    var last: Option<Response> := None;
    trace := [];
    assert Run(oracle, 0, None) == Extend(trace, Run(oracle, attempt, last));
    while attempt <= RetryCount
      invariant attempt <= MaxAttempts
      invariant Run(oracle, 0, None) == Extend(trace, Run(oracle, attempt, last))
      decreases MaxAttempts - attempt
    {
      RunStep(oracle, attempt, last);
      ghost var before := trace;
      ghost var here := attempt;
      var response := oracle[attempt];
      trace := trace + [Attempt(attempt)];
      match response {
        case Ok(body) =>
          return Success(body), trace;
        case NotJson(reason) =>
          return Failure(DecodeError(reason)), trace;
        case HttpErr(status, text) =>
          if IsClientError(status) {
            return Failure(ClientError(status.value, text)), trace;
          }
          last := Some(response);
        case NetErr(_) =>
          last := Some(response);
      }
      attempt := attempt + 1;
      ghost var pause: seq<Event> := [];
      if attempt <= RetryCount {
        var sleepTime := Backoff * Pow(RetryBackoff, attempt);
        trace := trace + [Sleep(sleepTime)];
        pause := [Sleep(sleepTime)];
      }
      assert Settle(oracle[here]).None? && last == Some(oracle[here]) && attempt == here + 1;
      assert pause == if here + 1 <= RetryCount then [Sleep(SleepBefore(here + 1))] else [];
      assert trace == before + ([Attempt(here)] + pause);
      ExtendTwice(before, [Attempt(here)] + pause, Run(oracle, attempt, last));
    }
    result := Failure(Exhausted(MaxAttempts, last));
  }

  // ---------------------------------------------------------------------------
  // A closed form of the loop, independent of its step-by-step definition

  /** The first attempt at or after `from` whose response ends the loop, or MaxAttempts if none does. */
  function FirstSettled(oracle: seq<Response>, from: nat): (k: nat)
    requires |oracle| >= MaxAttempts && from <= MaxAttempts
    ensures from <= k <= MaxAttempts
    ensures forall i :: from <= i < k ==> IsTransient(oracle[i])
    ensures k < MaxAttempts ==> !IsTransient(oracle[k])
    decreases MaxAttempts - from
  {
    if from == MaxAttempts || !IsTransient(oracle[from]) then from else FirstSettled(oracle, from + 1)
  }

  /** The events of attempts `from` to `n - 1`: each attempt, then the sleep before the next one if there is one. */
  function Schedule(from: nat, n: nat): seq<Event>
    decreases n - from
  {
    if from >= n then []
    else [Attempt(from)] + (if from + 1 < n then [Sleep(SleepBefore(from + 1))] else []) + Schedule(from + 1, n)
  }

  /** What a call with this oracle comes to: the first settled attempt decides the result,
      or, if there is none, the call is exhausted with the last transient response. */
  function Expected(oracle: seq<Response>): Call
    requires |oracle| >= MaxAttempts
  {
    var k := FirstSettled(oracle, 0);
    if k == MaxAttempts then Call(Failure(Exhausted(MaxAttempts, Some(oracle[RetryCount]))), Schedule(0, MaxAttempts))
    else Call(Settle(oracle[k]).value, Schedule(0, k + 1))
  }

  /** The number of attempts a call with this oracle makes. */
  function AttemptsMade(oracle: seq<Response>): (n: nat)
    requires |oracle| >= MaxAttempts
    ensures 1 <= n <= MaxAttempts
  {
    var k := FirstSettled(oracle, 0);
    if k == MaxAttempts then MaxAttempts else k + 1
  }

  lemma {:induction false} RunFromClosedForm(oracle: seq<Response>, a: nat, last: Option<Response>)
    requires |oracle| >= MaxAttempts && a <= MaxAttempts
    requires a > 0 ==> last == Some(oracle[a - 1])
    ensures var k := FirstSettled(oracle, a);
            Run(oracle, a, last)
            == if k == MaxAttempts then Call(Failure(Exhausted(MaxAttempts, Some(oracle[RetryCount]))), Schedule(a, MaxAttempts))
               else Call(Settle(oracle[k]).value, Schedule(a, k + 1))
    decreases MaxAttempts - a
  {
    if a < MaxAttempts && IsTransient(oracle[a]) {
      RunFromClosedForm(oracle, a + 1, Some(oracle[a]));
    }
  }

  /** The loop and the closed form agree on every oracle. */
  lemma RunIsExpected(oracle: seq<Response>)
    requires |oracle| >= MaxAttempts
    ensures Run(oracle, 0, None) == Expected(oracle)
  {
    RunFromClosedForm(oracle, 0, None);
  }

  // ---------------------------------------------------------------------------
  // The shape of the trace

  /** Attempts at the even positions, numbered 0, 1, 2, ..., and between two attempts
      the sleep before the second; the trace starts and ends with an attempt. */
  ghost predicate Paced(trace: seq<Event>) {
    && |trace| % 2 == 1
    && (forall i :: 0 <= i < |trace| && i % 2 == 0 ==> trace[i] == Attempt(i / 2))
    && (forall i :: 0 <= i < |trace| && i % 2 == 1 ==> trace[i] == Sleep(SleepBefore(i / 2 + 1)))
  }

  lemma {:induction false} ScheduleLength(from: nat, n: nat)
    requires from < n
    ensures |Schedule(from, n)| == 2 * (n - from) - 1
    decreases n - from
  {
    if from + 1 < n {
      ScheduleLength(from + 1, n);
    }
  }

  lemma {:induction false} ScheduleAt(from: nat, n: nat, j: nat)
    requires from < n && j < 2 * (n - from) - 1
    ensures |Schedule(from, n)| == 2 * (n - from) - 1
    ensures j % 2 == 0 ==> Schedule(from, n)[j] == Attempt(from + j / 2)
    ensures j % 2 == 1 ==> Schedule(from, n)[j] == Sleep(SleepBefore(from + j / 2 + 1))
    decreases n - from
  {
    ScheduleLength(from, n);
    if j >= 2 {
      ScheduleAt(from + 1, n, j - 2);
      assert Schedule(from, n)[j] == Schedule(from + 1, n)[j - 2];
    }
  }

  lemma SchedulePaced(n: nat)
    requires n >= 1
    ensures Paced(Schedule(0, n)) && |Schedule(0, n)| == 2 * n - 1
  {
    ScheduleLength(0, n);
    forall j | 0 <= j < |Schedule(0, n)|
      ensures j % 2 == 0 ==> Schedule(0, n)[j] == Attempt(j / 2)
      ensures j % 2 == 1 ==> Schedule(0, n)[j] == Sleep(SleepBefore(j / 2 + 1))
    {
      ScheduleAt(0, n, j);
    }
  }

  /** Every call makes between one and MaxAttempts attempts, numbered in order, with exactly one
      sleep between two consecutive attempts and none after the last. */
  lemma TraceShape(oracle: seq<Response>)
    requires |oracle| >= MaxAttempts
    ensures var t := Run(oracle, 0, None).trace;
            && Paced(t)
            && |t| == 2 * AttemptsMade(oracle) - 1
            && t[|t| - 1] == Attempt(AttemptsMade(oracle) - 1)
  {
    RunIsExpected(oracle);
    SchedulePaced(AttemptsMade(oracle));
  }

  lemma {:induction false} GrowthPositive(n: nat)
    ensures Pow(RetryBackoff, n) > 0.0
  {
    if n > 0 {
      GrowthPositive(n - 1);
    }
  }

  /** The growth factor RETRY_BACKOFF ** n strictly increases with n. */
  lemma {:induction false} GrowthIncreasing(i: nat, j: nat)
    requires i < j
    ensures Pow(RetryBackoff, i) < Pow(RetryBackoff, j)
    decreases j - i
  {
    GrowthPositive(j - 1);
    if i < j - 1 {
      GrowthIncreasing(i, j - 1);
    }
  }

  /** The k-th retry waits 1.5^k seconds: 1.5 before the second attempt and 2.25 before the third. */
  lemma SleepValues()
    ensures SleepBefore(1) == 1.5 && SleepBefore(2) == 2.25
  {
  }

  /** In a paced trace the sleeps grow strictly. */
  lemma SleepsIncrease(trace: seq<Event>)
    requires Paced(trace)
    ensures forall i, j :: 0 <= i < j < |trace| && trace[i].Sleep? && trace[j].Sleep?
                           ==> trace[i].seconds < trace[j].seconds
  {
    forall i, j | 0 <= i < j < |trace| && trace[i].Sleep? && trace[j].Sleep?
      ensures trace[i].seconds < trace[j].seconds
    {
      assert i % 2 == 1 && j % 2 == 1;
      GrowthIncreasing(i / 2 + 1, j / 2 + 1);
    }
  }

  // ---------------------------------------------------------------------------
  // How a call ends

  /** A call succeeds exactly when the first settled attempt returned JSON, and then with that JSON. */
  lemma SuccessIff(oracle: seq<Response>, v: Value)
    requires |oracle| >= MaxAttempts
    ensures Run(oracle, 0, None).result == Success(v)
            <==> (FirstSettled(oracle, 0) < MaxAttempts && oracle[FirstSettled(oracle, 0)] == Ok(v))
  {
    RunIsExpected(oracle);
  }

  /** A 4xx status other than 429 ends the call after that attempt, with the status and the body text. */
  lemma ClientErrorStops(oracle: seq<Response>, k: nat)
    requires |oracle| >= MaxAttempts && k < MaxAttempts
    requires forall i :: 0 <= i < k ==> IsTransient(oracle[i])
    requires oracle[k].HttpErr? && IsClientError(oracle[k].status)
    ensures Run(oracle, 0, None).result == Failure(ClientError(oracle[k].status.value, oracle[k].text))
    ensures AttemptsMade(oracle) == k + 1
  {
    FirstSettledAt(oracle, 0, k);
    RunIsExpected(oracle);
  }

  /** A body that is not JSON ends the call after that attempt, without a retry. */
  lemma DecodeErrorStops(oracle: seq<Response>, k: nat)
    requires |oracle| >= MaxAttempts && k < MaxAttempts
    requires forall i :: 0 <= i < k ==> IsTransient(oracle[i])
    requires oracle[k].NotJson?
    ensures Run(oracle, 0, None).result == Failure(DecodeError(oracle[k].reason))
    ensures AttemptsMade(oracle) == k + 1
  {
    FirstSettledAt(oracle, 0, k);
    RunIsExpected(oracle);
  }

  /** A call is exhausted exactly when all MaxAttempts attempts fail transiently; the error then
      reports MaxAttempts attempts and the last response, after MaxAttempts - 1 sleeps. */
  lemma ExhaustedIff(oracle: seq<Response>)
    requires |oracle| >= MaxAttempts
    ensures Run(oracle, 0, None).result.Failure? && Run(oracle, 0, None).result.error.Exhausted?
            <==> forall i :: 0 <= i < MaxAttempts ==> IsTransient(oracle[i])
    ensures (forall i :: 0 <= i < MaxAttempts ==> IsTransient(oracle[i])) ==>
              && Run(oracle, 0, None).result == Failure(Exhausted(3, Some(oracle[2])))
              && Run(oracle, 0, None).trace == [Attempt(0), Sleep(1.5), Attempt(1), Sleep(2.25), Attempt(2)]
  {
    RunIsExpected(oracle);
    var k := FirstSettled(oracle, 0);
    if k == MaxAttempts {
      assert Schedule(0, MaxAttempts) == [Attempt(0), Sleep(1.5), Attempt(1), Sleep(2.25), Attempt(2)] by {
        SleepValues();
      }
    } else {
      assert !IsTransient(oracle[k]);
      assert !Settle(oracle[k]).value.Failure? || !Settle(oracle[k]).value.error.Exhausted?;
    }
  }

  /** FirstSettled finds the first attempt that is not transient. */
  lemma {:induction false} FirstSettledAt(oracle: seq<Response>, from: nat, k: nat)
    requires |oracle| >= MaxAttempts && from <= k <= MaxAttempts
    requires forall i :: from <= i < k ==> IsTransient(oracle[i])
    requires k < MaxAttempts ==> !IsTransient(oracle[k])
    ensures FirstSettled(oracle, from) == k
    decreases k - from
  {
    if from < k {
      FirstSettledAt(oracle, from + 1, k);
    }
  }

  /** A 500 followed by a success returns that success after exactly two attempts and one sleep. */
  lemma ServerErrorThenSuccess(v: Value, third: Response)
    ensures var c := Run([HttpErr(Some(500), ""), Ok(v), third], 0, None);
            c.result == Success(v) && c.trace == [Attempt(0), Sleep(1.5), Attempt(1)]
  {
  }

  /** A 404 fails after one attempt, carrying the status and the body text. */
  lemma NotFoundFailsAtOnce(text: string, rest: seq<Response>)
    requires |rest| >= RetryCount
    ensures var c := Run([HttpErr(Some(404), text)] + rest, 0, None);
            c.result == Failure(ClientError(404, text)) && c.trace == [Attempt(0)]
  {
  }

  // ---------------------------------------------------------------------------
  // The decode-error clause as written

  /** How the except clauses see a response with requests 2.27 or later: the error `resp.json()`
      raises on a body that is not JSON is also a RequestException, so the second clause
      catches it, as it catches a transport failure, before the ValueError clause is reached. */
  function AsCaught(r: Response): (c: Response)
    ensures r.NotJson? ==> IsTransient(c)
    ensures !r.NotJson? ==> c == r
  {
    if r.NotJson? then NetErr(r.reason) else r
  }

  /** The oracle as the loop as written classifies it. */
  function AllAsCaught(oracle: seq<Response>): (c: seq<Response>)
    ensures |c| == |oracle|
    ensures forall i :: 0 <= i < |oracle| ==> c[i] == AsCaught(oracle[i])
  {
    seq(|oracle|, i requires 0 <= i < |oracle| => AsCaught(oracle[i]))
  }

  /** As written, no call ever ends with a decode error: the ValueError clause is unreachable. */
  lemma NeverDecodeErrorAsWritten(oracle: seq<Response>)
    requires |oracle| >= MaxAttempts
    ensures !Run(AllAsCaught(oracle), 0, None).result.Failure?
            || !Run(AllAsCaught(oracle), 0, None).result.error.DecodeError?
  {
    var c := AllAsCaught(oracle);
    RunIsExpected(c);
    var k := FirstSettled(c, 0);
    if k < MaxAttempts {
      assert !c[k].NotJson?;
    }
  }

  /** A server that keeps answering with a body that is not JSON: as written the call sleeps,
      retries, and is exhausted after three attempts; the loop as intended fails with a decode
      error after the first. */
  lemma NotJsonRetriedAsWritten(reason: string)
    ensures var o := [NotJson(reason), NotJson(reason), NotJson(reason)];
            && Run(AllAsCaught(o), 0, None)
               == Call(Failure(Exhausted(3, Some(NetErr(reason)))),
                       [Attempt(0), Sleep(1.5), Attempt(1), Sleep(2.25), Attempt(2)])
            && Run(o, 0, None) == Call(Failure(DecodeError(reason)), [Attempt(0)])
  {
    var o := [NotJson(reason), NotJson(reason), NotJson(reason)];
    assert AllAsCaught(o) == [NetErr(reason), NetErr(reason), NetErr(reason)];
    SleepValues();
  }
}
