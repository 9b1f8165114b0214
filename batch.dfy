/** One batch of sign-in calls inside `stressTest` (src/family.js:55-67 for the
    personal endpoint, 70-82 for the family endpoint). `count` calls are launched
    at once, each raced against a 30-second timer; every call's `.then` yields its
    reward and every `.catch` pushes one line onto the account report and yields 0;
    `Promise.allSettled` waits for all of them and the values are summed.

    The remote calls are not modelled: a batch is given by the outcomes of its
    calls in launch order, and by the same outcomes in the order they settled
    (the order in which the `.catch` handlers ran). */
module Batch {
  import opened Wrappers
  import opened JsText

  /** How one sign-in call ended. */
  datatype CallOutcome =
      /** The call resolved; `reward` is `Number(value)` of the response's
          `netdiskBonus` (personal) or `bonusSpace` (family) as an integer, None
          when that is NaN. */
    | Success(reward: Option<int>)
      /** The call rejected, or its timer fired first. `message` is the error's
          message, None when the rejection carries no string message. */
    | Failure(message: Option<string>)

  /** The two endpoints. */
  datatype Pool = Personal | Family

  /** A line the `.catch` handler pushes onto the account report. The wall-clock
      stamp and the fixed wording around the reason are left out. */
  datatype FailureLine = FailureLine(pool: Pool, reason: string)

  /** The settled calls of one batch: in launch order, and in settle order. */
  datatype BatchEnv = BatchEnv(launched: seq<CallOutcome>, settled: seq<CallOutcome>)

  /** The batch launched exactly `count` calls and every one of them settled. */
  ghost predicate Settles(calls: BatchEnv, count: nat)
  {
    |calls.launched| == count && multiset(calls.settled) == multiset(calls.launched)
  }

  /** The message of the error the timer rejects with (`请求超时（${ms}ms）`, ms = 30000). */
  const TimeoutMessage := "请求超时（30000ms）"

  /** A call whose 30-second timer fired first (`timeout`, src/family.js:34-39):
      the race rejects with the timer's error. */
  const Timeout: CallOutcome := Failure(Some(TimeoutMessage))

  /** What the report shows for any error whose message mentions a timeout. */
  const TimeoutReason := "请求超时（30秒）"

  /** The reason text of a `.catch` handler for an error with message `message`. */
  function Explain(message: string): string
  {
    if Includes(message, "超时") then TimeoutReason else message
  }

  /** The reason a call's `.catch` handler reports, or None when no line is pushed:
      a success runs no handler, and a rejection without a string message makes
      `err.message.includes` throw inside the handler, so nothing is pushed. */
  function Reason(o: CallOutcome): Option<string>
  {
    match o
    case Success(_) => None
    case Failure(m) => if m.Some? then Some(Explain(m.value)) else None
  }

  /** `Number(r.value) || 0` for one settled call. */
  function Reward(o: CallOutcome): int
  {
    if o.Success? && o.reward.Some? then o.reward.value else 0
  }

  /** The batch total: the `reduce` over `Promise.allSettled`'s results, in launch order. */
  function ClaimedTotal(calls: seq<CallOutcome>): int
  {
    if calls == [] then 0 else ClaimedTotal(calls[..|calls| - 1]) + Reward(calls[|calls| - 1])
  }

  /** The report lines the handlers push, in the order the calls are given. */
  function FailureLines(pool: Pool, calls: seq<CallOutcome>): seq<FailureLine>
  {
    if calls == [] then []
    else
      var last := Reason(calls[|calls| - 1]);
      FailureLines(pool, calls[..|calls| - 1]) + (if last.Some? then [FailureLine(pool, last.value)] else [])
  }

  /** A call that pushes a report line: a rejection with a message, timeouts included. */
  predicate Reported(o: CallOutcome)
  {
    o.Failure? && o.message.Some?
  }

  /** Number of calls that push a report line. */
  function FailedCount(calls: seq<CallOutcome>): nat
  {
    if calls == [] then 0 else FailedCount(calls[1..]) + (if Reported(calls[0]) then 1 else 0)
  }

  /** The numeric rewards of the successful calls, in order. */
  function Rewards(calls: seq<CallOutcome>): seq<int>
  {
    if calls == [] then []
    else (if calls[0].Success? && calls[0].reward.Some? then [calls[0].reward.value] else []) + Rewards(calls[1..])
  }

  function Sum(xs: seq<int>): int
  {
    if xs == [] then 0 else xs[0] + Sum(xs[1..])
  }

  lemma {:induction false} SumAppend(xs: seq<int>, ys: seq<int>)
    ensures Sum(xs + ys) == Sum(xs) + Sum(ys)
  {
    if xs != [] {
      assert (xs + ys)[1..] == xs[1..] + ys;
      SumAppend(xs[1..], ys);
    } else {
      assert xs + ys == ys;
    }
  }

  lemma {:induction false} ClaimedTotalAppend(a: seq<CallOutcome>, b: seq<CallOutcome>)
    ensures ClaimedTotal(a + b) == ClaimedTotal(a) + ClaimedTotal(b)
    decreases |b|
  {
    if b != [] {
      assert (a + b)[..|a + b| - 1] == a + b[..|b| - 1];
      ClaimedTotalAppend(a, b[..|b| - 1]);
    } else {
      assert a + b == a;
    }
  }

  lemma {:induction false} FailureLinesAppend(pool: Pool, a: seq<CallOutcome>, b: seq<CallOutcome>)
    ensures FailureLines(pool, a + b) == FailureLines(pool, a) + FailureLines(pool, b)
    decreases |b|
  {
    if b != [] {
      assert (a + b)[..|a + b| - 1] == a + b[..|b| - 1];
      FailureLinesAppend(pool, a, b[..|b| - 1]);
    } else {
      assert a + b == a;
    }
  }

  /** The batch total is the sum of the numeric rewards of the successful calls:
      timeouts, rejections and missing or non-numeric rewards contribute 0. */
  lemma {:induction false} ClaimedTotalIsSumOfRewards(calls: seq<CallOutcome>)
    ensures ClaimedTotal(calls) == Sum(Rewards(calls))
    decreases |calls|
  {
    if calls != [] {
      var head, tail := calls[..1], calls[1..];
      assert calls == head + tail;
      ClaimedTotalAppend(head, tail);
      ClaimedTotalIsSumOfRewards(tail);
      assert head[..0] == [];
      SumAppend(Rewards(head), Rewards(tail));
      assert Rewards(head) == (if calls[0].Success? && calls[0].reward.Some? then [calls[0].reward.value] else []);
    }
  }

  /** A batch in which no call succeeded claims nothing; so does an empty batch. */
  lemma {:induction false} NoSuccessClaimsNothing(calls: seq<CallOutcome>)
    requires forall k :: 0 <= k < |calls| ==> !calls[k].Success?
    ensures ClaimedTotal(calls) == 0
    decreases |calls|
  {
    if calls != [] {
      NoSuccessClaimsNothing(calls[..|calls| - 1]);
    }
  }

  /** Exactly one report line per timed-out or rejected call, none per success;
      every line names the batch's endpoint. */
  lemma {:induction false} OneLinePerFailure(pool: Pool, calls: seq<CallOutcome>)
    ensures |FailureLines(pool, calls)| == FailedCount(calls)
    ensures forall k :: 0 <= k < |FailureLines(pool, calls)| ==> FailureLines(pool, calls)[k].pool == pool
    decreases |calls|
  {
    if calls != [] {
      var head, tail := calls[..1], calls[1..];
      assert calls == head + tail;
      FailureLinesAppend(pool, head, tail);
      OneLinePerFailure(pool, tail);
      assert head[..0] == [];
    }
  }

  /** A timeout is reported with the fixed 30-second text, whatever the timer's message. */
  lemma TimeoutReported()
    ensures Reason(Timeout) == Some(TimeoutReason)
  {
    IncludesAt(TimeoutMessage, "超时", 2);
  }

  /** A message that mentions 超时 anywhere is reported with the fixed timeout text. */
  lemma ExplainTimeout(message: string, i: nat)
    requires OccursAt(message, "超时", i)
    ensures Explain(message) == TimeoutReason
  {
    IncludesAt(message, "超时", i);
  }

  /** Any other message is reported as it is. */
  lemma ExplainKeeps(message: string)
    requires forall i: nat :: !OccursAt(message, "超时", i)
    ensures Explain(message) == message
  {
    NoOccurrenceNotIncluded(message, "超时");
  }

  /** Taking one call out of the middle of a batch takes its lines out. */
  lemma LinesWithout(pool: Pool, a: seq<CallOutcome>, x: CallOutcome, b: seq<CallOutcome>)
    ensures multiset(FailureLines(pool, a + [x] + b))
         == multiset(FailureLines(pool, a + b)) + multiset(FailureLines(pool, [x]))
  {
    FailureLinesAppend(pool, a + [x], b);
    FailureLinesAppend(pool, a, [x]);
    FailureLinesAppend(pool, a, b);
  }

  /** Which lines the report gets does not depend on the order in which the
      calls settle: any settle order yields the same lines, up to their order. */
  lemma {:induction false} LinesIndependentOfSettleOrder(pool: Pool, settled: seq<CallOutcome>, launched: seq<CallOutcome>)
    requires multiset(settled) == multiset(launched)
    ensures multiset(FailureLines(pool, settled)) == multiset(FailureLines(pool, launched))
    decreases |launched|
  {
    if launched == [] {
      assert |settled| == |multiset(settled)| == 0;
    } else {
      var x := launched[|launched| - 1];
      var front := launched[..|launched| - 1];
      assert launched == front + [x];
      assert x in multiset(settled);
      var i :| 0 <= i < |settled| && settled[i] == x;
      var a, b := settled[..i], settled[i + 1..];
      assert settled == a + [x] + b;
      assert multiset(settled) == multiset(a) + multiset{x} + multiset(b);
      assert multiset(a + b) == multiset(a) + multiset(b);
      assert multiset(launched) == multiset(front) + multiset{x};
      assert multiset(a + b) == multiset(front) by {
        assert multiset(a + b) == multiset(settled) - multiset{x};
        assert multiset(front) == multiset(launched) - multiset{x};
      }
      LinesIndependentOfSettleOrder(pool, a + b, front);
      LinesWithout(pool, a, x, b);
      LinesWithout(pool, front, x, []);
      assert front + [x] + [] == launched;
      assert front + [] == front;
    }
  }

  /** One batch, as `stressTest` runs it: the `.catch` handlers push their lines
      onto `report` as the calls settle, then the settled values are summed in
      launch order. */
  method RunBatch(pool: Pool, count: nat, calls: BatchEnv, report: seq<FailureLine>)
    returns (total: int, lines: seq<FailureLine>)
    requires Settles(calls, count)
    ensures total == ClaimedTotal(calls.launched)
    ensures lines == report + FailureLines(pool, calls.settled)
  {
    lines := report;
    var k := 0;
    while k < |calls.settled|
      invariant k <= |calls.settled|
      invariant lines == report + FailureLines(pool, calls.settled[..k])
    {
      var reason := Reason(calls.settled[k]);
      if reason.Some? {
        lines := lines + [FailureLine(pool, reason.value)];
      }
      assert calls.settled[..k + 1][..k] == calls.settled[..k];
      k := k + 1;
    }
    assert calls.settled[..k] == calls.settled;

    total := 0;
    var i := 0;
    while i < count
      invariant i <= count
      invariant total == ClaimedTotal(calls.launched[..i])
    {
      assert calls.launched[..i + 1][..i] == calls.launched[..i];
      total := total + Reward(calls.launched[i]);
      i := i + 1;
    }
    assert calls.launched[..i] == calls.launched;
  }

  /** Nine family calls granting 5 each and one that times out: the batch claims
      45 and the report gets one timeout line. */
  lemma NineGrantsOneTimeout()
    ensures var calls := seq(9, _ => Success(Some(5))) + [Timeout];
      |calls| == 10 && ClaimedTotal(calls) == 45
      && FailureLines(Family, calls) == [FailureLine(Family, TimeoutReason)]
  {
    var grants: seq<CallOutcome> := seq(9, _ => Success(Some(5)));
    var calls := grants + [Timeout];
    assert calls[..|calls| - 1] == grants;
    UniformGrants(Family, 9, 5);
    TimeoutReported();
  }

  /** `n` calls to either endpoint that each grant `r` claim `n * r` and
      report nothing. */
  lemma {:induction false} UniformGrants(pool: Pool, n: nat, r: int)
    ensures ClaimedTotal(seq(n, _ => Success(Some(r)))) == n * r
    ensures FailureLines(pool, seq(n, _ => Success(Some(r)))) == []
  {
    if n > 0 {
      var calls: seq<CallOutcome> := seq(n, _ => Success(Some(r)));
      assert calls[..n - 1] == seq(n - 1, _ => Success(Some(r)));
      UniformGrants(pool, n - 1, r);
    }
  }
}
