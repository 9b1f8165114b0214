/** `stressTest` (src/family.js:42-108): one account's run. It logs in, reads the
    capacity once, runs the personal batch to completion, then the family batch,
    reads the capacity again and compares the two readings.

    The remote client is not modelled: its answers for one run (the login, the
    two capacity readings, the outcomes of both batches) are given as an
    `AccountEnv`. Capacities are integer byte counts; the source's division by
    1048576 into megabytes is a change of unit only. */
module AccountRun {
  import opened Wrappers
  import opened JsText
  import opened Masking
  import opened Batch

  /** An account as loaded from the account list; only the name is used here. */
  datatype Account = Account(userName: Option<string>)

  /** One capacity reading: `cloudCapacityInfo.totalSize` and
      `familyCapacityInfo.totalSize`, in bytes. */
  datatype Snapshot = Snapshot(personalBytes: int, familyBytes: int)

  /** How setting up the session ended. */
  datatype Login =
    | LoggedIn
      /** `client.login()` rejected; the error is replaced by 登录失败. */
    | LoginRejected
      /** The client could not even be constructed; the error's message is kept. */
    | ClientThrew(message: string)

  /** Everything the remote side answers during one run of one account. A failed
      capacity read is None (`.catch(() => null)`). */
  datatype AccountEnv = AccountEnv(
    login: Login,
    before: Option<Snapshot>,
    personal: BatchEnv,
    family: BatchEnv,
    after: Option<Snapshot>)

  /** What `stressTest` returns. `Signed` is `success: true`: the two claimed
      totals, the measured family delta, the masked name heading the report and
      the report's failure lines. `actualPersonal` is computed by the source but
      not returned by it; it is kept here to state the reconciliation.
      `Failed` is `success: false` with its one-line report. */
  datatype AccountResult =
    | Signed(personalTotal: int, familyTotal: int, actualPersonal: int, actualFamily: int,
             name: string, lines: seq<FailureLine>)
    | Failed(report: string)

  /** The login message that replaces every login rejection. */
  const LoginFailedMessage := "登录失败"

  function PoolBytes(s: Snapshot, pool: Pool): int
  {
    if pool == Personal then s.personalBytes else s.familyBytes
  }

  /** The measured change of one pool: after minus before when both readings
      succeeded, otherwise 0 (the source's initial value, kept). */
  function Delta(before: Option<Snapshot>, after: Option<Snapshot>, pool: Pool): int
  {
    if before.Some? && after.Some? then PoolBytes(after.value, pool) - PoolBytes(before.value, pool) else 0
  }

  /** The message of the error that reaches `stressTest`'s outer `catch`. */
  function ThrownMessage(login: Login): string
  {
    match login
    case ClientThrew(m) => m
    case _ => LoginFailedMessage
  }

  /** The report of a failed account: the masked name and the text before the
      first `:` of the error message. */
  function FailureReport(name: string, message: string): string
  {
    "❌ " + name + " 签到失败: " + BeforeFirst(message, ':')
  }

  /** The result of one account's run, as a function of the remote answers. */
  function Run(account: Account, env: AccountEnv): AccountResult
  {
    var name := Mask(account.userName);
    if !env.login.LoggedIn? then
      Failed(FailureReport(name, ThrownMessage(env.login)))
    else
      Signed(ClaimedTotal(env.personal.launched), ClaimedTotal(env.family.launched),
             Delta(env.before, env.after, Personal), Delta(env.before, env.after, Family),
             name, FailureLines(Personal, env.personal.settled) + FailureLines(Family, env.family.settled))
  }

  /** `stressTest(account, familyId, personalCount, familyCount)`. The family pool
      identifier is only passed on to the remote family call, whose outcomes are
      given in `env`. */
  method StressTest(account: Account, personalCount: nat, familyCount: nat, env: AccountEnv)
    returns (result: AccountResult)
    requires env.login.LoggedIn? ==> Settles(env.personal, personalCount) && Settles(env.family, familyCount)
    ensures result == Run(account, env)
  {
    var name := Mask(account.userName);
    if !env.login.LoggedIn? {
      return Failed(FailureReport(name, ThrownMessage(env.login)));
    }
    var before := env.before;
    var personalTotal, report := RunBatch(Personal, personalCount, env.personal, []);
    var familyTotal;
    familyTotal, report := RunBatch(Family, familyCount, env.family, report);
    var after := env.after;
    var actualPersonal, actualFamily := 0, 0;
    if before.Some? && after.Some? {
      actualPersonal := after.value.personalBytes - before.value.personalBytes;
      actualFamily := after.value.familyBytes - before.value.familyBytes;
    }
    result := Signed(personalTotal, familyTotal, actualPersonal, actualFamily, name, report);
  }

  /** A failed login is fatal for the account: the result does not depend on
      anything the sign-in calls or capacity reads would have answered, and its
      report is the masked name with the message up to its first `:`. */
  lemma LoginFailureIsFatal(account: Account, env: AccountEnv, other: AccountEnv)
    requires !env.login.LoggedIn? && other.login == env.login
    ensures Run(account, env) == Run(account, other)
    ensures Run(account, env) == Failed("❌ " + Mask(account.userName) + " 签到失败: " + BeforeFirst(ThrownMessage(env.login), ':'))
  {
  }

  /** A rejected login is reported as 登录失败. */
  lemma LoginRejectedReport(account: Account, env: AccountEnv)
    requires env.login == LoginRejected
    ensures Run(account, env).report == "❌ " + Mask(account.userName) + " 签到失败: 登录失败"
  {
    var m := LoginFailedMessage;
    var r := BeforeFirst(m, ':');
    BeforeFirstIsPrefix(m, ':');
    assert ':' !in m;
    assert |r| == |m|;
  }

  /** The measured deltas: for each pool independently, after minus before when
      both readings succeeded, 0 when either failed; the claimed totals play no part. */
  lemma Reconciliation(account: Account, env: AccountEnv)
    requires env.login.LoggedIn?
    ensures var r := Run(account, env);
      (env.before.Some? && env.after.Some? ==>
         r.actualPersonal == env.after.value.personalBytes - env.before.value.personalBytes
         && r.actualFamily == env.after.value.familyBytes - env.before.value.familyBytes)
      && (env.before.None? || env.after.None? ==> r.actualPersonal == 0 && r.actualFamily == 0)
  {
  }

  /** Readings of 100/200 before and 110/200 after give deltas of 10 and 0,
      whatever the calls claimed. */
  lemma ReconciliationExample(account: Account, personal: BatchEnv, family: BatchEnv)
    ensures var r := Run(account, AccountEnv(LoggedIn, Some(Snapshot(100, 200)), personal, family, Some(Snapshot(110, 200))));
      r.actualPersonal == 10 && r.actualFamily == 0
  {
  }

  /** A successful run claims, per endpoint, the sum of the numeric rewards of its
      successful calls, and its report holds one line per timed-out or rejected
      call of either batch: the same lines whatever order the calls settled in,
      the personal batch's before the family batch's (the family batch is only
      launched once the personal one has settled). */
  lemma {:induction false} SignedRunAccounting(account: Account, env: AccountEnv, pc: nat, fc: nat)
    requires env.login.LoggedIn? && Settles(env.personal, pc) && Settles(env.family, fc)
    ensures var r := Run(account, env);
      r.personalTotal == Sum(Rewards(env.personal.launched))
      && r.familyTotal == Sum(Rewards(env.family.launched))
      && multiset(r.lines) == multiset(FailureLines(Personal, env.personal.launched))
                            + multiset(FailureLines(Family, env.family.launched))
      && |r.lines| == FailedCount(env.personal.launched) + FailedCount(env.family.launched)
      && (forall k :: 0 <= k < |r.lines| ==>
            (r.lines[k].pool == Personal <==> k < FailedCount(env.personal.launched)))
  {
    var p, f := env.personal, env.family;
    ClaimedTotalIsSumOfRewards(p.launched);
    ClaimedTotalIsSumOfRewards(f.launched);
    LinesIndependentOfSettleOrder(Personal, p.settled, p.launched);
    LinesIndependentOfSettleOrder(Family, f.settled, f.launched);
    OneLinePerFailure(Personal, p.settled);
    OneLinePerFailure(Family, f.settled);
    OneLinePerFailure(Personal, p.launched);
    OneLinePerFailure(Family, f.launched);
    var lp, lf := FailureLines(Personal, p.settled), FailureLines(Family, f.settled);
    var ll := FailureLines(Personal, p.launched);
    assert |lp| == |multiset(lp)| == |multiset(ll)| == |ll|;
    var lfl := FailureLines(Family, f.launched);
    assert |lf| == |multiset(lf)| == |multiset(lfl)| == |lfl|;
  }
}
