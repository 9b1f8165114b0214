/** The script's top-level block (src/family.js:115-218): the configuration check,
    the main account's capacity readings, and the loop that runs `stressTest` for
    every account in turn and gathers the fleet totals and the per-account
    entries of the push report. Sleeping, logging and sending the notification
    are effects outside the model; the points where the loop sleeps are recorded. */
module Fleet {
  import opened Wrappers
  import opened JsText
  import opened Masking
  import opened Batch
  import opened AccountRun

  /* ---------- Fan-out policy (src/family.js:163-169) ---------- */

  /** How many personal and family sign-in calls one account launches. */
  datatype FanOut = FanOut(personalCount: nat, familyCount: nat)

  /** With the threshold at 1 the main account (index 0) makes one call of each
      kind and every other account ten family calls; any other threshold is used
      as both counts. */
  function FanOutFor(threshold: nat, index: nat): FanOut
  {
    if threshold == 1 then
      if index == 0 then FanOut(1, 1) else FanOut(0, 10)
    else FanOut(threshold, threshold)
  }

  /** The policy by account role. */
  lemma FanOutByRole(threshold: nat, index: nat)
    ensures threshold == 1 && index == 0 ==> FanOutFor(threshold, index) == FanOut(1, 1)
    ensures threshold == 1 && index > 0 ==> FanOutFor(threshold, index) == FanOut(0, 10)
    ensures threshold != 1 ==> FanOutFor(threshold, index).personalCount == FanOutFor(threshold, index).familyCount == threshold
  {
  }

  /** Calls the policy launches over the first `n` accounts. */
  function CallsLaunched(threshold: nat, n: nat): nat
  {
    if n == 0 then 0
    else CallsLaunched(threshold, n - 1) + FanOutFor(threshold, n - 1).personalCount + FanOutFor(threshold, n - 1).familyCount
  }

  /** The load the policy puts on the remote service when every login succeeds:
      2 + 10 (n - 1) calls for n accounts at threshold 1, 2 t n at threshold t. */
  lemma {:induction false} FleetCallVolume(threshold: nat, n: nat)
    ensures CallsLaunched(threshold, n) == if threshold != 1 then 2 * threshold * n else if n == 0 then 0 else 10 * n - 8
  {
    if n > 0 {
      FleetCallVolume(threshold, n - 1);
    }
  }

  /* ---------- Main-account readings (src/family.js:122-159) ---------- */

  /** The main account's figures shown in the report. */
  datatype MainAccountData = MainAccountData(
    userName: string,
    initialPersonal: int, initialFamily: int,
    finalPersonal: int, finalFamily: int,
    personalAdded: int, familyAdded: int)

  /** The figures before the main account is read, kept when that fails. */
  const NoMainAccountData := MainAccountData(UnknownAccount, 0, 0, 0, 0, 0, 0)

  /** The remote answers for the main-account block: its own login, then two
      capacity readings taken one right after the other. */
  datatype MainEnv = MainEnv(loggedIn: bool, initial: Option<Snapshot>, final: Option<Snapshot>)

  function SizeOf(s: Option<Snapshot>, pool: Pool): int
  {
    if s.Some? then PoolBytes(s.value, pool) else 0
  }

  /** The block at src/family.js:138-159: nothing changes unless there is an
      account and its login succeeds; each figure comes from the readings that
      succeeded and is 0 otherwise. */
  function MainAccountBlock(accounts: seq<Account>, env: MainEnv): MainAccountData
  {
    if |accounts| == 0 || !env.loggedIn then NoMainAccountData
    else
      MainAccountData(
        Mask(accounts[0].userName),
        SizeOf(env.initial, Personal), SizeOf(env.initial, Family),
        SizeOf(env.final, Personal), SizeOf(env.final, Family),
        Delta(env.initial, env.final, Personal), Delta(env.initial, env.final, Family))
  }

  /** With both readings the added figures are final minus initial; a missing
      reading zeroes its own figures and both added figures; without an account
      or a login every figure keeps its initial value. */
  lemma MainAccountFigures(accounts: seq<Account>, env: MainEnv)
    ensures var d := MainAccountBlock(accounts, env);
      (|accounts| == 0 || !env.loggedIn ==> d == NoMainAccountData)
      && (|accounts| > 0 && env.loggedIn ==>
            d.userName == Mask(accounts[0].userName)
            && (env.initial.Some? ==> d.initialPersonal == env.initial.value.personalBytes
                                      && d.initialFamily == env.initial.value.familyBytes)
            && (env.final.Some? ==> d.finalPersonal == env.final.value.personalBytes
                                    && d.finalFamily == env.final.value.familyBytes)
            && (env.initial.None? ==> d.initialPersonal == 0 && d.initialFamily == 0)
            && (env.final.None? ==> d.finalPersonal == 0 && d.finalFamily == 0)
            && (env.initial.Some? && env.final.Some? ==>
                  d.personalAdded == d.finalPersonal - d.initialPersonal
                  && d.familyAdded == d.finalFamily - d.initialFamily)
            && (env.initial.None? || env.final.None? ==> d.personalAdded == 0 && d.familyAdded == 0))
  {
  }

  /* ---------- The account loop (src/family.js:161-191) ---------- */

  /** An entry of `reports`: its `type` is the constructor, its `data` the text
      `EntryData` renders. */
  datatype Entry =
    | ErrorEntry(name: string, reason: string)
    | SubAccountEntry(name: string, familyTotal: int)

  /** The `data` text of an entry. */
  function EntryData(e: Entry): string
  {
    match e
    case ErrorEntry(name, reason) => "❌ " + name + ": " + reason
    case SubAccountEntry(name, total) => "账号 " + name + " 家庭获得: " + PadStart(IntToString(total), 3, ' ') + " MB"
  }

  /** A sub-account line ends with the family total right-aligned in a field of
      at least three characters: its decimal digits, which read back to the
      total, padded on the left with spaces. */
  lemma SubAccountLine(name: string, total: nat)
    ensures var digits := NatToString(total);
      var head := "账号 " + name + " 家庭获得: ";
      var line := EntryData(SubAccountEntry(name, total));
      var field := line[|head|..|line| - 3];
      line == head + field + " MB"
      && |field| == (if |digits| >= 3 then |digits| else 3)
      && field[|field| - |digits|..] == digits && DigitsValue(digits) == total
      && forall k :: 0 <= k < |field| - |digits| ==> field[k] == ' '
  {
    var head := "账号 " + name + " 家庭获得: ";
    var field := PadStart(IntToString(total), 3, ' ');
    var line := EntryData(SubAccountEntry(name, total));
    assert line == head + field + " MB";
    assert line[|head|..|line| - 3] == field;
    NatToStringRoundTrip(total);
  }

  const UnknownError := "未知错误"

  /** The reason shown for a failed account: the text after the last `:` of its
      report, trimmed, or 未知错误 when that is empty. */
  function ErrorReason(report: string): string
  {
    var t := Trim(AfterLast(report, ':'));
    if |t| == 0 then UnknownError else t
  }

  function ErrorEntryFor(account: Account, report: string): Entry
  {
    ErrorEntry(Mask(account.userName), ErrorReason(report))
  }

  function SubAccountEntryFor(account: Account, familyTotal: int): Entry
  {
    SubAccountEntry(Mask(account.userName), familyTotal)
  }

  /** The remote answers for account `i` fit the calls the policy launches for it. */
  ghost predicate Answers(env: AccountEnv, counts: FanOut)
  {
    env.login.LoggedIn? ==> Settles(env.personal, counts.personalCount) && Settles(env.family, counts.familyCount)
  }

  /** The results of the accounts' runs, in account order. */
  function Results(accounts: seq<Account>, envs: seq<AccountEnv>): (rs: seq<AccountResult>)
    requires |envs| == |accounts|
    ensures |rs| == |accounts|
  {
    seq(|accounts|, i requires 0 <= i < |accounts| => Run(accounts[i], envs[i]))
  }

  /** `totalFamily`: the claimed family totals of the successful accounts. */
  function TotalFamily(rs: seq<AccountResult>, n: nat): int
    requires n <= |rs|
  {
    if n == 0 then 0
    else TotalFamily(rs, n - 1) + (if rs[n - 1].Signed? then rs[n - 1].familyTotal else 0)
  }

  /** `totalActualFamily`: the measured family deltas of the successful accounts. */
  function TotalActualFamily(rs: seq<AccountResult>, n: nat): int
    requires n <= |rs|
  {
    if n == 0 then 0
    else TotalActualFamily(rs, n - 1) + (if rs[n - 1].Signed? then rs[n - 1].actualFamily else 0)
  }

  /** The entry account `i` adds: an error entry when it failed, a sub-account
      entry when it succeeded and is not the main account, nothing otherwise. */
  function EntryOf(accounts: seq<Account>, rs: seq<AccountResult>, i: nat): seq<Entry>
    requires |rs| == |accounts| && i < |rs|
  {
    if rs[i].Failed? then [ErrorEntryFor(accounts[i], rs[i].report)]
    else if i != 0 then [SubAccountEntryFor(accounts[i], rs[i].familyTotal)]
    else []
  }

  /** `reports` after the first `n` accounts. */
  function Entries(accounts: seq<Account>, rs: seq<AccountResult>, n: nat): seq<Entry>
    requires |rs| == |accounts| && n <= |rs|
  {
    if n == 0 then [] else Entries(accounts, rs, n - 1) + EntryOf(accounts, rs, n - 1)
  }

  /** Whether the loop sleeps 5 s after account `i`: only after a success, and
      only when another account follows. */
  predicate SleepsAfter(rs: seq<AccountResult>, i: nat)
    requires i < |rs|
  {
    rs[i].Signed? && |rs| > 1 && i < |rs| - 1
  }

  /** The accounts after which the loop slept, among the first `n`. */
  function Sleeps(rs: seq<AccountResult>, n: nat): seq<nat>
    requires n <= |rs|
  {
    if n == 0 then [] else Sleeps(rs, n - 1) + (if SleepsAfter(rs, n - 1) then [n - 1] else [])
  }

  /** The body of the loop for account `index`, once `stressTest` has returned
      `result`: the accumulators move from the first `index` accounts to the
      first `index + 1`. */
  method Record(accounts: seq<Account>, ghost rs: seq<AccountResult>, index: nat, result: AccountResult,
                totalFamily: int, totalActualFamily: int, reports: seq<Entry>, sleptAfter: seq<nat>)
    returns (totalFamily': int, totalActualFamily': int, reports': seq<Entry>, sleptAfter': seq<nat>)
    requires |rs| == |accounts| && index < |rs| && result == rs[index]
    requires totalFamily == TotalFamily(rs, index) && totalActualFamily == TotalActualFamily(rs, index)
    requires reports == Entries(accounts, rs, index) && sleptAfter == Sleeps(rs, index)
    ensures totalFamily' == TotalFamily(rs, index + 1) && totalActualFamily' == TotalActualFamily(rs, index + 1)
    ensures reports' == Entries(accounts, rs, index + 1) && sleptAfter' == Sleeps(rs, index + 1)
  {
    totalFamily', totalActualFamily', reports', sleptAfter' := totalFamily, totalActualFamily, reports, sleptAfter;
    if result.Failed? {
      reports' := reports + [ErrorEntryFor(accounts[index], result.report)];
      return;
    }
    totalFamily' := totalFamily + result.familyTotal;
    totalActualFamily' := totalActualFamily + result.actualFamily;
    if index != 0 {
      reports' := reports + [SubAccountEntryFor(accounts[index], result.familyTotal)];
    }
    if |accounts| > 1 && index < |accounts| - 1 {
      sleptAfter' := sleptAfter + [index];
    }
  }

  /** The loop over `accounts.entries()`: one `stressTest` at a time, in account order. */
  method RunFleet(accounts: seq<Account>, threshold: nat, envs: seq<AccountEnv>)
    returns (totalFamily: int, totalActualFamily: int, reports: seq<Entry>, sleptAfter: seq<nat>)
    requires |envs| == |accounts|
    requires forall i :: 0 <= i < |envs| ==> Answers(envs[i], FanOutFor(threshold, i))
    ensures var rs := Results(accounts, envs);
      totalFamily == TotalFamily(rs, |rs|) && totalActualFamily == TotalActualFamily(rs, |rs|)
      && reports == Entries(accounts, rs, |rs|) && sleptAfter == Sleeps(rs, |rs|)
  {
    ghost var rs := Results(accounts, envs);
    totalFamily, totalActualFamily, reports, sleptAfter := 0, 0, [], [];
    for index := 0 to |accounts|
      invariant totalFamily == TotalFamily(rs, index)
      invariant totalActualFamily == TotalActualFamily(rs, index)
      invariant reports == Entries(accounts, rs, index)
      invariant sleptAfter == Sleeps(rs, index)
    {
      var counts := FanOutFor(threshold, index);
      var result := StressTest(accounts[index], counts.personalCount, counts.familyCount, envs[index]);
      totalFamily, totalActualFamily, reports, sleptAfter :=
        Record(accounts, rs, index, result, totalFamily, totalActualFamily, reports, sleptAfter);
    }
  }

  /* ---------- The whole run (src/family.js:115-209) ---------- */

  const MissingFamilyId := "未配置环境变量 FAMILYID"

  /** What the run gathers for the push report. */
  datatype DailyReport = DailyReport(
    main: MainAccountData,
    totalFamily: int,
    totalActualFamily: int,
    entries: seq<Entry>,
    subAccountLines: seq<string>,
    sleptAfter: seq<nat>)

  /** The sub-account entries, in order (`reports.filter(r => r.type === 'sub_account')`). */
  function SubAccountEntries(entries: seq<Entry>): (subs: seq<Entry>)
    ensures forall k :: 0 <= k < |subs| ==> subs[k].SubAccountEntry?
    ensures |subs| <= |entries|
  {
    if entries == [] then []
    else SubAccountEntries(entries[..|entries| - 1])
         + (if entries[|entries| - 1].SubAccountEntry? then [entries[|entries| - 1]] else [])
  }

  /** The lines of the push report that list the other accounts: the data of the
      sub-account entries, in order (`.map(r => r.data)`). */
  function PushLines(entries: seq<Entry>): (lines: seq<string>)
    ensures |lines| == |SubAccountEntries(entries)|
  {
    var subs := SubAccountEntries(entries);
    seq(|subs|, k requires 0 <= k < |subs| => EntryData(subs[k]))
  }

  /** The whole run: a missing or empty `FAMILYID` throws before anything else;
      otherwise the main-account block, then the account loop. */
  method Daily(accounts: seq<Account>, familyId: Option<string>, threshold: nat, mainEnv: MainEnv, envs: seq<AccountEnv>)
    returns (outcome: Result<DailyReport, string>)
    requires |envs| == |accounts|
    requires forall i :: 0 <= i < |envs| ==> Answers(envs[i], FanOutFor(threshold, i))
    ensures familyId.None? || familyId.value == "" ==> outcome == Err(MissingFamilyId)
    ensures familyId.Some? && familyId.value != "" ==>
      var rs := Results(accounts, envs);
      var entries := Entries(accounts, rs, |rs|);
      outcome == Ok(DailyReport(MainAccountBlock(accounts, mainEnv), TotalFamily(rs, |rs|), TotalActualFamily(rs, |rs|),
                                entries, PushLines(entries), Sleeps(rs, |rs|)))
  {
    if familyId.None? || familyId.value == "" {
      return Err(MissingFamilyId);
    }
    var main := MainAccountBlock(accounts, mainEnv);
    var totalFamily, totalActualFamily, reports, sleptAfter := RunFleet(accounts, threshold, envs);
    outcome := Ok(DailyReport(main, totalFamily, totalActualFamily, reports, PushLines(reports), sleptAfter));
  }

  /* ---------- Properties of the loop ---------- */

  /** The totals over the first `m` accounts depend on those accounts only. */
  lemma {:induction false} TotalsOfSamePrefix(a: seq<AccountResult>, b: seq<AccountResult>, m: nat)
    requires m <= |a| && m <= |b| && a[..m] == b[..m]
    ensures TotalFamily(a, m) == TotalFamily(b, m)
    ensures TotalActualFamily(a, m) == TotalActualFamily(b, m)
  {
    if m > 0 {
      assert a[m - 1] == a[..m][m - 1];
      assert a[..m - 1] == a[..m][..m - 1] && b[..m - 1] == b[..m][..m - 1];
      TotalsOfSamePrefix(a, b, m - 1);
    }
  }

  /** A failed account contributes nothing to either fleet total: leaving it out
      of the fleet leaves both totals as they are. */
  lemma {:induction false} FailedAccountAddsNothing(rs: seq<AccountResult>, i: nat, n: nat)
    requires i < n <= |rs| && rs[i].Failed?
    ensures TotalFamily(rs, n) == TotalFamily(rs[..i] + rs[i + 1..], n - 1)
    ensures TotalActualFamily(rs, n) == TotalActualFamily(rs[..i] + rs[i + 1..], n - 1)
    decreases n
  {
    var without := rs[..i] + rs[i + 1..];
    if n - 1 == i {
      assert without[..i] == rs[..i];
      TotalsOfSamePrefix(rs, without, i);
    } else {
      FailedAccountAddsNothing(rs, i, n - 1);
      assert without[n - 2] == rs[n - 1];
    }
  }

  /** The reason read back from a failure report is the trimmed text before the
      first `:` of the error message (or 未知错误 when that is blank), whatever
      the name in the report contains: the report's own `: ` is the last colon. */
  lemma FailureReportReason(name: string, message: string)
    ensures var t := Trim(BeforeFirst(message, ':'));
      ErrorReason(FailureReport(name, message)) == if |t| == 0 then UnknownError else t
  {
    var seg := BeforeFirst(message, ':');
    BeforeFirstIsPrefix(message, ':');
    var head, tail := "❌ " + name + " 签到失败", [' '] + seg;
    assert FailureReport(name, message) == head + [':'] + tail;
    AfterLastSep(head, ':', tail);
    TrimSkipsSpace(' ', seg);
  }

  /** For an account whose login failed the recorded reason is the error message
      up to its first `:`, trimmed (or 未知错误 when that is blank). */
  lemma LoginFailureReason(account: Account, env: AccountEnv)
    requires !env.login.LoggedIn?
    ensures var t := Trim(BeforeFirst(ThrownMessage(env.login), ':'));
      ErrorReason(Run(account, env).report) == if |t| == 0 then UnknownError else t
  {
    FailureReportReason(Mask(account.userName), ThrownMessage(env.login));
  }

  /** The line pushed for an account whose login failed: the masked name and
      its error message up to the first `:`, trimmed, or 未知错误. */
  lemma FailedAccountLine(account: Account, env: AccountEnv)
    requires !env.login.LoggedIn?
    ensures var t := Trim(BeforeFirst(ThrownMessage(env.login), ':'));
      EntryData(ErrorEntryFor(account, Run(account, env).report))
      == "❌ " + Mask(account.userName) + ": " + (if |t| == 0 then UnknownError else t)
  {
    LoginFailureReason(account, env);
  }

  /** A rejected login is recorded with the reason 登录失败. */
  lemma LoginRejectedReason(account: Account, env: AccountEnv)
    requires env.login == LoginRejected
    ensures ErrorReason(Run(account, env).report) == LoginFailedMessage
  {
    var message := LoginFailedMessage;
    assert ':' !in message && !IsSpace(message[0]) && !IsSpace(message[|message| - 1]);
    PlainSegment(message, ':');
    FailureReportReason(Mask(account.userName), message);
    assert Run(account, env).report == FailureReport(Mask(account.userName), message);
  }

  /** Number of failed accounts among the first `n`. */
  function FailedAccounts(rs: seq<AccountResult>, n: nat): nat
    requires n <= |rs|
  {
    if n == 0 then 0 else FailedAccounts(rs, n - 1) + (if rs[n - 1].Failed? then 1 else 0)
  }

  /** Number of successful accounts other than the main one among the first `n`. */
  function SignedSubAccounts(rs: seq<AccountResult>, n: nat): nat
    requires n <= |rs|
  {
    if n == 0 then 0 else SignedSubAccounts(rs, n - 1) + (if rs[n - 1].Signed? && n - 1 != 0 then 1 else 0)
  }

  /** What one account adds: an entry unless it is the main account and
      succeeded, and a sub-account entry exactly when it succeeded and is not
      the main account. */
  lemma EntryOfShape(accounts: seq<Account>, rs: seq<AccountResult>, i: nat)
    requires |rs| == |accounts| && i < |rs|
    ensures |EntryOf(accounts, rs, i)| == if rs[i].Signed? && i == 0 then 0 else 1
    ensures SubAccountEntries(EntryOf(accounts, rs, i)) == if rs[i].Signed? && i != 0 then EntryOf(accounts, rs, i) else []
  {
    var e := EntryOf(accounts, rs, i);
    if e != [] {
      assert e[..0] == [];
    }
  }

  /** Every account is counted once, as failed or as a successful subordinate,
      except a successful main account. */
  lemma {:induction false} AccountsCounted(rs: seq<AccountResult>, n: nat)
    requires n <= |rs|
    ensures FailedAccounts(rs, n) + SignedSubAccounts(rs, n) == n - (if n > 0 && rs[0].Signed? then 1 else 0)
  {
    if n > 0 {
      AccountsCounted(rs, n - 1);
    }
  }

  /** Every account leaves exactly one entry except a successful main account;
      the push report lists exactly the successful subordinate accounts, and the
      error entries never reach it. */
  lemma {:induction false} EntryCounts(accounts: seq<Account>, rs: seq<AccountResult>, n: nat)
    requires |rs| == |accounts| && n <= |rs|
    ensures |Entries(accounts, rs, n)| == FailedAccounts(rs, n) + SignedSubAccounts(rs, n)
    ensures |SubAccountEntries(Entries(accounts, rs, n))| == SignedSubAccounts(rs, n)
    ensures |Entries(accounts, rs, n)| == n - (if n > 0 && rs[0].Signed? then 1 else 0)
  {
    AccountsCounted(rs, n);
    if n > 0 {
      var front := Entries(accounts, rs, n - 1);
      var step := EntryOf(accounts, rs, n - 1);
      EntryCounts(accounts, rs, n - 1);
      EntryOfShape(accounts, rs, n - 1);
      assert Entries(accounts, rs, n) == front + step;
      SubAccountEntriesAppend(front, step);
    }
  }

  /** Successful subordinate account `i` is the entry of `subs` at position
      `SignedSubAccounts(rs, i)`, the number of such accounts before it. */
  predicate PushedAt(accounts: seq<Account>, rs: seq<AccountResult>, subs: seq<Entry>, i: nat)
    requires |rs| == |accounts| && i < |rs|
  {
    rs[i].Signed? && SignedSubAccounts(rs, i) < |subs| && subs[SignedSubAccounts(rs, i)] == SubAccountEntryFor(accounts[i], rs[i].familyTotal)
  }

  /** Every successful subordinate account among the first `m` is where
      `PushedAt` says it is in `subs`. */
  predicate AllPushed(accounts: seq<Account>, rs: seq<AccountResult>, subs: seq<Entry>, m: nat)
    requires |rs| == |accounts| && m <= |rs|
  {
    forall i {:trigger PushedAt(accounts, rs, subs, i)} :: 0 < i < m && rs[i].Signed? ==> PushedAt(accounts, rs, subs, i)
  }

  /** The push report lists the successful subordinate accounts in account
      order: each is pushed at its position among them. With `EntryCounts`
      these positions are all there are. */
  lemma {:induction false} PushedInAccountOrder(accounts: seq<Account>, rs: seq<AccountResult>, n: nat)
    requires |rs| == |accounts| && n <= |rs|
    ensures AllPushed(accounts, rs, SubAccountEntries(Entries(accounts, rs, n)), n)
  {
    if n > 0 {
      PushedInAccountOrder(accounts, rs, n - 1);
      PushedStep(accounts, rs, n);
    } else {
      NothingPushedYet(accounts, rs, SubAccountEntries(Entries(accounts, rs, n)));
    }
  }

  /** Before any account, there is nothing to find. */
  lemma NothingPushedYet(accounts: seq<Account>, rs: seq<AccountResult>, subs: seq<Entry>)
    requires |rs| == |accounts|
    ensures AllPushed(accounts, rs, subs, 0)
  {
  }

  /** One more account keeps the earlier positions and adds its own. */
  lemma PushedStep(accounts: seq<Account>, rs: seq<AccountResult>, n: nat)
    requires |rs| == |accounts| && 0 < n <= |rs|
    requires AllPushed(accounts, rs, SubAccountEntries(Entries(accounts, rs, n - 1)), n - 1)
    ensures AllPushed(accounts, rs, SubAccountEntries(Entries(accounts, rs, n)), n)
  {
    var front := Entries(accounts, rs, n - 1);
    var step := EntryOf(accounts, rs, n - 1);
    var fs, ss := SubAccountEntries(front), SubAccountEntries(step);
    assert Entries(accounts, rs, n) == front + step;
    SubAccountEntriesAppend(front, step);
    PushedKept(accounts, rs, fs, ss, n - 1);
    if rs[n - 1].Signed? && n - 1 != 0 {
      PushedNew(accounts, rs, n - 1);
    }
    PushedExtend(accounts, rs, fs + ss, n - 1);
  }

  /** A successful subordinate account is pushed right after the ones before it. */
  lemma PushedNew(accounts: seq<Account>, rs: seq<AccountResult>, i: nat)
    requires |rs| == |accounts| && 0 < i < |rs| && rs[i].Signed?
    ensures PushedAt(accounts, rs, SubAccountEntries(Entries(accounts, rs, i)) + SubAccountEntries(EntryOf(accounts, rs, i)), i)
  {
    var fs, ss := SubAccountEntries(Entries(accounts, rs, i)), SubAccountEntries(EntryOf(accounts, rs, i));
    EntryCounts(accounts, rs, i);
    EntryOfShape(accounts, rs, i);
    assert (fs + ss)[|fs|] == ss[0];
  }

  /** Entries appended after `fs` do not move the ones already there. */
  lemma PushedKept(accounts: seq<Account>, rs: seq<AccountResult>, fs: seq<Entry>, ss: seq<Entry>, m: nat)
    requires |rs| == |accounts| && m <= |rs|
    requires AllPushed(accounts, rs, fs, m)
    ensures AllPushed(accounts, rs, fs + ss, m)
  {
    forall i | 0 < i < m && rs[i].Signed?
      ensures PushedAt(accounts, rs, fs + ss, i)
    {
      assert PushedAt(accounts, rs, fs, i);
      assert (fs + ss)[SignedSubAccounts(rs, i)] == fs[SignedSubAccounts(rs, i)];
    }
  }

  /** The positions of the first `m` accounts and that of account `m` give
      those of the first `m + 1`. */
  lemma PushedExtend(accounts: seq<Account>, rs: seq<AccountResult>, subs: seq<Entry>, m: nat)
    requires |rs| == |accounts| && m < |rs|
    requires AllPushed(accounts, rs, subs, m)
    requires 0 < m && rs[m].Signed? ==> PushedAt(accounts, rs, subs, m)
    ensures AllPushed(accounts, rs, subs, m + 1)
  {
  }

  lemma {:induction false} SubAccountEntriesAppend(a: seq<Entry>, b: seq<Entry>)
    ensures SubAccountEntries(a + b) == SubAccountEntries(a) + SubAccountEntries(b)
    decreases |b|
  {
    if b != [] {
      assert (a + b)[..|a + b| - 1] == a + b[..|b| - 1];
      SubAccountEntriesAppend(a, b[..|b| - 1]);
    } else {
      assert a + b == a;
    }
  }

  /** The loop sleeps after account `i` exactly when that account succeeded and is
      not the last one; the sleeps come in account order. */
  lemma {:induction false} SleepRule(rs: seq<AccountResult>, n: nat)
    requires n <= |rs|
    ensures forall i: nat :: i in Sleeps(rs, n) <==> i < n && SleepsAfter(rs, i)
    ensures forall j, k :: 0 <= j < k < |Sleeps(rs, n)| ==> Sleeps(rs, n)[j] < Sleeps(rs, n)[k]
  {
    if n > 0 {
      var front := Sleeps(rs, n - 1);
      SleepRule(rs, n - 1);
      assert forall j :: 0 <= j < |front| ==> front[j] < n - 1 by {
        forall j | 0 <= j < |front|
          ensures front[j] < n - 1
        {
          assert front[j] in front;
        }
      }
    }
  }

  /** Three accounts of which the second fails to log in: the third still runs,
      the report lists the second as failed and the third's family total, the
      totals are the first and third accounts' figures, and the loop sleeps only
      after the first. */
  lemma MiddleAccountFails(accounts: seq<Account>, envs: seq<AccountEnv>)
    requires |accounts| == |envs| == 3
    requires envs[0].login.LoggedIn? && !envs[1].login.LoggedIn? && envs[2].login.LoggedIn?
    ensures var rs := Results(accounts, envs);
      rs[2] == Run(accounts[2], envs[2]) && rs[2].Signed?
      && Entries(accounts, rs, 3)
         == [ErrorEntryFor(accounts[1], rs[1].report), SubAccountEntryFor(accounts[2], rs[2].familyTotal)]
      && TotalFamily(rs, 3) == rs[0].familyTotal + rs[2].familyTotal
      && TotalActualFamily(rs, 3) == rs[0].actualFamily + rs[2].actualFamily
      && Sleeps(rs, 3) == [0]
  {
    var rs := Results(accounts, envs);
    assert rs[0].Signed? && rs[1].Failed? && rs[2].Signed?;
    assert Entries(accounts, rs, 1) == [];
    assert Entries(accounts, rs, 2) == [ErrorEntryFor(accounts[1], rs[1].report)];
    assert TotalFamily(rs, 1) == rs[0].familyTotal;
    assert TotalFamily(rs, 2) == rs[0].familyTotal;
    assert TotalActualFamily(rs, 1) == rs[0].actualFamily;
    assert TotalActualFamily(rs, 2) == rs[0].actualFamily;
    assert Sleeps(rs, 1) == [0];
    assert Sleeps(rs, 2) == [0];
  }
}
