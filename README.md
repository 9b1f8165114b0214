# Family cloud-drive sign-in: a Dafny model of `src/family.js`

This project models the daily sign-in script for a cloud drive that has a shared
family storage pool, and proves properties of that model. The script takes
the accounts in their configured order. Each account is one `stressTest` run:

- It logs in and reads the account's capacity.
- It fires a batch of personal sign-in calls, then a batch of family sign-in
  calls. Every call is raced against a 30-second timer, and the batch waits
  with `Promise.allSettled` until every call has settled.
- It sums the claimed rewards, reads the capacity again and sets the measured
  change beside the claimed totals.

Around that loop the script checks that `FAMILYID` is configured, reads the
main account's capacity, and builds the fleet totals and the per-account
entries of the push report. Account names are redacted by `mask` wherever
they are shown.

The model has six modules:

- `Wrappers`: Option and Result.
- `JsText`: the JavaScript string operations the script relies on: `includes`,
  `split(sep)[0]`, `split(sep).pop()`, `trim`, integer `toString` and `padStart`.
- `Masking`: `mask`, the non-global replace of `/(\d{3})\d+(\d{4})/`.
- `Batch`: one batch of timed calls, its reduction and its report lines. The
  `RunBatch` method runs the two loops (the handlers pushing lines as calls
  settle, then the `reduce`).
- `AccountRun`: `stressTest`, proved against the function `Run`.
- `Fleet`: the fan-out policy, the main-account block, the account loop
  (`RunFleet`, whose loop body is `Record`) and the whole run (`Daily`).

The remote service is not modelled. Its answers are given as values:

- the login outcome
- the capacity readings, each of which may fail
- for each batch, the outcomes of its calls in launch order and the same
  outcomes in the order they settled

Four behaviours of the code that the model follows as written:

- The fleet's actual family figure sums the measured family change of every
  successful account, not just the main account's (src/family.js:179).
- A failed capacity read makes the measured change 0, not "unknown"
  (src/family.js:44, 86-90).
- The personal batch completes before the family batch starts: the two
  batches do not overlap (src/family.js:66, 70).
- The loop pauses only after a successful account that is not the last one;
  the `continue` of a failed account skips the pause (src/family.js:175, 188-190).

## Model

| member | source | states |
|---|---|---|
| Masking.FirstMatchIsLeftmost | src/family.js:111 | The match position is the leftmost place where eight digits start (three, at least one, four), and there is no match exactly when no such place exists |
| Masking.MatchIsRun | src/family.js:111 | A maximal run of at least eight digits with none before it is where the regex matches, the whole run is consumed, and no digit before it is swallowed |
| Masking.MaskFalsy | src/family.js:110-112 | A missing or empty name is shown as 未知账号 |
| Masking.MaskWithoutLongRun | src/family.js:110-112 | A name without eight consecutive digits is returned unchanged |
| Masking.MaskFirstRun | src/family.js:110-112 | The first run of at least eight digits, wherever it starts, keeps its first three and last four digits with `****` in between; everything before and after it is kept, later digit runs included (no `g` flag) |
| Masking.MaskEmbeddedNumber | src/family.js:110-112 | `mask('abc13812345678x99999999')` is `abc138****5678x99999999`: the text before the run and the later run of digits are kept |
| Masking.MaskPhoneNumber | src/family.js:110-112 | `mask('138' + '1234' + '5678')` is `'138' + '****' + '5678'` |
| Masking.MaskSplitRun | src/family.js:110-112 | The first run of 8 or more digits, split into its first three digits, a middle and its last four digits, becomes the first three, `****` and the last four, with everything around it kept |
| Masking.DigitRunIsMaximal | src/family.js:111 | `DigitRun` measures a run of digits that cannot be extended |
| JsText.IncludesAt | src/family.js:62 | An occurrence at any offset is found by `includes` |
| JsText.NoOccurrenceNotIncluded | src/family.js:62 | Conversely, `includes` is false when the text occurs at no offset |
| JsText.BeforeFirstIsPrefix | src/family.js:105 | `split(':')[0]` is the longest prefix without `:`, and the character after it, if any, is `:` |
| JsText.AfterLastIsSuffix | src/family.js:173 | `split(':').pop()` is the longest suffix without `:`, and the character before it, if any, is `:` |
| JsText.AfterLastNoSep | src/family.js:173 | Appending text without a `:` extends what `pop()` returns by that text |
| JsText.AfterLastSep | src/family.js:173 | Whatever precedes the last `:` plays no part in what `pop()` returns |
| JsText.TrimStartRemovesSpace | src/family.js:173 | Trimming the start removes the leading ECMAScript white space and nothing else |
| JsText.TrimEndRemovesSpace | src/family.js:173 | Trimming the end removes the trailing white space and nothing else |
| JsText.PlainSegment | src/family.js:173 | A message with no `:` and no white space at either end comes through `split(':')[0]` and `trim` unchanged |
| JsText.NatToStringRoundTrip | src/family.js:184 | The decimal digits `toString` prints read back to the same number |
| JsText.PadStart | src/family.js:184 | `padStart(width, c)` keeps the text as a suffix, fills the rest with `c`, and has length max(width, length) |
| Batch.TimeoutReported | src/family.js:34-39 | A call whose timer fires first is reported with the fixed 30-second text, because the timer's message mentions 超时 |
| Batch.ExplainTimeout | src/family.js:62 | An error message that contains 超时 anywhere is reported as `请求超时（30秒）` |
| Batch.ExplainKeeps | src/family.js:77 | An error message that does not contain 超时 is reported as it is |
| Batch.ClaimedTotalIsSumOfRewards | src/family.js:66-67 | The batch total is the sum of the numeric rewards of the successful calls; timeouts, rejections and missing or non-numeric rewards add 0 |
| Batch.NoSuccessClaimsNothing | src/family.js:66-67 | A batch in which no call succeeded, or an empty batch, claims 0 |
| Batch.OneLinePerFailure | src/family.js:60-64 | Exactly one report line per timed-out or rejected call with a message, none per success, and every line names the batch's endpoint |
| Batch.LinesIndependentOfSettleOrder | src/family.js:55-67 | Any settle order of the same calls yields the same report lines, up to their order |
| Batch.RunBatch | src/family.js:55-82 | The two loops of a batch: the lines appended to the report are those of the calls in settle order, and the total is the launch-order reduction |
| Batch.UniformGrants | src/family.js:55-81 | n calls to either endpoint that each grant r claim n·r and report nothing |
| Batch.NineGrantsOneTimeout | src/family.js:70-82 | Nine family calls granting 5 each plus one timeout: 10 calls, a total of 45, and exactly one line, the timeout line |
| AccountRun.StressTest | src/family.js:42-108 | The run of one account equals `Run`: a failed login short-circuits to the failure report, otherwise both batches run and then the reconciliation |
| AccountRun.LoginFailureIsFatal | src/family.js:103-107 | After a failed login the result does not depend on any later remote answer; the report is the masked name with the message up to its first `:` |
| AccountRun.LoginRejectedReport | src/family.js:50 | A rejected login is reported as 登录失败 |
| AccountRun.Reconciliation | src/family.js:84-93 | Each measured change is after minus before when both readings succeeded, and 0 when either failed; the claimed totals play no part |
| AccountRun.ReconciliationExample | src/family.js:84-93 | Readings of 100/200 before and 110/200 after give changes of 10 and 0, whatever the calls claimed |
| AccountRun.SignedRunAccounting | src/family.js:54-101 | A successful run claims the sum of rewards per endpoint, and its report holds exactly the failure lines of both batches in any settle order, the personal batch's first |
| Fleet.FanOutByRole | src/family.js:163-169 | At threshold 1 the main account makes 1+1 calls and every other account 0+10; any other threshold t gives t+t |
| Fleet.FleetCallVolume | src/family.js:162-171 | With every login successful, n accounts launch 10n − 8 calls at threshold 1 (for n ≥ 1) and 2tn calls at threshold t |
| Fleet.MainAccountFigures | src/family.js:138-159 | Without an account or a login the main-account figures keep their initial values. Otherwise each figure comes from its own reading or is 0, and the added figures are final minus initial only when both readings succeeded |
| Fleet.Record | src/family.js:172-190 | One loop step moves the totals, the entries and the pauses from the first `index` accounts to the first `index + 1` |
| Fleet.RunFleet | src/family.js:162-191 | The loop's totals, entries and pauses are those of all the accounts' results, each run with its fan-out |
| Fleet.FailedAccountAddsNothing | src/family.js:172-179 | Leaving a failed account out of the fleet leaves both fleet totals unchanged |
| Fleet.FailureReportReason | src/family.js:173 | The reason read back from a failure report is the trimmed message up to its first `:`, or 未知错误 when that is blank, whatever the masked name contains |
| Fleet.LoginFailureReason | src/family.js:172-174 | A failed account's error entry carries its error message up to the first `:`, trimmed, or 未知错误 |
| Fleet.LoginRejectedReason | src/family.js:172-174 | An account whose login was rejected is listed with the reason 登录失败 |
| Fleet.EntryCounts | src/family.js:172-186 | Every account leaves exactly one entry except a successful main account; the push report holds as many entries as there are successful subordinate accounts |
| Fleet.PushedInAccountOrder | src/family.js:181-208 | Each successful subordinate account's entry is pushed at its position among the successful subordinate accounts, so with `EntryCounts` the push report lists exactly those accounts, in account order |
| Fleet.PushedStep | src/family.js:181-186 | One more account keeps the earlier accounts' positions in the push report and adds its own entry when it is a successful subordinate |
| Fleet.FailedAccountLine | src/family.js:172-174 | The line pushed for an account whose login failed is `❌ `, the masked name, `: ` and its error message up to the first `:`, trimmed, or 未知错误 |
| Fleet.SubAccountLine | src/family.js:184 | A sub-account line is `账号 <name> 家庭获得: `, then the family total right-aligned in a field of at least three characters (its decimal digits, which read back to the total, padded on the left with spaces), then ` MB` |
| Fleet.SleepRule | src/family.js:175-190 | The loop pauses after account i exactly when it succeeded and is not the last, and the pauses come in account order |
| Fleet.MiddleAccountFails | src/family.js:162-191 | With three accounts of which the second fails to log in, the third's run still succeeds; the entries are the second's error and the third's family total, the totals are the first and third accounts', and the only pause is after the first |
| Fleet.SubAccountEntries | src/family.js:208 | The filter keeps only sub-account entries and no more entries than it was given |
| Fleet.Daily | src/family.js:115-209 | A missing or empty `FAMILYID` is an error before anything else runs. Otherwise the report holds the main-account block, the fleet totals, the entries, the push lines of the sub-account entries and the pauses |

## Left out

- Network, SDK and client: `CloudClient`, `login`, `getUserSizeInfo`, `userSign` and `familyUserSign` are not modelled; their answers are inputs (`AccountEnv`, `MainEnv`, `BatchEnv`).
- Timers and concurrency: the 30-second race and `Promise.allSettled` are given as outcomes, with the settle order as an input. A timer that fires first is the outcome `Timeout`. The underlying call is not cancelled, and the model has nothing to say about it.
- Logging (`log4js`), `dotenv`, `sendNotify`, the top-level `catch` and the wall-clock benchmark are side effects outside the model. `sleep(5000)` is recorded as the index of the account after which the loop pauses.
- `Date.now()` stamps and the fixed wording of the per-call report lines: a line is kept as its endpoint and its reason (`FailureLine`).
- The push report's header lines (src/family.js:194-206): the `format` helper, `toFixed` and the division by 1024 are left out. The model keeps the figures they print and the sub-account lines.
- Units: capacities are kept in bytes; the division by 1048576 into megabytes is a change of unit and is left out.
- `EXEC_THRESHOLD`: `parseInt` of the environment value is not modelled; the threshold is a natural number given as input, so a NaN or negative threshold is not covered.
- Malformed SDK responses (a missing `cloudCapacityInfo`, a `null` response) are not modelled. A rejection without a string message is modelled: it pushes no line and adds 0.
- `FAMILYID` is only checked and forwarded; the family pool it names is part of the remote answers.
- Strings are sequences of Unicode scalar values, not UTF-16 code units.
- Fleet.SubAccountEntries: states only that the entries kept are sub-account entries and that there are no more than were given. `EntryCounts` and `PushedInAccountOrder` state which entries they are and in what order.
- Fleet.SubAccountLine: stated for a non-negative family total; a negative total would print with a leading `-`.
- Non-string account names: `userName` is a string or missing. A truthy non-string name, such as a number, makes `mask` throw. Inside `stressTest` it throws again in the `catch` (src/family.js:48, 105), so the whole run ends at the top-level `catch` (src/family.js:214-216). In the main-account block the throw is swallowed (src/family.js:156-158). None of this is modelled.
- Fractional rewards: `Number(r.value)` may be any number, but rewards are integers here, so fractional rewards and their floating-point sums are not modelled.
- Exponent notation: `toString` prints totals of 1e21 or more in exponent notation; `NatToString` always prints plain decimal digits.
