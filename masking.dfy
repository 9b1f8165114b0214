/** `mask` (src/family.js:110-112): account identifiers are redacted before they
    reach a log line or a report. The identifier, or the placeholder 未知账号 when
    it is missing or empty, goes through `replace(/(\d{3})\d+(\d{4})/, '$1****$2')`
    once (no `g` flag). */
module Masking {
  import opened Wrappers

  /** Placeholder for a missing account name. */
  const UnknownAccount := "未知账号"

  /** The regular-expression class `\d`: ASCII digits only. */
  predicate IsDigit(c: char)
  {
    '0' <= c <= '9'
  }

  /** `s[p..p + n]` exists and is made of digits only. */
  ghost predicate DigitsAt(s: string, p: nat, n: nat)
  {
    p + n <= |s| && forall k :: p <= k < p + n ==> IsDigit(s[k])
  }

  /** Length of the maximal run of digits that starts at `p`. */
  function DigitRun(s: string, p: nat): (n: nat)
    requires p <= |s|
    ensures p + n <= |s|
    decreases |s| - p
  {
    if p < |s| && IsDigit(s[p]) then 1 + DigitRun(s, p + 1) else 0
  }

  /** `DigitRun` measures a run of digits that cannot be extended. */
  lemma {:induction false} DigitRunIsMaximal(s: string, p: nat)
    requires p <= |s|
    ensures DigitsAt(s, p, DigitRun(s, p))
    ensures p + DigitRun(s, p) == |s| || !IsDigit(s[p + DigitRun(s, p)])
    decreases |s| - p
  {
    if p < |s| && IsDigit(s[p]) {
      DigitRunIsMaximal(s, p + 1);
    }
  }

  /** The regex can match at `p` exactly when at least 8 digits start there
      (`\d{3}`, at least one `\d`, `\d{4}`). Positions are tried from `from`
      upwards, as a non-global `replace` does; the first that works is returned. */
  function FirstMatch(s: string, from: nat): (p: Option<nat>)
    requires from <= |s|
    ensures p.Some? ==> from <= p.value <= |s| && DigitRun(s, p.value) >= 8
    decreases |s| - from
  {
    if from + 8 > |s| then None
    else if DigitRun(s, from) >= 8 then Some(from)
    else FirstMatch(s, from + 1)
  }

  /** `FirstMatch` finds the leftmost position from `from` on where the regex can
      match, and None exactly when there is no such position. */
  lemma {:induction false} FirstMatchIsLeftmost(s: string, from: nat)
    requires from <= |s|
    ensures var p := FirstMatch(s, from);
      (p.Some? ==> DigitsAt(s, p.value, 8) && forall q :: from <= q < p.value ==> !DigitsAt(s, q, 8))
      && (p.None? ==> forall q :: from <= q <= |s| ==> !DigitsAt(s, q, 8))
    decreases |s| - from
  {
    if from + 8 <= |s| {
      var n := DigitRun(s, from);
      DigitRunIsMaximal(s, from);
      if n >= 8 {
        assert DigitsAt(s, from, 8);
      } else {
        assert !DigitsAt(s, from, 8) by {
          assert !IsDigit(s[from + n]);
        }
        FirstMatchIsLeftmost(s, from + 1);
      }
    }
  }

  /** The single replacement. A match at `p` covers the whole digit run from `p`:
      the greedy `\d+` takes the run and gives back just the four digits that
      `(\d{4})` needs. The run keeps its first three and last four digits. */
  function Redact(s: string): string
  {
    match FirstMatch(s, 0)
    case None => s
    case Some(p) =>
      var e := p + DigitRun(s, p);
      s[..p] + s[p..p + 3] + "****" + s[e - 4..e] + s[e..]
  }

  /** `mask(s)`: a falsy name (missing or empty) becomes the placeholder. */
  function Mask(name: Option<string>): string
  {
    Redact(if name.None? || name.value == "" then UnknownAccount else name.value)
  }

  /** A missing or empty name is shown as the placeholder, which itself has no digits. */
  lemma MaskFalsy()
    ensures Mask(None) == UnknownAccount
    ensures Mask(Some("")) == UnknownAccount
  {
  }

  /** Without a run of 8 or more digits the name is returned unchanged. */
  lemma MaskWithoutLongRun(s: string)
    requires s != []
    requires forall p :: 0 <= p <= |s| ==> !DigitsAt(s, p, 8)
    ensures Mask(Some(s)) == s
  {
    FirstMatchIsLeftmost(s, 0);
  }

  /** A digit run is determined by its start: a run of `n` digits followed by a
      non-digit (or the end) is the maximal run. */
  lemma {:induction false} DigitRunIs(s: string, p: nat, n: nat)
    requires DigitsAt(s, p, n)
    requires p + n == |s| || !IsDigit(s[p + n])
    ensures DigitRun(s, p) == n
    decreases n
  {
    if n > 0 {
      assert DigitsAt(s, p + 1, n - 1);
      DigitRunIs(s, p + 1, n - 1);
    }
  }

  /** A maximal run of 8 or more digits with no such run before it is where the
      regex matches, and the whole run is matched. The run is not preceded by a
      digit, so no digit before it is swallowed. */
  lemma MatchIsRun(s: string, p: nat, e: nat)
    requires p + 8 <= e <= |s|
    requires DigitsAt(s, p, e - p)
    requires e == |s| || !IsDigit(s[e])
    requires forall q :: 0 <= q < p ==> !DigitsAt(s, q, 8)
    ensures FirstMatch(s, 0) == Some(p) && DigitRun(s, p) == e - p
    ensures p == 0 || !IsDigit(s[p - 1])
  {
    assert DigitsAt(s, p, 8);
    FirstMatchIsLeftmost(s, 0);
    DigitRunIs(s, p, e - p);
    if p > 0 && IsDigit(s[p - 1]) {
      assert DigitsAt(s, p - 1, 8);
    }
  }

  /** `mask('13812345678')` is `'138****5678'`. The literals are parameters
      because the solver otherwise unrolls the whole string literal. */
  lemma MaskPhoneNumber(head: string, mid: string, tail: string)
    requires head == "138" && mid == "1234" && tail == "5678"
    ensures Mask(Some(head + mid + tail)) == head + "****" + tail
  {
    assert [] + (head + mid + tail) + [] == head + mid + tail;
    MaskSplitRun([], head, mid, tail, []);
  }

  /** The first run of 8 or more digits, wherever it starts, keeps its first
      three and last four digits with `****` between them. Everything before it
      (no such run, and not ending in a digit) and everything after it, later
      runs of digits included (no `g` flag), is kept as it is. */
  lemma MaskFirstRun(pre: string, run: string, rest: string)
    requires forall q :: 0 <= q < |pre| ==> !DigitsAt(pre, q, 8)
    requires pre == [] || !IsDigit(pre[|pre| - 1])
    requires |run| >= 8 && forall k :: 0 <= k < |run| ==> IsDigit(run[k])
    requires rest == [] || !IsDigit(rest[0])
    ensures Mask(Some(pre + run + rest)) == pre + run[..3] + "****" + run[|run| - 4..] + rest
  {
    var s := pre + run + rest;
    MaskIsRedact(s);
    FirstRunFound(pre, run, rest);
    RedactAt(s, |pre|, |pre| + |run|);
    SlicesInContext(pre, run, rest);
  }

  /** A non-empty name goes through the replacement as it is. */
  lemma MaskIsRedact(s: string)
    requires s != []
    ensures Mask(Some(s)) == Redact(s)
  {
  }

  /** The regex matches at the start of `run`, and consumes all of it. */
  lemma FirstRunFound(pre: string, run: string, rest: string)
    requires forall q :: 0 <= q < |pre| ==> !DigitsAt(pre, q, 8)
    requires pre == [] || !IsDigit(pre[|pre| - 1])
    requires |run| >= 8 && forall k :: 0 <= k < |run| ==> IsDigit(run[k])
    requires rest == [] || !IsDigit(rest[0])
    ensures FirstMatch(pre + run + rest, 0) == Some(|pre|) && DigitRun(pre + run + rest, |pre|) == |run|
  {
    RunInContext(pre, run, rest);
    MatchIsRun(pre + run + rest, |pre|, |pre| + |run|);
  }

  /** The replacement made by a match at `p` that consumes `s[p..e]`. */
  lemma RedactAt(s: string, p: nat, e: nat)
    requires p + 8 <= e <= |s|
    requires FirstMatch(s, 0) == Some(p) && DigitRun(s, p) == e - p
    ensures Redact(s) == s[..p] + s[p..p + 3] + "****" + s[e - 4..e] + s[e..]
  {
  }

  /** Where `run` sits in `pre + run + rest`, and that no 8-digit window starts
      in `pre`. */
  lemma RunInContext(pre: string, run: string, rest: string)
    requires forall q :: 0 <= q < |pre| ==> !DigitsAt(pre, q, 8)
    requires pre == [] || !IsDigit(pre[|pre| - 1])
    requires forall k :: 0 <= k < |run| ==> IsDigit(run[k])
    requires rest == [] || !IsDigit(rest[0])
    ensures var s := pre + run + rest;
      DigitsAt(s, |pre|, |run|)
      && (|pre| + |run| == |s| || !IsDigit(s[|pre| + |run|]))
      && forall q :: 0 <= q < |pre| ==> !DigitsAt(s, q, 8)
  {
    var s := pre + run + rest;
    forall k | |pre| <= k < |pre| + |run|
      ensures IsDigit(s[k])
    {
      assert s[k] == run[k - |pre|];
    }
    assert |pre| + |run| < |s| ==> s[|pre| + |run|] == rest[0];
    forall q | 0 <= q < |pre|
      ensures !DigitsAt(s, q, 8)
    {
      if q + 8 <= |pre| {
        assert !DigitsAt(pre, q, 8);
        var k :| q <= k < q + 8 && !IsDigit(pre[k]);
        assert s[k] == pre[k];
      } else {
        assert s[|pre| - 1] == pre[|pre| - 1];
      }
    }
  }

  /** The pieces of `pre + run + rest` the redaction cuts out. */
  lemma SlicesInContext(pre: string, run: string, rest: string)
    requires |run| >= 8
    ensures var s, p, e := pre + run + rest, |pre|, |pre| + |run|;
      s[..p] == pre && s[p..p + 3] == run[..3] && s[e - 4..e] == run[|run| - 4..] && s[e..] == rest
  {
  }

  /** `mask('abc13812345678x99999999')` is `'abc138****5678x99999999'`: the
      letters before the number are kept, and so is the later run of digits.
      The literals are parameters, as in `MaskPhoneNumber`. */
  lemma MaskEmbeddedNumber(pre: string, head: string, mid: string, tail: string, rest: string)
    requires pre == "abc" && head == "138" && mid == "1234" && tail == "5678" && rest == "x99999999"
    ensures Mask(Some(pre + (head + mid + tail) + rest)) == pre + head + "****" + tail + rest
  {
    MaskSplitRun(pre, head, mid, tail, rest);
  }

  /** `MaskFirstRun` with the run given as its first three digits, the middle
      and its last four digits. */
  lemma MaskSplitRun(pre: string, head: string, mid: string, tail: string, rest: string)
    requires forall q :: 0 <= q < |pre| ==> !DigitsAt(pre, q, 8)
    requires pre == [] || !IsDigit(pre[|pre| - 1])
    requires |head| == 3 && |mid| >= 1 && |tail| == 4
    requires forall k :: 0 <= k < |head + mid + tail| ==> IsDigit((head + mid + tail)[k])
    requires rest == [] || !IsDigit(rest[0])
    ensures Mask(Some(pre + (head + mid + tail) + rest)) == pre + head + "****" + tail + rest
  {
    var run := head + mid + tail;
    MaskFirstRun(pre, run, rest);
    assert run[..3] == head && run[|run| - 4..] == tail;
  }
}
