/** The small conversions `updateMetrics` applies to API fields before they
    become label values or gauge values. */
module Encoders {
  import opened Snapshot

  /** The stage statuses that have a code, in code order: `SUCCESS` is 0, ..., `FAILED` is 3. */
  const StageStatuses: seq<string> := ["SUCCESS", "IN_PROGRESS", "UNSTABLE", "FAILED"]

  /** Gauge value of the running-build series: 1 while a build runs, 0 otherwise. */
  function RunningValue(running: bool): (v: int)
    ensures v == 0 || v == 1
    ensures v == 1 <==> running
  {
    if running then 1 else 0
  }

  /** The `isgood` label of the running-build and elapsed-time series. */
  function IsGoodLabel(isGood: bool): (s: string)
    ensures s == "1" || s == "0"
    ensures s == "1" <==> isGood
  {
    if isGood then "1" else "0"
  }

  /** Gauge value of a live pipeline stage: its position in StageStatuses, or -1 for any other status. */
  function StageStatusCode(status: string): (c: int)
    ensures -1 <= c < |StageStatuses|
    ensures 0 <= c ==> StageStatuses[c] == status
    ensures c == -1 <==> status !in StageStatuses
  {
    if status == "SUCCESS" then 0
    else if status == "IN_PROGRESS" then 1
    else if status == "UNSTABLE" then 2
    else if status == "FAILED" then 3
    else -1
  }

  /** Gauge value of the build-success series: 0 for a failed build, 1 for every other result. */
  function BuildSuccessValue(result: string): (v: int)
    ensures v == 0 || v == 1
    ensures v == 0 <==> result == "FAILURE"
  {
    if result == "FAILURE" then 0 else 1
  }

  /** A test case gets a failure-age series when it was run and did not pass. */
  predicate IsFailing(c: TestCase)
  {
    !c.skipped && c.status != "PASSED"
  }

  /** Whole seconds in a span of milliseconds, rounded toward zero as Go's
      integer division rounds. */
  function MillisToSeconds(ms: int): (s: int)
    ensures 0 <= ms ==> 0 <= s && s * 1000 <= ms < s * 1000 + 1000
    ensures ms < 0 ==> s <= 0 && s * 1000 - 1000 < ms <= s * 1000
  {
    if 0 <= ms then ms / 1000 else -((-ms) / 1000)
  }

  function DigitChar(d: nat): (c: char)
    requires d < 10
    ensures '0' <= c <= '9' && c as int - '0' as int == d
  {
    ('0' as int + d) as char
  }

  /** Decimal digits of a natural number, most significant first. */
  function NatToString(n: nat): string
    decreases n
  {
    if n < 10 then [DigitChar(n)] else NatToString(n / 10) + [DigitChar(n % 10)]
  }

  /** `strconv.Itoa`: decimal, with a leading '-' for negative numbers. */
  function Itoa(n: int): string
  {
    if n < 0 then "-" + NatToString(-n) else NatToString(n)
  }

  /** NatToString gives decimal digits only, without a leading zero, and more than one
      exactly from 10 on. */
  lemma {:induction false} NatToStringShape(n: nat)
    ensures var s := NatToString(n);
      && 1 <= |s| && (10 <= n <==> 2 <= |s|)
      && (forall i :: 0 <= i < |s| ==> '0' <= s[i] <= '9')
      && (10 <= n ==> s[0] != '0')
    decreases n
  {
    if 10 <= n {
      NatToStringShape(n / 10);
    }
  }

  /** Itoa starts with '-' exactly for negative numbers. */
  lemma ItoaSign(n: int)
    ensures 1 <= |Itoa(n)| && (Itoa(n)[0] == '-' <==> n < 0)
  {
    if n < 0 {
      NatToStringShape(-n);
    } else {
      NatToStringShape(n);
    }
  }

  lemma {:induction false} NatToStringInjective(a: nat, b: nat)
    requires NatToString(a) == NatToString(b)
    ensures a == b
    decreases a
  {
    var s := NatToString(a);
    NatToStringShape(a);
    NatToStringShape(b);
    if 10 <= a {
      assert NatToString(a / 10) == s[..|s| - 1] == NatToString(b / 10);
      NatToStringInjective(a / 10, b / 10);
      assert DigitChar(a % 10) == s[|s| - 1] == DigitChar(b % 10);
    }
  }

  /** Distinct build numbers give distinct `buildid` labels. */
  lemma ItoaInjective(a: int, b: int)
    requires Itoa(a) == Itoa(b)
    ensures a == b
  {
    ItoaSign(a);
    ItoaSign(b);
    if a < 0 {
      assert NatToString(-a) == Itoa(a)[1..] == NatToString(-b);
      NatToStringInjective(-a, -b);
    } else {
      NatToStringInjective(a, b);
    }
  }

  /** The character `%03s` pads a short stage id with. */
  const PadChar: char := '0'

  /** `n` copies of PadChar. */
  function Padding(n: nat): seq<char>
    decreases n
  {
    if n == 0 then [] else [PadChar] + Padding(n - 1)
  }

  /** The `id` label of a stage series: the stage id right-aligned in a field of width 3. */
  function StageIdLabel(id: string): string
  {
    if |id| < 3 then Padding(3 - |id|) + id else id
  }

  /** The stage-id label is at least three characters long, ends with the id, and
      is padded with PadChar in front. */
  lemma StageIdLabelShape(id: string)
    ensures var s := StageIdLabel(id);
      && |s| == (if |id| < 3 then 3 else |id|)
      && s[|s| - |id|..] == id
      && forall i :: 0 <= i < |s| - |id| ==> s[i] == PadChar
  {
    if |id| < 3 {
      PaddingShape(3 - |id|);
    }
  }

  lemma {:induction false} PaddingShape(n: nat)
    ensures |Padding(n)| == n && forall i :: 0 <= i < n ==> Padding(n)[i] == PadChar
    decreases n
  {
    if n > 0 {
      PaddingShape(n - 1);
    }
  }
}
