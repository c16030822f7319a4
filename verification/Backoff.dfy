/** The retry schedule of the data gatherer (cmd/awsDataGather/main.go), in seconds. */
module Backoff {

  const MAX_SLEEP: nat := 300

  function Pow2(k: nat): nat {
    if k == 0 then 1 else 2 * Pow2(k - 1)
  }

  function Min(a: nat, b: nat): nat {
    if a <= b then a else b
  }

  /** How many failures in a row the trace ends with. */
  function Failures(trace: seq<bool>): (k: nat)
    ensures k <= |trace|
  {
    if trace == [] || trace[|trace| - 1] then 0 else 1 + Failures(trace[..|trace| - 1])
  }

  /** The sleep after k failures in a row; after a success k is 0. */
  function SleepAfter(k: nat): nat {
    if k == 0 then MAX_SLEEP else Min(Pow2(k - 1), MAX_SLEEP)
  }

  function Total(sleeps: seq<nat>): nat {
    if sleeps == [] then 0 else Total(sleeps[..|sleeps| - 1]) + sleeps[|sleeps| - 1]
  }

  lemma {:induction false} Pow2Monotone(a: nat, b: nat)
    requires a <= b
    ensures 1 <= Pow2(a) <= Pow2(b)
    decreases b
  {
    if a < b {
      Pow2Monotone(a, b - 1);
    } else if b > 0 {
      Pow2Monotone(b - 1, b - 1);
    }
  }

  /** The loop of main over the outcomes of its fetches (true: success): each sleep depends only on
      how many failures in a row precede it, and the backoff stays within [1, 300]. */
  method Schedule(outcomes: seq<bool>) returns (sleeps: seq<nat>, backoff: nat)
    ensures |sleeps| == |outcomes|
    ensures forall i :: 0 <= i < |outcomes| ==> sleeps[i] == SleepAfter(Failures(outcomes[..i + 1]))
    ensures 1 <= backoff <= 300 && backoff == Min(Pow2(Failures(outcomes)), 300)
  {
    backoff := 1;
    sleeps := [];
    for i := 0 to |outcomes|
      invariant |sleeps| == i
      invariant forall j :: 0 <= j < i ==> sleeps[j] == SleepAfter(Failures(outcomes[..j + 1]))
      invariant backoff == Min(Pow2(Failures(outcomes[..i])), MAX_SLEEP)
      invariant 1 <= backoff <= MAX_SLEEP
    {
      assert outcomes[..i + 1][..i] == outcomes[..i];
      var sleep;
      if outcomes[i] {
        sleep := MAX_SLEEP;
        backoff := 1;
      } else {
        sleep := backoff;
        backoff := 2 * backoff;
        if backoff > MAX_SLEEP {
          backoff := MAX_SLEEP;
        }
      }
      sleeps := sleeps + [sleep];
    }
    assert outcomes[..|outcomes|] == outcomes;
  }

  /** Such a schedule step by step: 300 after a success, 1 after the first failure, and after each further one
      twice the last sleep, up to 300. */
  lemma SleepsFollow(outcomes: seq<bool>, sleeps: seq<nat>, i: nat)
    requires |sleeps| == |outcomes| && i < |outcomes|
    requires forall j :: 0 <= j < |outcomes| ==> sleeps[j] == SleepAfter(Failures(outcomes[..j + 1]))
    ensures outcomes[i] ==> sleeps[i] == 300
    ensures !outcomes[i] && (i == 0 || outcomes[i - 1]) ==> sleeps[i] == 1
    ensures !outcomes[i] && i > 0 && !outcomes[i - 1] ==> sleeps[i] == Min(2 * sleeps[i - 1], 300)
  {
    assert outcomes[..i + 1][..i] == outcomes[..i];
    if i > 0 {
      assert outcomes[..i][..i - 1] == outcomes[..i - 1];
      assert sleeps[i - 1] == SleepAfter(Failures(outcomes[..i]));
    }
  }

  /** The sleeps of k failures in a row. */
  function Outage(k: nat): (sleeps: seq<nat>)
    ensures |sleeps| == k
  {
    if k == 0 then [] else Outage(k - 1) + [SleepAfter(k)]
  }

  lemma {:induction false} OutageInSchedule(before: seq<bool>, down: seq<bool>, i: nat)
    requires Failures(before) == 0 && (forall j :: 0 <= j < |down| ==> !down[j]) && i < |down|
    ensures Failures((before + down)[..|before| + i + 1]) == i + 1
  {
    var s := (before + down)[..|before| + i + 1];
    assert s[..|s| - 1] == (before + down)[..|before| + i];
    if i == 0 {
      assert (before + down)[..|before|] == before;
    } else {
      OutageInSchedule(before, down, i - 1);
    }
  }

  lemma {:induction false} OutageAt(k: nat, i: nat)
    requires i < k
    ensures Outage(k)[i] == SleepAfter(i + 1)
  {
    if i < k - 1 {
      OutageAt(k - 1, i);
    }
  }

  /** Wherever the loop meets an outage of k failures after a success or at its start, it sleeps Outage(k). */
  lemma ScheduleOfAnOutage(before: seq<bool>, down: seq<bool>, sleeps: seq<nat>)
    requires Failures(before) == 0 && forall j :: 0 <= j < |down| ==> !down[j]
    requires |sleeps| == |before| + |down|
    requires forall i :: 0 <= i < |sleeps| ==> sleeps[i] == SleepAfter(Failures((before + down)[..i + 1]))
    ensures sleeps[|before|..] == Outage(|down|)
  {
    forall i | 0 <= i < |down| ensures sleeps[|before|..][i] == Outage(|down|)[i] {
      OutageInSchedule(before, down, i);
      OutageAt(|down|, i);
    }
  }

  lemma NinthPower()
    ensures Pow2(8) == 256 && Pow2(9) == 512
  {
    assert Pow2(4) == 16;
  }

  lemma SleepWithin(k: nat)
    requires k >= 1
    ensures SleepAfter(k) == if k <= 9 then Pow2(k - 1) else MAX_SLEEP
  {
    NinthPower();
    if k <= 9 {
      Pow2Monotone(k - 1, 8);
    } else {
      Pow2Monotone(9, k - 1);
    }
  }

  lemma OutageSnoc(k: nat)
    requires k > 0
    ensures Total(Outage(k)) == Total(Outage(k - 1)) + SleepAfter(k)
  {
    assert Outage(k)[..k - 1] == Outage(k - 1);
  }

  /** Total sleep over an outage: 2^k - 1 for up to nine failures, then 300 more for each. */
  lemma {:induction false} OutageTotal(k: nat)
    ensures Total(Outage(k)) == if k <= 9 then Pow2(k) - 1 else 511 + 300 * (k - 9)
  {
    if k > 0 {
      OutageTotal(k - 1);
      OutageSnoc(k);
      SleepWithin(k);
      if k > 9 {
        assert k == 10 ==> Total(Outage(k - 1)) == Pow2(9) - 1 == 511 by { NinthPower(); }
      }
    }
  }
}
