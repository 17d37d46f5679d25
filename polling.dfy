/**
 * src/core/polling.py: the polling loop that runs every fetcher once a minute and retries the
 * ones that came back empty or raised, on a fixed ladder of ten back-off steps.
 *
 * A fetcher's `fetch_data` depends on the network and the clock; here its outcome is an
 * oracle `respond(fetcher, n)` for the fetcher and the manager's running call number `n`.
 */
module Polling {
  import opened Wrappers
  import opened Clock
  import opened Models

  /** A fetcher, by its position in the manager's list. */
  type FetcherId = nat

  /** What awaiting `fetch_data()` gives: a record, or the exception it raised. */
  datatype Outcome = Returned(data: Dict) | Raised(error: Error)

  /** `not result or isinstance(result, Exception)`: an empty record or an exception. */
  predicate Failed(o: Outcome)
  {
    o.Raised? || |o.data| == 0
  }

  type Respond = (FetcherId, nat) -> Outcome

  /** The outcomes of one sequential fetch cycle that starts at call number `start`. */
  function CycleResults(ids: seq<FetcherId>, respond: Respond, start: nat): seq<Outcome>
  {
    seq(|ids|, k requires 0 <= k < |ids| => respond(ids[k], start + k))
  }

  /** `[f for f, r in zip(ids, results) if not r or isinstance(r, Exception)]` */
  function FilterFailed(ids: seq<FetcherId>, results: seq<Outcome>): seq<FetcherId>
  {
    FilterFrom(ids, results, 0)
  }

  /** The filter over the pairs from position `k` on. */
  function FilterFrom(ids: seq<FetcherId>, results: seq<Outcome>, k: nat): seq<FetcherId>
    decreases |ids| - k
  {
    if k >= |ids| || k >= |results| then []
    else (if Failed(results[k]) then [ids[k]] else []) + FilterFrom(ids, results, k + 1)
  }

  /** `a` is `b` with some elements left out, the rest in their order. */
  predicate IsSubseq(a: seq<FetcherId>, b: seq<FetcherId>)
    decreases |b|
  {
    |a| == 0 || (|b| > 0 && ((a[0] == b[0] && IsSubseq(a[1..], b[1..])) || IsSubseq(a, b[1..])))
  }

  lemma {:induction false} IsSubseqTransitive(a: seq<FetcherId>, b: seq<FetcherId>, c: seq<FetcherId>)
    requires IsSubseq(a, b) && IsSubseq(b, c)
    ensures IsSubseq(a, c)
    decreases |c|
  {
    if |a| > 0 {
      if IsSubseq(b, c[1..]) {
        IsSubseqTransitive(a, b, c[1..]);
      } else if a[0] == b[0] && IsSubseq(a[1..], b[1..]) {
        IsSubseqTransitive(a[1..], b[1..], c[1..]);
      } else {
        IsSubseqTransitive(a, b[1..], c[1..]);
      }
    }
  }

  /**
   * The filter keeps exactly the fetchers whose paired result failed, in their order: it is a
   * subsequence of the input, and a fetcher at position `k` is kept when its result failed.
   */
  lemma FilterFailedSpec(ids: seq<FetcherId>, results: seq<Outcome>)
    ensures IsSubseq(FilterFailed(ids, results), ids)
    ensures forall x :: x in FilterFailed(ids, results) <==>
              exists k | 0 <= k < |ids| && k < |results| :: ids[k] == x && Failed(results[k])
  {
    FilterFromSpec(ids, results, 0);
    assert ids[0..] == ids;
  }

  lemma {:induction false} FilterFromSpec(ids: seq<FetcherId>, results: seq<Outcome>, k: nat)
    requires k <= |ids|
    ensures IsSubseq(FilterFrom(ids, results, k), ids[k..])
    ensures forall x :: x in FilterFrom(ids, results, k) <==>
              exists j | k <= j < |ids| && j < |results| :: ids[j] == x && Failed(results[j])
    decreases |ids| - k
  {
    var r := FilterFrom(ids, results, k);
    if k < |ids| && k < |results| {
      var rest := FilterFrom(ids, results, k + 1);
      FilterFromSpec(ids, results, k + 1);
      assert ids[k..][1..] == ids[k + 1..];
      if Failed(results[k]) {
        assert r == [ids[k]] + rest;
        assert r[1..] == rest;
      } else {
        assert r == rest;
      }
      forall x
        ensures x in r <==> exists j | k <= j < |ids| && j < |results| :: ids[j] == x && Failed(results[j])
      {
        if exists j | k <= j < |ids| && j < |results| :: ids[j] == x && Failed(results[j]) {
          var j :| k <= j < |ids| && j < |results| && ids[j] == x && Failed(results[j]);
          assert x in rest || j == k;
        }
      }
    }
  }

  /** The pause before retry round `i` (0-based): 2.0 s rising by 0.3 s, then 4.0 s from round 5. */
  function Backoff(i: nat): real
  {
    if i < 5 then 2.0 + i as real * 0.3 else 4.0
  }

  /** The back-off never shrinks and stays between 2 and 4 seconds; the ten pauses add up to 33 s. */
  lemma BackoffLadder(i: nat, j: nat)
    requires i <= j
    ensures 2.0 <= Backoff(i) <= Backoff(j) <= 4.0
    ensures Backoff(0) + Backoff(1) + Backoff(2) + Backoff(3) + Backoff(4)
            + Backoff(5) + Backoff(6) + Backoff(7) + Backoff(8) + Backoff(9) == 33.0
  {
  }

  /** The pause before a cycle: up to the next minute boundary, plus `interval` seconds. */
  function WaitSeconds(now: DateTime, interval: int): (w: real)
    ensures now.second as real + now.micro as real / 1000000.0 + w == 60.0 + interval as real
    ensures now.Valid() && interval >= 0 ==> w > 0.0
  {
    (60.0 - now.second as real - now.micro as real / 1000000.0) + interval as real
  }

  /** What the retry ladder did: rounds run, their pauses, who still fails, and the call counter. */
  datatype RetryTrace = RetryTrace(rounds: nat, backoffs: seq<real>, stillFailing: seq<FetcherId>, count: nat)

  /**
   * The retry ladder from round `i`, with the call counter at `count` and the pauses so far in
   * `backoffs`: at most ten rounds, stopping as soon as no fetcher fails.
   */
  function Retry(failed: seq<FetcherId>, respond: Respond, count: nat, i: nat, backoffs: seq<real>): RetryTrace
    decreases 10 - i
  {
    if i >= 10 || |failed| == 0 then RetryTrace(i, backoffs, failed, count)
    else
      var results := CycleResults(failed, respond, count);
      Retry(FilterFailed(failed, results), respond, count + |failed|, i + 1, backoffs + [Backoff(i)])
  }

  /** The pauses `bs` are the first `|bs|` steps of the back-off schedule. */
  predicate OnSchedule(bs: seq<real>)
  {
    forall k | 0 <= k < |bs| :: bs[k] == Backoff(k)
  }

  lemma OnScheduleExtend(bs: seq<real>)
    requires OnSchedule(bs)
    ensures OnSchedule(bs + [Backoff(|bs|)])
  {
    var b := bs + [Backoff(|bs|)];
    forall k | 0 <= k < |b|
      ensures b[k] == Backoff(k)
    {
      if k < |bs| { assert b[k] == bs[k]; }
    }
  }

  /**
   * The ladder runs at most ten rounds, one pause per round on the fixed schedule; those still
   * failing are a subsequence of those that failed; it gives up early only when none fails;
   * and every round retries at least one fetcher.
   */
  lemma {:induction false} RetrySpec(failed: seq<FetcherId>, respond: Respond, count: nat, i: nat, backoffs: seq<real>,
                                     t: RetryTrace)
    requires i <= 10 && |backoffs| == i && OnSchedule(backoffs)
    requires t == Retry(failed, respond, count, i, backoffs)
    ensures i <= t.rounds <= 10 && |t.backoffs| == t.rounds && OnSchedule(t.backoffs)
    ensures IsSubseq(t.stillFailing, failed) && (t.rounds < 10 ==> |t.stillFailing| == 0)
    ensures |failed| > 0 && i < 10 ==> t.rounds > i
    ensures count + (t.rounds - i) <= t.count
    decreases 10 - i
  {
    if i < 10 && |failed| > 0 {
      var next := FilterFailed(failed, CycleResults(failed, respond, count));
      var b := backoffs + [Backoff(i)];
      RetryNext(failed, respond, count, i, backoffs, next, count + |failed|, i + 1, b);
      OnScheduleExtend(backoffs);
      RetrySpec(next, respond, count + |failed|, i + 1, b, t);
      FilterFailedSpec(failed, CycleResults(failed, respond, count));
      IsSubseqTransitive(t.stillFailing, next, failed);
    } else {
      IsSubseqReflexive(failed);
    }
  }

  /** One round of the ladder, unfolded: the state after it leads to the same outcome. */
  lemma RetryNext(failed: seq<FetcherId>, respond: Respond, count: nat, i: nat, backoffs: seq<real>,
                  failed': seq<FetcherId>, count': nat, i': nat, backoffs': seq<real>)
    requires i < 10 && |failed| > 0
    requires failed' == FilterFailed(failed, CycleResults(failed, respond, count))
    requires count' == count + |failed| && i' == i + 1 && backoffs' == backoffs + [Backoff(i)]
    ensures Retry(failed, respond, count, i, backoffs) == Retry(failed', respond, count', i', backoffs')
  {
  }

  /** The ladder stops after ten rounds or once no fetcher fails. */
  lemma RetryStop(failed: seq<FetcherId>, respond: Respond, count: nat, i: nat, backoffs: seq<real>)
    requires i >= 10 || |failed| == 0
    ensures Retry(failed, respond, count, i, backoffs) == RetryTrace(i, backoffs, failed, count)
  {
  }

  lemma {:induction false} IsSubseqReflexive(a: seq<FetcherId>)
    ensures IsSubseq(a, a)
    decreases |a|
  {
    if |a| > 0 {
      IsSubseqReflexive(a[1..]);
    }
  }

  /** The retry block of `start_polling`: the ladder from round 0 with no pause taken yet. */
  function Ladder(failed: seq<FetcherId>, respond: Respond, count: nat): RetryTrace
  {
    Retry(failed, respond, count, 0, [])
  }

  /** With nothing failed the ladder does not start. */
  lemma NoRetry(failed: seq<FetcherId>, respond: Respond, count: nat)
    requires |failed| == 0
    ensures Ladder(failed, respond, count) == RetryTrace(0, [], [], count)
  {
  }

  /**
   * The whole ladder: at most ten rounds, those still failing are among the failed fetchers,
   * an early stop means none fails, it runs when some fetcher failed, one call per retry at least.
   */
  lemma LadderSpec(failed: seq<FetcherId>, respond: Respond, count: nat)
    ensures var t := Ladder(failed, respond, count);
      t.rounds <= 10 && |t.backoffs| == t.rounds && OnSchedule(t.backoffs)
      && IsSubseq(t.stillFailing, failed) && (t.rounds < 10 ==> |t.stillFailing| == 0)
      && (|failed| > 0 <==> t.rounds > 0) && count + t.rounds <= t.count
  {
    var t := Retry(failed, respond, count, 0, []);
    RetrySpec(failed, respond, count, 0, [], t);
    if |failed| == 0 {
      NoRetry(failed, respond, count);
    }
  }

  /** One polling cycle: its pause, the first pass's outcomes and the retry ladder. */
  datatype CycleReport = CycleReport(wait: real, results: seq<Outcome>, retry: RetryTrace)

  /** The body of `start_polling`'s loop, from the call counter `count`. */
  function Cycle(fetchers: seq<FetcherId>, interval: int, now: DateTime, respond: Respond, count: nat): CycleReport
  {
    var results := CycleResults(fetchers, respond, count);
    CycleReport(WaitSeconds(now, interval), results, Ladder(FilterFailed(fetchers, results), respond, count + |fetchers|))
  }

  /** A report assembled from a cycle's first pass and its ladder is that cycle's report. */
  lemma CycleOf(fetchers: seq<FetcherId>, interval: int, now: DateTime, respond: Respond, count: nat,
                results: seq<Outcome>, retry: RetryTrace)
    requires results == CycleResults(fetchers, respond, count)
    requires retry == Ladder(FilterFailed(fetchers, results), respond, count + |fetchers|)
    ensures Cycle(fetchers, interval, now, respond, count) == CycleReport(WaitSeconds(now, interval), results, retry)
  {
  }

  /**
   * After a cycle the fetchers still failing are among those polled and in their order, a
   * failure left over means all ten rounds ran, retries happen exactly when some fetcher
   * failed, and every fetcher was called at least once.
   */
  lemma CycleSpec(fetchers: seq<FetcherId>, interval: int, now: DateTime, respond: Respond, count: nat)
    ensures var c := Cycle(fetchers, interval, now, respond, count);
      |c.results| == |fetchers| && c.retry.rounds <= 10
      && IsSubseq(c.retry.stillFailing, fetchers)
      && (|c.retry.stillFailing| > 0 ==> c.retry.rounds == 10)
      && (c.retry.rounds == 0 <==> forall k | 0 <= k < |fetchers| :: !Failed(c.results[k]))
      && count + |fetchers| + c.retry.rounds <= c.retry.count
  {
    var results := CycleResults(fetchers, respond, count);
    var failed := FilterFailed(fetchers, results);
    var t := Ladder(failed, respond, count + |fetchers|);
    LadderSpec(failed, respond, count + |fetchers|);
    FilterFailedSpec(fetchers, results);
    IsSubseqTransitive(t.stillFailing, failed, fetchers);
    if |failed| > 0 {
      assert failed[0] in failed;
    } else {
      forall k | 0 <= k < |fetchers|
        ensures !Failed(results[k])
      {
        assert fetchers[k] !in failed;
      }
    }
  }

  /** `PollingManager` */
  class PollingManager {
    const interval: int
    const fetchers: seq<FetcherId>
    var running: bool
    var fetchCount: nat

    constructor(interval: int, fetchers: seq<FetcherId>)
      ensures this.interval == interval && this.fetchers == fetchers
      ensures !running && fetchCount == 0
    {
      this.interval := interval;
      this.fetchers := fetchers;
      running := false;
      fetchCount := 0;
    }

    /**
     * `_execute_fetch_cycle`: every fetcher once, in order, an exception kept as its result;
     * the counter grows by the number of fetchers.
     */
    method ExecuteFetchCycle(toProcess: seq<FetcherId>, respond: Respond) returns (results: seq<Outcome>)
      modifies this
      ensures results == CycleResults(toProcess, respond, old(fetchCount))
      ensures fetchCount == old(fetchCount) + |toProcess| && running == old(running)
    {
      results := [];
      if |toProcess| == 0 {
        return;
      }
      for i := 0 to |toProcess|
        invariant |results| == i
        invariant forall k | 0 <= k < i :: results[k] == respond(toProcess[k], fetchCount + k)
      {
        results := results + [respond(toProcess[i], fetchCount + i)];
      }
      fetchCount := fetchCount + |toProcess|;
    }

    /** The retry ladder of `start_polling`, for a non-empty list of failed fetchers. */
    method RetryFailed(failed0: seq<FetcherId>, respond: Respond) returns (t: RetryTrace)
      modifies this
      ensures t == Ladder(failed0, respond, old(fetchCount))
      ensures fetchCount == t.count && running == old(running)
    {
      ghost var goal := Ladder(failed0, respond, fetchCount);
      var failed := failed0;
      var backoffs := [];
      var i := 0;
      while i < 10 && |failed| > 0
        invariant 0 <= i <= 10
        invariant Retry(failed, respond, fetchCount, i, backoffs) == goal
        invariant running == old(running)
        decreases 10 - i
      {
        ghost var count := fetchCount;
        ghost var before := backoffs;
        ghost var tried := failed;
        ghost var round := i;
        var sleepTime := Backoff(i);
        backoffs := backoffs + [sleepTime];
        var results := ExecuteFetchCycle(failed, respond);
        failed := FilterFailed(failed, results);
        i := i + 1;
        RetryNext(tried, respond, count, round, before, failed, fetchCount, i, backoffs);
      }
      RetryStop(failed, respond, fetchCount, i, backoffs);
      t := RetryTrace(i, backoffs, failed, fetchCount);
    }

    /** One iteration of `start_polling`'s loop at the clock reading `now`. */
    method PollOnce(now: DateTime, respond: Respond) returns (report: CycleReport)
      modifies this
      ensures report == Cycle(fetchers, interval, now, respond, old(fetchCount))
      ensures fetchCount == report.retry.count && running == old(running)
    {
      ghost var count := fetchCount;
      var waitSeconds := WaitSeconds(now, interval);
      var results := ExecuteFetchCycle(fetchers, respond);
      var failed := FilterFailed(fetchers, results);
      var t := RetryTrace(0, [], [], fetchCount);
      if |failed| > 0 {
        t := RetryFailed(failed, respond);
      } else {
        NoRetry(failed, respond, fetchCount);
      }
      report := CycleReport(waitSeconds, results, t);
      CycleOf(fetchers, interval, now, respond, count, results, t);
    }

    /**
     * `start_polling`, for as many cycles as there are clock readings in `nows`: it sets the
     * running flag, and each cycle starts from the call counter the previous one left.
     */
    method StartPolling(nows: seq<DateTime>, respond: Respond) returns (reports: seq<CycleReport>)
      modifies this
      ensures running && |reports| == |nows|
      ensures |nows| > 0 ==> reports[0] == Cycle(fetchers, interval, nows[0], respond, old(fetchCount))
      ensures forall k | 0 < k < |nows| :: reports[k] == Cycle(fetchers, interval, nows[k], respond, reports[k - 1].retry.count)
      ensures fetchCount == if |nows| == 0 then old(fetchCount) else reports[|nows| - 1].retry.count
    {
      running := true;
      reports := [];
      for k := 0 to |nows|
        invariant running && |reports| == k
        invariant k > 0 ==> reports[0] == Cycle(fetchers, interval, nows[0], respond, old(fetchCount))
        invariant forall j | 0 < j < k :: reports[j] == Cycle(fetchers, interval, nows[j], respond, reports[j - 1].retry.count)
        invariant fetchCount == if k == 0 then old(fetchCount) else reports[k - 1].retry.count
      {
        ghost var count := fetchCount;
        var report := PollOnce(nows[k], respond);
        assert report == Cycle(fetchers, interval, nows[k], respond, count);
        ghost var before := reports;
        reports := reports + [report];
        assert forall j | 0 <= j < k :: reports[j] == before[j];
      }
    }

    /** `stop` */
    method Stop()
      modifies this
      ensures !running && fetchCount == old(fetchCount)
    {
      running := false;
    }

    /** `is_running` */
    function IsRunning(): (r: bool)
      reads this
      ensures r <==> running
    {
      running
    }

    /** `fetch_count` */
    function FetchCount(): (r: nat)
      reads this
      ensures r == fetchCount
    {
      fetchCount
    }
  }
}
