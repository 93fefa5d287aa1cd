/**
 * The launch-progress sequencer of the progress dialog: a fixed, ordered
 * list of launch results that a run resets to pending and then resolves one
 * item at a time, in index order, to success or failure, publishing the
 * percentage of items resolved after every step and a completion flag at
 * the end. The summary (counts, overall status, button states) is derived
 * from that state.
 *
 * The random coin flip of each step is an injected `willFail` flag and the
 * random delay before each step is left out.
 */
module LaunchProgressModal {
  import opened Seqs

  datatype Status = Success | Failed | Pending

  /** One ad being launched; `error` is present only once its launch failed. */
  datatype LaunchResult = LaunchResult(id: string, name: string, status: Status, error: Option<string>)

  /**
   * The campaign-level status shown in the dialog title: `Launching`,
   * `AllLaunched`, `NoneLaunched` and `Partial` stand for "launching",
   * "success", "failed" and "partial".
   */
  datatype OverallStatus = Launching | AllLaunched | NoneLaunched | Partial

  /** The fixed message attached to a failed item. */
  const NetworkTimeout: string := "Network timeout - please try again"

  /** The five results the dialog starts with. */
  const InitialResults: seq<LaunchResult> := [
    LaunchResult("1", "Summer Campaign - Video Ad", Pending, None),
    LaunchResult("2", "Summer Campaign - Image Ad", Pending, None),
    LaunchResult("3", "Black Friday - Carousel Ad", Pending, None),
    LaunchResult("4", "New Product - Story Ad", Pending, None),
    LaunchResult("5", "Testimonial - Video Ad", Pending, None)
  ]

  // ---------------------------------------------------------------------
  // One item's transitions
  // ---------------------------------------------------------------------

  /** `{ ...r, status: "pending" }`: only the status is overwritten. */
  function ResetResult(r: LaunchResult): (p: LaunchResult)
    ensures p.status == Pending
    ensures p.id == r.id && p.name == r.name && p.error == r.error
  {
    r.(status := Pending)
  }

  /** The outcome of one launch step for one item, given the injected coin flip. */
  function Resolve(r: LaunchResult, willFail: bool): (q: LaunchResult)
    ensures q.id == r.id && q.name == r.name
    ensures q.status != Pending
    ensures q.status == Failed <==> willFail
    ensures q.status == Failed <==> q.error == Some(NetworkTimeout)
    ensures q.status == Success <==> q.error == None
  {
    r.(status := if willFail then Failed else Success,
       error := if willFail then Some(NetworkTimeout) else None)
  }

  // ---------------------------------------------------------------------
  // Summary derived from the results
  // ---------------------------------------------------------------------

  /** The status of every item, in order. */
  function Statuses(rs: seq<LaunchResult>): (ss: seq<Status>)
    ensures |ss| == |rs|
    ensures forall k :: 0 <= k < |rs| ==> ss[k] == rs[k].status
  {
    seq(|rs|, k requires 0 <= k < |rs| => rs[k].status)
  }

  /** `results.filter(r => r.status === s).length`: how many times `s` occurs among the statuses. */
  function Count(rs: seq<LaunchResult>, s: Status): (c: nat)
    ensures c <= |rs|
    ensures c == multiset(Statuses(rs))[s]
  {
    if rs == [] then 0
    else
      assert Statuses(rs) == [rs[0].status] + Statuses(rs[1..]);
      (if rs[0].status == s then 1 else 0) + Count(rs[1..], s)
  }

  /** `successCount`: zero exactly when no item succeeded. */
  function SuccessCount(rs: seq<LaunchResult>): (c: nat)
    ensures c <= |rs|
    ensures c == 0 <==> forall k :: 0 <= k < |rs| ==> rs[k].status != Success
  {
    CountZeroIff(rs, Success);
    Count(rs, Success)
  }

  /** `failedCount`: zero exactly when no item failed. */
  function FailedCount(rs: seq<LaunchResult>): (c: nat)
    ensures c <= |rs|
    ensures c == 0 <==> forall k :: 0 <= k < |rs| ==> rs[k].status != Failed
  {
    CountZeroIff(rs, Failed);
    Count(rs, Failed)
  }

  /** `pendingCount`: zero exactly when no item is pending. */
  function PendingCount(rs: seq<LaunchResult>): (c: nat)
    ensures c <= |rs|
    ensures c == 0 <==> forall k :: 0 <= k < |rs| ==> rs[k].status != Pending
  {
    CountZeroIff(rs, Pending);
    Count(rs, Pending)
  }

  /** No item has status `s` exactly when its count is zero. */
  lemma {:induction false} CountZeroIff(rs: seq<LaunchResult>, s: Status)
    ensures Count(rs, s) == 0 <==> forall k :: 0 <= k < |rs| ==> rs[k].status != s
  {
    if rs != [] {
      CountZeroIff(rs[1..], s);
      assert forall k :: 1 <= k < |rs| ==> rs[k] == rs[1..][k - 1];
    }
  }

  /** Every item has status `s` exactly when its count is the length. */
  lemma {:induction false} CountFullIff(rs: seq<LaunchResult>, s: Status)
    ensures Count(rs, s) == |rs| <==> forall k :: 0 <= k < |rs| ==> rs[k].status == s
  {
    if rs != [] {
      CountFullIff(rs[1..], s);
      assert forall k :: 1 <= k < |rs| ==> rs[k] == rs[1..][k - 1];
    }
  }

  /** Every status falls in exactly one bucket, so the three counts add up to the length. */
  lemma {:induction false} CountsPartition(rs: seq<LaunchResult>)
    ensures SuccessCount(rs) + FailedCount(rs) + PendingCount(rs) == |rs|
  {
    if rs != [] {
      CountsPartition(rs[1..]);
    }
  }

  /** `getOverallStatus`. */
  function GetOverallStatus(isComplete: bool, rs: seq<LaunchResult>): (o: OverallStatus)
    ensures o == Launching <==> !isComplete
  {
    if !isComplete then Launching
    else if FailedCount(rs) == 0 then AllLaunched
    else if SuccessCount(rs) == 0 then NoneLaunched
    else Partial
  }

  /**
   * Once every item is resolved, the overall status says which of them
   * succeeded: all of them, none of them (at least one item), or some of each.
   */
  lemma OverallStatusOfResolved(rs: seq<LaunchResult>)
    requires forall k :: 0 <= k < |rs| ==> rs[k].status != Pending
    ensures GetOverallStatus(true, rs) == AllLaunched
        <==> forall k :: 0 <= k < |rs| ==> rs[k].status == Success
    ensures GetOverallStatus(true, rs) == NoneLaunched
        <==> |rs| > 0 && forall k :: 0 <= k < |rs| ==> rs[k].status == Failed
    ensures GetOverallStatus(true, rs) == Partial
        <==> ((exists j :: 0 <= j < |rs| && rs[j].status == Success)
              && (exists k :: 0 <= k < |rs| && rs[k].status == Failed))
  {
    CountZeroIff(rs, Failed);
    CountZeroIff(rs, Success);
    CountZeroIff(rs, Pending);
    CountsPartition(rs);
  }

  /** The Done/Cancel button is disabled while the run is open and some item is still pending. */
  function CloseDisabled(isComplete: bool, rs: seq<LaunchResult>): (disabled: bool)
    ensures disabled <==> !isComplete && exists k :: 0 <= k < |rs| && rs[k].status == Pending
  {
    CountZeroIff(rs, Pending);
    !isComplete && PendingCount(rs) > 0
  }

  /** "Retry Failed" is shown once the run is complete and some item failed. */
  function RetryFailedShown(isComplete: bool, rs: seq<LaunchResult>): (shown: bool)
    ensures shown <==> isComplete && exists k :: 0 <= k < |rs| && rs[k].status == Failed
  {
    CountZeroIff(rs, Failed);
    FailedCount(rs) > 0 && isComplete
  }

  // ---------------------------------------------------------------------
  // Progress and the states a run goes through
  // ---------------------------------------------------------------------

  /** `(done / n) * 100`, over the reals. */
  function Percent(done: nat, n: nat): (p: real)
    requires n > 0
    ensures done <= n ==> 0.0 <= p <= 100.0
    ensures p == 100.0 <==> done == n
  {
    (done as real / n as real) * 100.0
  }

  /** Progress grows strictly with every resolved item, stays within 0..100 and reaches 100 at the end. */
  lemma PercentBounds(d1: nat, d2: nat, n: nat)
    requires 0 < n && d1 < d2 <= n
    ensures 0.0 <= Percent(d1, n) < Percent(d2, n) <= 100.0
    ensures Percent(n, n) == 100.0
  {
    var r := n as real;
    var gap := d2 as real - d1 as real;
    assert gap / r > 0.0;
    assert d2 as real / r - d1 as real / r == gap / r;
  }

  /**
   * The results after the first `done` steps of a run that started from `rs`:
   * items before `done` resolved with their injected outcome, the rest reset.
   */
  function Snapshot(rs: seq<LaunchResult>, willFail: seq<bool>, done: nat): (s: seq<LaunchResult>)
    requires |willFail| == |rs| && done <= |rs|
    ensures |s| == |rs|
    ensures forall k :: 0 <= k < |rs| ==>
      && s[k].id == rs[k].id && s[k].name == rs[k].name
      && (s[k].status == Pending <==> done <= k)
      && (k < done ==> (s[k].status == Failed <==> willFail[k]))
      && (k < done ==> (s[k].error == Some(NetworkTimeout) <==> willFail[k]) && (s[k].error == None <==> !willFail[k]))
      && (done <= k ==> s[k].error == rs[k].error)
  {
    seq(|rs|, j requires 0 <= j < |rs| =>
      if j < done then Resolve(rs[j], willFail[j]) else ResetResult(rs[j]))
  }

  /** The results once a run from `rs` has resolved every item. */
  function Launched(rs: seq<LaunchResult>, willFail: seq<bool>): (s: seq<LaunchResult>)
    requires |willFail| == |rs|
    ensures |s| == |rs|
    ensures s == Snapshot(rs, willFail, |rs|)
    ensures forall k :: 0 <= k < |rs| ==> s[k].status != Pending && (s[k].status == Failed <==> willFail[k])
  {
    seq(|rs|, j requires 0 <= j < |rs| => Resolve(rs[j], willFail[j]))
  }

  /** During a run, the pending count is the number of steps still to come. */
  lemma {:induction false} SnapshotPending(rs: seq<LaunchResult>, willFail: seq<bool>, done: nat)
    requires |willFail| == |rs| && done <= |rs|
    ensures PendingCount(Snapshot(rs, willFail, done)) == |rs| - done
  {
    if rs != [] {
      var s := Snapshot(rs, willFail, done);
      var tail := Snapshot(rs[1..], willFail[1..], if done == 0 then 0 else done - 1);
      assert s[1..] == tail;
      SnapshotPending(rs[1..], willFail[1..], if done == 0 then 0 else done - 1);
    }
  }

  /** A finished run has as many failures as injected failing flips, and every other item succeeded. */
  lemma {:induction false} LaunchedCounts(rs: seq<LaunchResult>, willFail: seq<bool>)
    requires |willFail| == |rs|
    ensures FailedCount(Launched(rs, willFail)) == multiset(willFail)[true]
    ensures SuccessCount(Launched(rs, willFail)) == |rs| - multiset(willFail)[true]
  {
    if rs != [] {
      assert Launched(rs, willFail)[1..] == Launched(rs[1..], willFail[1..]);
      assert willFail == [willFail[0]] + willFail[1..];
      LaunchedCounts(rs[1..], willFail[1..]);
    }
  }

  /** The Cancel button stays disabled until the last step of a run. */
  lemma CloseDisabledDuringRun(rs: seq<LaunchResult>, willFail: seq<bool>, done: nat)
    requires |willFail| == |rs| && done <= |rs|
    ensures CloseDisabled(false, Snapshot(rs, willFail, done)) <==> done < |rs|
  {
    SnapshotPending(rs, willFail, done);
  }

  /**
   * What a finished run leaves behind: every item resolved with its own
   * outcome, ids and names kept, the error set exactly on the failed ones,
   * nothing pending, and "Retry Failed" offered exactly when some launch failed.
   */
  lemma LaunchedResolvesEveryItem(rs: seq<LaunchResult>, willFail: seq<bool>)
    requires |willFail| == |rs|
    ensures var s := Launched(rs, willFail);
      && PendingCount(s) == 0
      && SuccessCount(s) + FailedCount(s) == |rs|
      && (forall k :: 0 <= k < |rs| ==>
            && s[k].id == rs[k].id && s[k].name == rs[k].name
            && (s[k].status == Failed <==> willFail[k])
            && (s[k].status == Success <==> !willFail[k])
            && (s[k].error == Some(NetworkTimeout) <==> willFail[k])
            && (s[k].error == None <==> !willFail[k]))
      && (RetryFailedShown(true, s) <==> true in willFail)
      && !CloseDisabled(true, s)
  {
    var s := Launched(rs, willFail);
    CountZeroIff(s, Pending);
    CountsPartition(s);
    if true in willFail {
      var k :| 0 <= k < |willFail| && willFail[k];
      assert s[k].status == Failed;
    }
  }

  // ---------------------------------------------------------------------
  // The dialog's state and the run itself
  // ---------------------------------------------------------------------

  class Sequencer {
    var results: seq<LaunchResult>
    var progress: real
    var isComplete: bool

    /** Progress is a percentage, and a completed run has no pending item. */
    ghost predicate Valid()
      reads this
    {
      && 0.0 <= progress <= 100.0
      && (isComplete ==> PendingCount(results) == 0)
    }

    constructor (initial: seq<LaunchResult>)
      ensures Valid()
      ensures results == initial && progress == 0.0 && !isComplete
    {
      results := initial;
      progress := 0.0;
      isComplete := false;
    }

    /** The reset at the start of a run: progress 0, not complete, every item pending. */
    method Reset()
      modifies this
      ensures Valid()
      ensures progress == 0.0 && !isComplete
      ensures |results| == |old(results)|
      ensures forall k :: 0 <= k < |results| ==> results[k] == ResetResult(old(results)[k])
    {
      var prev := results;
      progress := 0.0;
      isComplete := false;
      results := seq(|prev|, k requires 0 <= k < |prev| => ResetResult(prev[k]));
    }

    /** Step `i` of a run: resolve item `i` alone and publish `(i+1)/N * 100`. */
    method ResolveStep(i: nat, willFail: bool)
      requires Valid() && i < |results|
      modifies this
      ensures Valid()
      ensures results == old(results)[i := Resolve(old(results)[i], willFail)]
      ensures forall k :: 0 <= k < |results| && k != i ==> results[k] == old(results)[k]
      ensures progress == Percent(i + 1, |results|)
      ensures isComplete == old(isComplete)
    {
      results := results[i := Resolve(results[i], willFail)];
      progress := Percent(i + 1, |results|);
    }

    /**
     * `simulate`: reset, then resolve every item in index order with the
     * injected outcomes, then mark the run complete. The ghost outputs record
     * the results and the progress published after each step.
     */
    method Simulate(willFail: seq<bool>) returns (ghost steps: seq<seq<LaunchResult>>, ghost published: seq<real>)
      requires |willFail| == |results|
      modifies this
      ensures Valid()
      ensures results == Launched(old(results), willFail)
      ensures isComplete
      ensures progress == if |results| == 0 then 0.0 else 100.0
      ensures |steps| == |published| == |results|
      ensures forall k :: 0 <= k < |results| ==>
        steps[k] == Snapshot(old(results), willFail, k + 1) && published[k] == Percent(k + 1, |results|)
      ensures forall j, k :: 0 <= j < k < |published| ==> published[j] < published[k]
    {
      ghost var initial := results;
      Reset();
      assert results == Snapshot(initial, willFail, 0);
      steps, published := [], [];
      var n := |results|;
      for i := 0 to n
        invariant |results| == n && !isComplete
        invariant results == Snapshot(initial, willFail, i)
        invariant progress == if i == 0 then 0.0 else Percent(i, n)
        invariant Valid()
        invariant |steps| == |published| == i
        invariant forall k :: 0 <= k < i ==>
          steps[k] == Snapshot(initial, willFail, k + 1) && published[k] == Percent(k + 1, n)
      {
        ResolveStep(i, willFail[i]);
        assert results == Snapshot(initial, willFail, i + 1);
        steps, published := steps + [results], published + [progress];
      }
      assert results == Launched(initial, willFail);
      isComplete := true;
      forall j, k | 0 <= j < k < |published| ensures published[j] < published[k] {
        PercentBounds(j + 1, k + 1, n);
      }
    }
  }

  /**
   * Any completed dialog state has every item resolved, so Done is enabled
   * and the overall status reads off the items as for a finished run.
   */
  lemma CompletedDialogIsResolved(d: Sequencer)
    requires d.Valid() && d.isComplete
    ensures forall k :: 0 <= k < |d.results| ==> d.results[k].status != Pending
    ensures !CloseDisabled(d.isComplete, d.results)
    ensures GetOverallStatus(d.isComplete, d.results) == AllLaunched
        <==> forall k :: 0 <= k < |d.results| ==> d.results[k].status == Success
    ensures GetOverallStatus(d.isComplete, d.results) == NoneLaunched
        <==> |d.results| > 0 && forall k :: 0 <= k < |d.results| ==> d.results[k].status == Failed
    ensures GetOverallStatus(d.isComplete, d.results) == Partial
        <==> ((exists j :: 0 <= j < |d.results| && d.results[j].status == Success)
              && (exists k :: 0 <= k < |d.results| && d.results[k].status == Failed))
  {
    OverallStatusOfResolved(d.results);
  }

  // ---------------------------------------------------------------------
  // Scenarios over the dialog's five results
  // ---------------------------------------------------------------------

  lemma AllSucceed()
    ensures var s := Launched(InitialResults, [false, false, false, false, false]);
      GetOverallStatus(true, s) == AllLaunched && SuccessCount(s) == 5 && FailedCount(s) == 0
  {
    LaunchedCounts(InitialResults, [false, false, false, false, false]);
  }

  lemma AllFail()
    ensures var s := Launched(InitialResults, [true, true, true, true, true]);
      GetOverallStatus(true, s) == NoneLaunched && SuccessCount(s) == 0 && FailedCount(s) == 5
  {
    LaunchedCounts(InitialResults, [true, true, true, true, true]);
  }

  lemma TwoFailThreeSucceed()
    ensures var s := Launched(InitialResults, [false, true, false, true, false]);
      && GetOverallStatus(true, s) == Partial && SuccessCount(s) == 3 && FailedCount(s) == 2
      && s[1].error == Some(NetworkTimeout) && s[3].error == Some(NetworkTimeout)
      && s[0].error == None && s[2].error == None && s[4].error == None
  {
    LaunchedCounts(InitialResults, [false, true, false, true, false]);
  }
}
