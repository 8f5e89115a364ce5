/** The tally loop of `main`: it receives one boolean per candidate URL from the
    status channel, in arrival order, and keeps the OK / Failure counts. */
module Aggregator {

  /** Running counts; `total` is the number of candidate URLs probed. */
  datatype Tally = Tally(ok: nat, fail: nat, total: nat)

  /** The numbers shown by one progress line
      `Testing {done} of {total} servers - OK: {ok}, Failure: {fail}`. */
  datatype Progress = Progress(done: nat, total: nat, ok: nat, fail: nat)

  /** The tally never counts more results than there are URLs. */
  predicate Valid(t: Tally) {
    t.ok + t.fail <= t.total
  }

  /** Every URL has been accounted for. */
  predicate Complete(t: Tally) {
    t.ok + t.fail == t.total
  }

  /** One loop iteration: a received `true` increments OK, anything else Failure. */
  function Record(t: Tally, result: bool): Tally {
    if result then t.(ok := t.ok + 1) else t.(fail := t.fail + 1)
  }

  /** The progress line printed after an iteration. */
  function ProgressOf(t: Tally): Progress {
    Progress(t.ok + t.fail, t.total, t.ok, t.fail)
  }

  /** The tally after the given results have been received, starting from 0 / 0. */
  function TallyOf(received: seq<bool>, total: nat): (t: Tally)
    ensures t.total == total
    ensures t.ok + t.fail == |received|
  {
    if |received| == 0 then Tally(0, 0, total)
    else Record(TallyOf(received[..|received| - 1], total), received[|received| - 1])
  }

  /** OK counts the `true` values received and Failure the `false` ones. */
  lemma {:induction false} TallyCounts(received: seq<bool>, total: nat)
    ensures TallyOf(received, total).ok == multiset(received)[true]
    ensures TallyOf(received, total).fail == multiset(received)[false]
  {
    if |received| > 0 {
      var init := received[..|received| - 1];
      TallyCounts(init, total);
      assert received == init + [received[|received| - 1]];
      assert multiset(received) == multiset(init) + multiset{received[|received| - 1]};
    }
  }

  /** The final tally depends only on how many of each value arrived, not on
      the order in which the probe tasks finished. */
  lemma OrderIndependent(a: seq<bool>, b: seq<bool>, total: nat)
    requires multiset(a) == multiset(b)
    ensures TallyOf(a, total) == TallyOf(b, total)
  {
    TallyCounts(a, total);
    TallyCounts(b, total);
  }

  /** With no candidate URLs nothing is received and the tally is 0 / 0 of 0. */
  lemma EmptyTally()
    ensures TallyOf([], 0) == Tally(0, 0, 0)
    ensures Complete(TallyOf([], 0))
  {
  }

  /** The progress lines printed while receiving `received`, one per value:
      line i reports i + 1 done of `total`, with the trues and falses among the
      first i + 1 values as OK and Failure. */
  function ProgressLines(received: seq<bool>, total: nat): (lines: seq<Progress>)
    ensures |lines| == |received|
    ensures forall i :: 0 <= i < |lines| ==> lines[i] == ProgressOf(TallyOf(received[..i + 1], total))
    ensures forall i :: 0 <= i < |lines| ==>
      lines[i] == Progress(i + 1, total, multiset(received[..i + 1])[true], multiset(received[..i + 1])[false])
  {
    if |received| == 0 then []
    else
      var init := received[..|received| - 1];
      var lines := ProgressLines(init, total) + [ProgressOf(TallyOf(received, total))];
      forall i | 0 <= i < |init|
        ensures lines[i] == ProgressOf(TallyOf(received[..i + 1], total))
      {
        assert received[..i + 1] == init[..i + 1];
      }
      assert received[..|received|] == received;
      forall i | 0 <= i < |lines|
        ensures lines[i] == Progress(i + 1, total, multiset(received[..i + 1])[true], multiset(received[..i + 1])[false])
      {
        TallyCounts(received[..i + 1], total);
      }
      lines
  }

  /** The program's counting loop: it receives exactly `numberOfUrls` values
      from `channel` (the values in the order the channel delivers them) and
      prints a progress line after each. */
  method Aggregate(numberOfUrls: nat, channel: seq<bool>) returns (t: Tally, lines: seq<Progress>)
    requires numberOfUrls <= |channel|
    ensures Valid(t) && Complete(t)
    ensures t.total == numberOfUrls
    ensures t.ok == multiset(channel[..numberOfUrls])[true]
    ensures t.fail == multiset(channel[..numberOfUrls])[false]
    ensures lines == ProgressLines(channel[..numberOfUrls], numberOfUrls)
    ensures forall i :: 0 <= i < |lines| ==> lines[i].done == i + 1 && lines[i].total == numberOfUrls
  {
    var okStatus := 0;
    var failStatus := 0;
    lines := [];
    var i := 0;
    while i < numberOfUrls
      invariant 0 <= i <= numberOfUrls
      invariant okStatus + failStatus == i
      invariant Tally(okStatus, failStatus, numberOfUrls) == TallyOf(channel[..i], numberOfUrls)
      invariant lines == ProgressLines(channel[..i], numberOfUrls)
    {
      if channel[i] {
        okStatus := okStatus + 1;
      } else {
        failStatus := failStatus + 1;
      }
      assert channel[..i + 1][..i] == channel[..i];
      lines := lines + [Progress(okStatus + failStatus, numberOfUrls, okStatus, failStatus)];
      i := i + 1;
    }
    t := Tally(okStatus, failStatus, numberOfUrls);
    TallyCounts(channel[..numberOfUrls], numberOfUrls);
  }
}
