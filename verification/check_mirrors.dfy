/** The whole run of `main` after the two metadata documents have been fetched:
    build the candidate URLs, probe each once, and tally the answers in the
    order the probe tasks deliver them. */
module CheckMirrors {
  import opened Mirrors
  import opened Probe
  import opened Aggregator

  /** `outcomes[i]` is what the HEAD request for the i-th candidate URL returned;
      `channel` is the order in which the probe tasks' answers reached the
      counting loop, which may be any rearrangement of the tasks' sends. */
  method Run(version: string, mirrors: seq<MirrorEntry>, outcomes: seq<ProbeOutcome>, channel: seq<bool>)
    returns (isoUrls: seq<string>, t: Tally, lines: seq<Progress>)
    requires |outcomes| == |CandidateUrls(mirrors, version)|
    requires multiset(channel) == multiset(ProbeAll(outcomes))
    ensures isoUrls == CandidateUrls(mirrors, version)
    ensures t.total == |isoUrls| == |EligibleIndices(mirrors)|
    ensures t.ok == CountReachable(outcomes)
    ensures t.fail == |isoUrls| - CountReachable(outcomes)
    ensures Complete(t)
    ensures |lines| == |isoUrls|
    ensures |EligibleIndices(mirrors)| == 0 ==> t == Tally(0, 0, 0) && lines == []
  {
    isoUrls := BuildCandidateUrls(mirrors, version);
    var numberOfUrls := |isoUrls|;
    SameLength(channel, ProbeAll(outcomes));
    t, lines := Aggregate(numberOfUrls, channel);
    assert channel[..numberOfUrls] == channel;
    ProbeAllCounts(outcomes);
  }

  /** Rearranging the answers keeps their number. */
  lemma SameLength(a: seq<bool>, b: seq<bool>)
    requires multiset(a) == multiset(b)
    ensures |a| == |b|
  {
    assert |multiset(a)| == |a|;
    assert |multiset(b)| == |b|;
  }
}
