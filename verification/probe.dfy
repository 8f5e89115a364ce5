/** The per-URL reachability probe (`CheckUrl`). The HEAD request itself is
    outside the model: its outcome is an input. */
module Probe {

  /** What the HTTP client returned for one HEAD request. Go's client follows
      redirects (301, 302, 303, 307, 308) before it returns, so `statusCode` is
      the status of the final response; ten redirects in a row (the client
      stops after ten requests), a timeout or any network failure is a
      `TransportError`. */
  datatype ProbeOutcome =
    | TransportError              // the client call returned a non-nil error
    | Response(statusCode: int)   // the final response arrived with this status code

  /** `http.StatusOK`. */
  const StatusOK: int := 200

  /** A URL counts as reachable when a response arrived with status 200. */
  predicate Reachable(o: ProbeOutcome) {
    o.Response? && o.statusCode == StatusOK
  }

  /** The values one probe task sends on the status channel, in order. Each of
      the three exits (error, 200, any other status) sends once and returns. */
  function CheckUrl(o: ProbeOutcome): (sent: seq<bool>)
    ensures |sent| == 1
    ensures sent[0] <==> Reachable(o)
  {
    match o
    case TransportError => [false]
    case Response(code) =>
      if code == StatusOK then [true]
      else [false]
  }

  /** A transport error never counts as a success. */
  lemma TransportErrorFails()
    ensures CheckUrl(TransportError) == [false]
  {
  }

  /** Every final status other than 200 (404, 500, ...) is a failure. */
  lemma NonOkStatusFails(code: int)
    requires code != StatusOK
    ensures CheckUrl(Response(code)) == [false]
  {
  }

  /** All values sent by the probe tasks, task by task in submission order;
      `outcomes[i]` is what the request for the i-th candidate URL returned. */
  function ProbeAll(outcomes: seq<ProbeOutcome>): (sent: seq<bool>)
    ensures |sent| == |outcomes|
    ensures forall i :: 0 <= i < |outcomes| ==> (sent[i] <==> Reachable(outcomes[i]))
  {
    if |outcomes| == 0 then []
    else ProbeAll(outcomes[..|outcomes| - 1]) + CheckUrl(outcomes[|outcomes| - 1])
  }

  /** Number of outcomes that are a 200 response. */
  function CountReachable(outcomes: seq<ProbeOutcome>): (n: nat)
    ensures n <= |outcomes|
  {
    if |outcomes| == 0 then 0
    else CountReachable(outcomes[..|outcomes| - 1]) + (if Reachable(outcomes[|outcomes| - 1]) then 1 else 0)
  }

  /** The channel carries one `true` per reachable URL and one `false` per other URL. */
  lemma {:induction false} ProbeAllCounts(outcomes: seq<ProbeOutcome>)
    ensures multiset(ProbeAll(outcomes))[true] == CountReachable(outcomes)
    ensures multiset(ProbeAll(outcomes))[false] == |outcomes| - CountReachable(outcomes)
  {
    if |outcomes| > 0 {
      var init := outcomes[..|outcomes| - 1];
      ProbeAllCounts(init);
      assert multiset(ProbeAll(outcomes)) == multiset(ProbeAll(init)) + multiset(CheckUrl(outcomes[|outcomes| - 1]));
    }
  }
}
