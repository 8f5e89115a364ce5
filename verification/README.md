# checkMirrors, modelled in Dafny

`checkMirrors` is a small Go tool of archiso-manager. It reads the latest Arch Linux
release version and the mirror-status list. It then builds the URL of the installation
image on every eligible mirror and sends one concurrent HEAD request per URL. It counts
how many mirrors answered `200 OK` and how many did not, and prints a running progress
line. This project models the three sequential parts of that run as pure Dafny and proves
their properties:

- **URL builder** (`Mirrors`, `mirrors.dfy`). A mirror is eligible when its protocol is
  exactly `"https"` and it is both active and hosting ISOs. Each eligible mirror yields
  `{url}iso/{version}/archlinux-{version}-x86_64.iso`, in mirror-list order.
- **Probe classification** (`Probe`, `probe.dfy`). The HTTP client's answer is an input
  (`TransportError` or `Response(statusCode)`). `CheckUrl` is modelled as the sequence of
  values the probe task sends on the status channel.
- **Tally loop** (`Aggregator`, `aggregator.dfy`). This is the loop of `main` that receives
  one boolean per URL and keeps the OK and Failure counts. It also yields the numbers each
  progress line would print.
- **The run** (`CheckMirrors`, `check_mirrors.dfy`). It composes the three parts. The
  goroutines may finish in any order, so the order in which answers reach the loop is an
  input. That order may be any rearrangement, as a multiset, of the answers the tasks send.

`wrappers.dfy` holds the `Option` type used by `Mirrors.ParseVersion`. This function is the
inverse of the URL template. It exists only to state that the template loses no
information.

A mirror is eligible when `Protocol == "https" && Active && Isos` (checkMirrors/main.go:37).
A probe succeeds when the client returns no error and the numeric `StatusCode` equals
`http.StatusOK`, which is 200 (checkMirrors/main.go:71-77). Go's HTTP client follows
redirects before it returns. The status code in the model is therefore that of the final
response, and ten redirects in a row are a transport error (the client stops after ten requests).

## Model

| member | source | states |
|---|---|---|
| Mirrors.Eligible | checkMirrors/main.go:37 | definition of eligibility: the protocol is exactly `"https"`, and the mirror is active and hosts ISOs |
| Mirrors.CandidateUrl | checkMirrors/main.go:38 | definition of the `Sprintf` template `{Url}iso/{version}/archlinux-{version}-x86_64.iso` |
| Mirrors.EligibleIndices | checkMirrors/main.go:36-37 | the positions of the kept mirrors are strictly increasing and in range; every kept position is eligible, and every eligible position is kept |
| Mirrors.SingleMirror | checkMirrors/main.go:37-38 | a single mirror yields its one URL exactly when it is https, active and hosts ISOs, and yields nothing exactly when any of the three fails |
| Mirrors.CandidateUrls | checkMirrors/main.go:35-40 | the builder never yields more URLs than there are mirrors |
| Mirrors.CandidateUrlsAppend | checkMirrors/main.go:35-40 | building over a concatenation of two mirror lists gives the concatenation of their URL lists, so the input order is kept and no entry is duplicated or dropped |
| Mirrors.CandidateUrlsAreEligibleImage | checkMirrors/main.go:35-40 | the URL list is exactly the eligible mirrors, mapped through the template, in their original relative order |
| Mirrors.BuildCandidateUrls | checkMirrors/main.go:35-40 | the append-in-a-range-loop yields the functional URL list, with one URL per eligible mirror |
| Mirrors.CandidateUrlLayout | checkMirrors/main.go:38 | a URL is the base, then `iso/`, then the version, then `/archlinux-`, then the version again, then `-x86_64.iso`, at fixed offsets and with the stated length |
| Mirrors.ParseVersionRoundTrip | checkMirrors/main.go:38 | the version can be read back from every URL the template builds |
| Mirrors.ParseVersionExact | checkMirrors/main.go:38 | reading the version back from a URL gives a version exactly when the template builds that URL from it on the given base |
| Mirrors.CandidateUrlInjective | checkMirrors/main.go:38 | on one mirror, two different versions never produce the same URL |
| Mirrors.CandidateUrlExample | checkMirrors/main.go:38 | base `https://mirror.example/` with version `2024.06.01` gives `https://mirror.example/iso/2024.06.01/archlinux-2024.06.01-x86_64.iso` |
| Probe.Reachable | checkMirrors/main.go:71-77 | definition of success: the client returned a response, not an error, and its final status code is 200 |
| Probe.CheckUrl | checkMirrors/main.go:70-82 | every exit of the probe sends exactly one value, and that value is true exactly when there was no transport error and the status is 200 |
| Probe.TransportErrorFails | checkMirrors/main.go:70-74 | a client error sends false |
| Probe.NonOkStatusFails | checkMirrors/main.go:77-82 | any final status other than 200 (404, 500, ...) sends false; redirects have already been followed by the client |
| Probe.ProbeAll | checkMirrors/main.go:42-45 | one probe task per URL puts exactly one value per URL on the channel; the i-th value is true exactly when the i-th URL answered 200 |
| Probe.ProbeAllCounts | checkMirrors/main.go:42-45 | the channel carries as many trues as there are URLs that answered 200, and one false for every other URL |
| Aggregator.Record | checkMirrors/main.go:51-55 | definition of one iteration: a received true increments OK, and a received false increments Failure |
| Aggregator.ProgressOf | checkMirrors/main.go:56 | definition of the printed numbers: done = OK + Failure, then total, OK and Failure |
| Aggregator.TallyOf | checkMirrors/main.go:47-55 | after i values have been received, OK + Failure == i, and the total stays the number of URLs |
| Aggregator.TallyCounts | checkMirrors/main.go:51-55 | OK is the number of trues received and Failure the number of falses |
| Aggregator.OrderIndependent | checkMirrors/main.go:50-55 | two arrival orders of the same answers give the same final tally |
| Aggregator.EmptyTally | checkMirrors/main.go:47-50 | with no URLs the tally is 0 OK, 0 Failure, 0 total, and it is complete |
| Aggregator.ProgressLines | checkMirrors/main.go:50-56 | there is one progress line per value received; line i shows done = i+1 of total, with OK the number of trues and Failure the number of falses among the first i+1 values |
| Aggregator.Aggregate | checkMirrors/main.go:47-57 | the loop receives exactly numberOfUrls values and ends with OK + Failure == total == numberOfUrls; OK and Failure count the trues and falses received; progress line i shows done = i+1 of numberOfUrls |
| CheckMirrors.Run | checkMirrors/main.go:35-57 | for any arrival order: total is the number of eligible mirrors, OK is the number of probes that answered 200, Failure is the rest, and the tally is complete; with no eligible mirror the tally is 0/0/0 and no progress line is produced |

## Left out

- `fetchLatestVersion` and `fetchMirrorUrls` (checkMirrors/main.go:85-121) are left out. They are HTTP GETs with JSON decoding that end the process with `log.Fatal` on any error. The version string and the mirror list are inputs to the model instead.
- The goroutines and the unbuffered channel (checkMirrors/main.go:42-45) are left out. Their effect is modelled only as the per-task sends (`Probe.ProbeAll`) and as an arbitrary arrival order of those sends (the `channel` input of `CheckMirrors.Run`).
- The HEAD request itself is left out: the HTTP transport clone, the disabled keep-alives, `MaxConnsPerHost = 1`, the 20-second timeout (checkMirrors/main.go:62-70) and `response.Body.Close()` (checkMirrors/main.go:75). This is network and library behaviour. Its result enters the model as a `ProbeOutcome`. The client's redirect following is not modelled: `statusCode` is the status of the final response after redirects. A timeout, a network failure, or ten redirects in a row (the client stops after ten requests) is a `TransportError`.
- The terminal output is left out: the "Latest version" line, the progress line, the final newline (checkMirrors/main.go:32, 56, 58) and discarding log output (checkMirrors/main.go:29). Only the numbers a progress line would print are modelled (`Aggregator.Progress`).
- Go's fixed-width `int` counters are modelled as unbounded naturals. Each counter is bounded by the length of a slice, so it cannot overflow.
