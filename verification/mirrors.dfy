/** The URL builder of checkMirrors: which entries of the mirror-status list are
    probed, and which image URL is probed on each of them. */
module Mirrors {
  import opened Wrappers

  /** One entry of the mirror-status document (`mirrorStatus` in the program). */
  datatype MirrorEntry = MirrorEntry(protocol: string, url: string, active: bool, isos: bool)

  const SecureProtocol: string := "https"

  /** The three pieces of text the URL template puts around the version. */
  const IsoDir: string := "iso/"
  const ImagePrefix: string := "/archlinux-"
  const ImageSuffix: string := "-x86_64.iso"

  /** Number of characters the template adds to the base URL and the two versions. */
  const TemplateLength: nat := |IsoDir| + |ImagePrefix| + |ImageSuffix|

  /** A mirror is probed only if it is served over https, is active and hosts images. */
  predicate Eligible(m: MirrorEntry) {
    m.protocol == SecureProtocol && m.active && m.isos
  }

  /** The image URL `{base}iso/{version}/archlinux-{version}-x86_64.iso`. */
  function CandidateUrl(base: string, version: string): string {
    base + IsoDir + version + ImagePrefix + version + ImageSuffix
  }

  /** Recovers the version from a URL built on `base`; None when `url` is not a
      candidate URL of `base` for any version (see ParseVersionExact). */
  function ParseVersion(base: string, url: string): Option<string> {
    if |url| < |base| + TemplateLength || (|url| - |base| - TemplateLength) % 2 != 0 then None
    else
      var n := (|url| - |base| - TemplateLength) / 2;
      var start := |base| + |IsoDir|;
      var v := url[start .. start + n];
      if CandidateUrl(base, v) == url then Some(v) else None
  }

  /** Layout of a candidate URL: the base, then the version at two fixed offsets. */
  lemma CandidateUrlLayout(base: string, version: string)
    ensures var r := CandidateUrl(base, version);
      && |r| == |base| + 2 * |version| + TemplateLength
      && r[..|base|] == base
      && r[|base| .. |base| + |IsoDir|] == IsoDir
      && r[|base| + |IsoDir| .. |base| + |IsoDir| + |version|] == version
      && r[|base| + |IsoDir| + |version| + |ImagePrefix| .. |base| + |IsoDir| + 2 * |version| + |ImagePrefix|] == version
      && r[|r| - |ImageSuffix| ..] == ImageSuffix
  {
  }

  /** The version can be read back from every candidate URL. */
  lemma ParseVersionRoundTrip(base: string, version: string)
    ensures ParseVersion(base, CandidateUrl(base, version)) == Some(version)
  {
    CandidateUrlLayout(base, version);
  }

  /** ParseVersion answers exactly the versions whose URL on `base` is `url`:
      it never returns a wrong version and never misses a right one. */
  lemma ParseVersionExact(base: string, url: string, version: string)
    ensures ParseVersion(base, url) == Some(version) <==> CandidateUrl(base, version) == url
  {
    if CandidateUrl(base, version) == url {
      ParseVersionRoundTrip(base, version);
    }
  }

  /** Different versions give different URLs on the same mirror. */
  lemma CandidateUrlInjective(base: string, v1: string, v2: string)
    requires CandidateUrl(base, v1) == CandidateUrl(base, v2)
    ensures v1 == v2
  {
    ParseVersionRoundTrip(base, v1);
    ParseVersionRoundTrip(base, v2);
  }

  /** A worked example of the template. */
  lemma CandidateUrlExample()
    ensures CandidateUrl("https://mirror.example/", "2024.06.01")
         == "https://mirror.example/iso/2024.06.01/archlinux-2024.06.01-x86_64.iso"
  {
    var s1 := "https://mirror.example/" + IsoDir;
    assert s1 == "https://mirror.example/iso/";
    var s2 := s1 + "2024.06.01";
    assert s2 == "https://mirror.example/iso/2024.06.01";
    var s3 := s2 + ImagePrefix;
    assert s3 == "https://mirror.example/iso/2024.06.01/archlinux-";
    var s4 := s3 + "2024.06.01";
    assert s4 == "https://mirror.example/iso/2024.06.01/archlinux-2024.06.01";
    assert s4 + ImageSuffix == "https://mirror.example/iso/2024.06.01/archlinux-2024.06.01-x86_64.iso";
  }

  /** The URL contributed by one mirror: one URL if eligible, none otherwise. */
  function UrlsOf(m: MirrorEntry, version: string): seq<string> {
    if Eligible(m) then [CandidateUrl(m.url, version)] else []
  }

  /** The candidate list, built as the program's loop builds it: walking the
      mirror list in order and appending the URL of each eligible entry. */
  function CandidateUrls(mirrors: seq<MirrorEntry>, version: string): (urls: seq<string>)
    ensures |urls| <= |mirrors|
  {
    if |mirrors| == 0 then []
    else CandidateUrls(mirrors[..|mirrors| - 1], version) + UrlsOf(mirrors[|mirrors| - 1], version)
  }

  /** Positions of the eligible entries, in increasing order. */
  function EligibleIndices(mirrors: seq<MirrorEntry>): (idx: seq<nat>)
    ensures |idx| <= |mirrors|
    ensures forall k :: 0 <= k < |idx| ==> idx[k] < |mirrors| && Eligible(mirrors[idx[k]])
    ensures forall k, l :: 0 <= k < l < |idx| ==> idx[k] < idx[l]
    ensures forall i :: 0 <= i < |mirrors| && Eligible(mirrors[i]) ==> i in idx
  {
    if |mirrors| == 0 then []
    else
      var last := |mirrors| - 1;
      var prefix := EligibleIndices(mirrors[..last]);
      assert forall k :: 0 <= k < |prefix| ==> mirrors[..last][prefix[k]] == mirrors[prefix[k]];
      prefix + (if Eligible(mirrors[last]) then [last] else [])
  }

  /** A single mirror yields a URL exactly when it is eligible. */
  lemma SingleMirror(m: MirrorEntry, version: string)
    ensures Eligible(m) <==> CandidateUrls([m], version) == [CandidateUrl(m.url, version)]
    ensures !Eligible(m) <==> CandidateUrls([m], version) == []
  {
  }

  /** Building over two consecutive parts of the list concatenates their URLs:
      the builder never reorders, duplicates or drops eligible entries. */
  lemma {:induction false} CandidateUrlsAppend(a: seq<MirrorEntry>, b: seq<MirrorEntry>, version: string)
    ensures CandidateUrls(a + b, version) == CandidateUrls(a, version) + CandidateUrls(b, version)
    decreases |b|
  {
    if |b| == 0 {
      assert a + b == a;
    } else {
      var b' := b[..|b| - 1];
      assert (a + b)[..|a + b| - 1] == a + b';
      assert (a + b)[|a + b| - 1] == b[|b| - 1];
      CandidateUrlsAppend(a, b', version);
    }
  }

  /** The candidate list is exactly the eligible entries, mapped to their URLs,
      in their original relative order. */
  lemma {:induction false} CandidateUrlsAreEligibleImage(mirrors: seq<MirrorEntry>, version: string)
    ensures var urls := CandidateUrls(mirrors, version);
      var idx := EligibleIndices(mirrors);
      && |urls| == |idx|
      && forall k :: 0 <= k < |urls| ==> urls[k] == CandidateUrl(mirrors[idx[k]].url, version)
  {
    if |mirrors| > 0 {
      var last := |mirrors| - 1;
      var prefix := mirrors[..last];
      CandidateUrlsAreEligibleImage(prefix, version);
      var idx := EligibleIndices(prefix);
      assert forall k :: 0 <= k < |idx| ==> prefix[idx[k]] == mirrors[idx[k]];
    }
  }

  /** Go's loop over the mirror list (append inside a range loop). */
  method BuildCandidateUrls(mirrors: seq<MirrorEntry>, version: string) returns (isoUrls: seq<string>)
    ensures isoUrls == CandidateUrls(mirrors, version)
    ensures |isoUrls| == |EligibleIndices(mirrors)|
  {
    isoUrls := [];
    var i := 0;
    while i < |mirrors|
      invariant 0 <= i <= |mirrors|
      invariant isoUrls == CandidateUrls(mirrors[..i], version)
    {
      var s := mirrors[i];
      if s.protocol == "https" && s.active && s.isos {
        isoUrls := isoUrls + [CandidateUrl(s.url, version)];
      }
      assert mirrors[..i + 1][..i] == mirrors[..i];
      i := i + 1;
    }
    assert mirrors[..i] == mirrors;
    CandidateUrlsAreEligibleImage(mirrors, version);
  }
}
