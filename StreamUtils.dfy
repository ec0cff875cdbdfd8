/** The stream URL classifier and rewriter of lib/streamUtils.ts: a direct
    robot URL (one naming the robot's host and port) is rewritten to a
    same-origin path under `/api/stream`, and such a path is mapped back. */
module StreamUtils {
  import opened Wrappers
  import opened Strings

  /** The robot's host and port. */
  const RobotHost: string := "100.112.177.9:8000"

  /** `ROBOT_BASE_URL`, "http://100.112.177.9:8000". */
  const RobotBaseUrl: string := "http://" + RobotHost
  const ProxyBasePath: string := "/api/stream"

  /** The host-and-port text whose presence marks a robot URL,
      "100.112.177.9:8000/". */
  const RobotMarker: string := RobotHost + "/"

  /** `ProxyBasePath + "/"`, the prefix of every proxied URL. */
  const ProxyPrefix: string := "/api/stream/"

  /** `isRobotUrl`: the marker appears somewhere in the URL. */
  predicate IsRobotUrl(url: string) {
    Contains(url, RobotMarker)
  }

  /** `url.split(RobotMarker)[1]`: the text between the first occurrence of
      the marker and the next one (or the end). */
  function PathAfterMarker(url: string): string
    requires IsRobotUrl(url)
  {
    var i := IndexOf(url, RobotMarker).value;
    var rest := url[i + |RobotMarker|..];
    match IndexOf(rest, RobotMarker)
    case None => rest
    case Some(j) => rest[..j]
  }

  /** `convertToProxyUrl`. */
  function ConvertToProxyUrl(url: string): string {
    if !IsRobotUrl(url) then url else ProxyBasePath + "/" + PathAfterMarker(url)
  }

  /** `convertToRobotUrl`. */
  function ConvertToRobotUrl(proxyUrl: string): string {
    if !StartsWith(proxyUrl, ProxyBasePath) then proxyUrl
    else RobotBaseUrl + "/" + ReplaceFirst(proxyUrl, ProxyBasePath + "/", "")
  }

  /** `getDisplayUrl`. */
  function GetDisplayUrl(url: string): string {
    if StartsWith(url, ProxyBasePath) then ConvertToRobotUrl(url) + " (proxied)" else url
  }

  /** A URL is a robot URL exactly when the marker occurs at some index, not
      only at the start. */
  lemma IsRobotUrlAnywhere(url: string)
    ensures IsRobotUrl(url) <==> exists i :: OccursAt(url, RobotMarker, i)
  {
    ContainsIff(url, RobotMarker);
  }

  /** Whatever surrounds the marker, the URL is a robot URL. */
  lemma IsRobotUrlInfix(before: string, after: string)
    ensures IsRobotUrl(before + RobotMarker + after)
  {
    var u := before + RobotMarker + after;
    assert u[|before|..|before| + |RobotMarker|] == RobotMarker;
    ContainsAt(u, RobotMarker, |before|);
  }

  /** Non-robot URLs are never rewritten. */
  lemma ProxyIdentityOnOtherUrls(url: string)
    requires !IsRobotUrl(url)
    ensures ConvertToProxyUrl(url) == url
  {
  }

  /** A robot URL becomes `/api/stream/` followed by the text from the end of
      the first marker (at `i`) to the start of the next marker or the end of
      the URL (at `j`); everything up to and including the first marker,
      scheme included, is dropped. */
  lemma ProxyOfRobotUrl(url: string) returns (i: nat, j: nat)
    requires IsRobotUrl(url)
    ensures OccursAt(url, RobotMarker, i)
    ensures forall k :: 0 <= k < i ==> !OccursAt(url, RobotMarker, k)
    ensures i + |RobotMarker| <= j <= |url|
    ensures j == |url| || OccursAt(url, RobotMarker, j)
    ensures forall k :: i + |RobotMarker| <= k < j ==> !OccursAt(url, RobotMarker, k)
    ensures ConvertToProxyUrl(url) == ProxyPrefix + url[i + |RobotMarker|..j]
  {
    i := IndexOf(url, RobotMarker).value;
    var d := i + |RobotMarker|;
    var rest := url[d..];
    forall k | 0 <= k ensures OccursAt(rest, RobotMarker, k) <==> OccursAt(url, RobotMarker, d + k) {
      OccursAtShift(url, RobotMarker, d, k);
    }
    match IndexOf(rest, RobotMarker)
    case None =>
      j := |url|;
      assert rest == url[d..j];
      forall k | d <= k < j ensures !OccursAt(url, RobotMarker, k) {
        assert !OccursAt(rest, RobotMarker, k - d);
      }
    case Some(m) =>
      j := d + m;
      assert rest[..m] == url[d..j];
      forall k | d <= k < j ensures !OccursAt(url, RobotMarker, k) {
        assert !OccursAt(rest, RobotMarker, k - d);
      }
  }

  /** The piece kept from a robot URL never contains the marker itself. */
  lemma PathAfterMarkerHasNoMarker(url: string)
    requires IsRobotUrl(url)
    ensures !Contains(PathAfterMarker(url), RobotMarker)
  {
    var i := IndexOf(url, RobotMarker).value;
    var rest := url[i + |RobotMarker|..];
    match IndexOf(rest, RobotMarker)
    case None =>
    case Some(j) =>
      if Contains(rest[..j], RobotMarker) {
        var k := IndexOf(rest[..j], RobotMarker).value;
        OccursAtPrefix(rest, RobotMarker, j, k);
        assert false;
      }
  }

  /** A rewritten URL is never a robot URL. */
  lemma ProxyOutputIsNotRobotUrl(url: string)
    ensures IsRobotUrl(url) ==> !IsRobotUrl(ConvertToProxyUrl(url))
  {
    if IsRobotUrl(url) {
      PathAfterMarkerHasNoMarker(url);
      assert ConvertToProxyUrl(url) == ProxyPrefix + PathAfterMarker(url);
      NoOccurrenceAfterPrefix(ProxyPrefix, PathAfterMarker(url), RobotMarker);
    }
  }

  /** Rewriting twice is rewriting once. */
  lemma ProxyIdempotent(url: string)
    ensures ConvertToProxyUrl(ConvertToProxyUrl(url)) == ConvertToProxyUrl(url)
  {
    ProxyOutputIsNotRobotUrl(url);
  }

  /** A URL without the digit `1` cannot hold the robot's address. */
  lemma WithoutOneNotRobotUrl(u: string)
    requires '1' !in u
    ensures ConvertToProxyUrl(u) == u
  {
    forall i | 0 <= i < |u| ensures u[i] != RobotMarker[0] {
      assert u[i] in u;
    }
    assert !Contains("", RobotMarker);
    NoOccurrenceAfterPrefix(u, "", RobotMarker);
    assert u + "" == u;
  }

  /** In a canonical robot URL the first marker follows `http://`. */
  lemma CanonicalMarkerIndex(rest: string)
    ensures IndexOf(RobotBaseUrl + "/" + rest, RobotMarker) == Some(7)
    ensures (RobotBaseUrl + "/" + rest)[7 + |RobotMarker|..] == rest
  {
    var u := RobotBaseUrl + "/" + rest;
    assert RobotBaseUrl + "/" == "http://" + RobotMarker;
    assert u == "http://" + RobotMarker + rest;
    FirstOccurrenceAfter("http://", RobotMarker, rest);
  }

  /** The canonical robot URL `RobotBaseUrl + "/" + p` is rewritten to
      `/api/stream/` + `p` when `p` holds no second marker. */
  lemma ProxyOfCanonicalRobotUrl(p: string)
    requires !Contains(p, RobotMarker)
    ensures ConvertToProxyUrl(RobotBaseUrl + "/" + p) == ProxyPrefix + p
  {
    var u := RobotBaseUrl + "/" + p;
    CanonicalMarkerIndex(p);
    assert PathAfterMarker(u) == p;
  }

  /** Mapping a proxied path back: `/api/stream/` + `p` becomes
      `RobotBaseUrl + "/" + p` for every `p`. */
  lemma RobotOfProxied(p: string)
    ensures ConvertToRobotUrl(ProxyPrefix + p) == RobotBaseUrl + "/" + p
  {
    var s := ProxyPrefix + p;
    assert StartsWith(s, ProxyBasePath);
    assert OccursAt(s, ProxyPrefix, 0);
    assert IndexOf(s, ProxyPrefix) == Some(0);
    assert s[|ProxyPrefix|..] == p;
  }

  /** Round trip: when the path after the robot's address contains no second
      marker, proxying and mapping back restores the URL. */
  lemma RoundTrip(p: string)
    requires !Contains(p, RobotMarker)
    ensures ConvertToRobotUrl(ConvertToProxyUrl(RobotBaseUrl + "/" + p)) == RobotBaseUrl + "/" + p
  {
    ProxyOfCanonicalRobotUrl(p);
    RobotOfProxied(p);
  }

  /** The round trip does not hold for every robot URL: a second marker in the
      path cuts off everything from it on, so the URL mapped back differs
      from the original. */
  lemma RoundTripCutsAtSecondMarker(p: string, q: string)
    requires !Contains(p, RobotMarker)
    ensures ConvertToRobotUrl(ConvertToProxyUrl(RobotBaseUrl + "/" + p + RobotMarker + q)) == RobotBaseUrl + "/" + p
    ensures RobotBaseUrl + "/" + p != RobotBaseUrl + "/" + p + RobotMarker + q
  {
    ProxyCutsAtSecondMarker(p, q);
    RobotOfProxied(p);
    assert |RobotBaseUrl + "/" + p| < |RobotBaseUrl + "/" + p + RobotMarker + q|;
  }

  /** Proxying keeps only the path up to a second marker. */
  lemma ProxyCutsAtSecondMarker(p: string, q: string)
    requires !Contains(p, RobotMarker)
    ensures ConvertToProxyUrl(RobotBaseUrl + "/" + p + RobotMarker + q) == ProxyPrefix + p
  {
    var rest := p + RobotMarker + q;
    var u := RobotBaseUrl + "/" + rest;
    assert RobotBaseUrl + "/" + p + RobotMarker + q == u;
    CanonicalMarkerIndex(rest);
    MarkerEndsOnlyOnce();
    FirstOccurrenceUnbordered(p, RobotMarker, q);
    PathBetweenMarkers(u, 7, rest, |p|);
    assert rest[..|p|] == p;
  }

  /** `split(marker)[1]` from the positions of the first two markers. */
  lemma PathBetweenMarkers(u: string, i: nat, rest: string, j: nat)
    requires IndexOf(u, RobotMarker) == Some(i)
    requires i + |RobotMarker| <= |u| && u[i + |RobotMarker|..] == rest
    requires IndexOf(rest, RobotMarker) == Some(j)
    ensures j <= |rest| && ConvertToProxyUrl(u) == ProxyPrefix + rest[..j]
  {
    assert IsRobotUrl(u);
    assert PathAfterMarker(u) == rest[..j];
  }

  /** The marker's final `/` appears nowhere earlier in it, so two markers
      never overlap. */
  lemma MarkerEndsOnlyOnce()
    ensures forall i :: 0 <= i < |RobotMarker| - 1 ==> RobotMarker[i] != RobotMarker[|RobotMarker| - 1]
  {
    assert '/' !in RobotHost;
    forall i | 0 <= i < |RobotMarker| - 1 ensures RobotMarker[i] != RobotMarker[|RobotMarker| - 1] {
      assert RobotMarker[i] == RobotHost[i] && RobotHost[i] in RobotHost;
    }
  }

  /** Strings that do not start with `/api/stream` are left alone. */
  lemma RobotIdentityOnOtherStrings(s: string)
    requires !StartsWith(s, ProxyBasePath)
    ensures ConvertToRobotUrl(s) == s
  {
  }

  /** A string starting with `/api/stream` gets the robot base prefixed, and
      only the FIRST occurrence of `/api/stream/` (wherever it is) is
      removed; with no such occurrence nothing is removed. */
  lemma RobotOfProxyLike(s: string) returns (before: string, after: string)
    requires StartsWith(s, ProxyBasePath)
    ensures !Contains(s, ProxyPrefix) ==> ConvertToRobotUrl(s) == RobotBaseUrl + "/" + s
    ensures Contains(s, ProxyPrefix) ==>
              && s == before + ProxyPrefix + after
              && (forall k :: 0 <= k < |before| ==> !OccursAt(s, ProxyPrefix, k))
              && ConvertToRobotUrl(s) == RobotBaseUrl + "/" + before + after
  {
    assert ProxyBasePath + "/" == ProxyPrefix;
    match IndexOf(s, ProxyPrefix)
    case None =>
      before, after := s, "";
    case Some(i) =>
      before, after := s[..i], s[i + |ProxyPrefix|..];
      assert s == s[..i] + s[i..i + |ProxyPrefix|] + s[i + |ProxyPrefix|..];
  }

  /** `/api/stream` followed by anything other than `/` keeps the whole text
      after the robot base, giving a doubled slash. */
  lemma RobotOfUnslashedProxyPath()
    ensures ConvertToRobotUrl(ProxyBasePath + "s") == RobotBaseUrl + "/" + ProxyBasePath + "s"
  {
    var s := ProxyBasePath + "s";
    assert s[..|ProxyBasePath|] == ProxyBasePath;
    assert |s| == |ProxyPrefix|;
    assert s[..|ProxyPrefix|] != ProxyPrefix by {
      assert s[11] == 's' && ProxyPrefix[11] == '/';
    }
    assert IndexOf(s[1..], ProxyPrefix) == None;
    assert IndexOf(s, ProxyPrefix) == None;
  }

  /** A proxied URL is displayed as the robot URL it stands for, tagged. */
  lemma DisplayOfProxied(p: string)
    ensures GetDisplayUrl(ProxyPrefix + p) == RobotBaseUrl + "/" + p + " (proxied)"
  {
    RobotOfProxied(p);
  }

  /** Other URLs are displayed as they are. */
  lemma DisplayOfOther(url: string)
    requires !StartsWith(url, ProxyBasePath)
    ensures GetDisplayUrl(url) == url
  {
  }

  /** Display and conversion agree: on `/api/stream` paths the display form
      is the mapped-back URL with the tag. */
  lemma DisplayIsMappedBack(url: string)
    requires StartsWith(url, ProxyBasePath)
    ensures GetDisplayUrl(url) == ConvertToRobotUrl(url) + " (proxied)"
  {
  }

  /** Showing the rewritten form of a canonical robot URL shows the original. */
  lemma DisplayShowsOriginal(p: string)
    requires !Contains(p, RobotMarker)
    ensures GetDisplayUrl(ConvertToProxyUrl(RobotBaseUrl + "/" + p)) == RobotBaseUrl + "/" + p + " (proxied)"
  {
    ProxyOfCanonicalRobotUrl(p);
    DisplayOfProxied(p);
  }
}
