/** components/Toolbar.tsx: the header bar. It shows the connection status
    with a coloured dot and, when a stream URL is given, the last segment of
    that URL's path. Parsing the URL (`new URL(url)`) is not modelled: its
    outcome is a parameter, the pathname, or None when the constructor
    throws. */
module Toolbar {
  import opened Wrappers
  import StatusPill
  import VideoPanel

  /** The default of the `connectionStatus` prop. */
  const DefaultStatus: string := "disconnected"
  const FallbackName: string := "stream"

  /** `getStatusColor`. */
  function GetStatusColor(status: string): string {
    if status == "live" then "bg-green-500"
    else if status == "connecting" then "bg-amber-500"
    else if status == "error" then "bg-red-500"
    else "bg-gray-500"
  }

  /** `s.split("/").pop()`: the text after the last `/`, or all of `s` when
      it has none. */
  function LastSegment(s: string): (r: string)
    ensures |r| <= |s| && r == s[|s| - |r|..]
    ensures forall i :: 0 <= i < |r| ==> r[i] != '/'
    ensures |r| < |s| ==> s[|s| - |r| - 1] == '/'
  {
    if |s| == 0 || s[|s| - 1] == '/' then []
    else
      var r := LastSegment(s[..|s| - 1]);
      assert s[..|s| - 1][|s| - 1 - |r|..] + [s[|s| - 1]] == s[|s| - |r| - 1..];
      r + [s[|s| - 1]]
  }

  /** `getStreamBasename`: the last path segment, or "stream" when it is
      empty or the URL does not parse. */
  function GetStreamBasename(pathname: Option<string>): string {
    match pathname
    case None => FallbackName
    case Some(p) => if LastSegment(p) == "" then FallbackName else LastSegment(p)
  }

  /** The toolbar and the status pill agree on the colour of every status
      string, and the default status is gray. */
  lemma ColorsAgreeWithPill(status: string)
    ensures GetStatusColor(status) == StatusPill.GetStatusConfig(status).color
    ensures GetStatusColor(DefaultStatus) == "bg-gray-500"
  {
  }

  /** The four statuses the video panel reports get four different colours. */
  lemma PanelStatusColorsDistinct(a: VideoPanel.VideoStatus, b: VideoPanel.VideoStatus)
    requires a != b
    ensures GetStatusColor(VideoPanel.StatusName(a)) != GetStatusColor(VideoPanel.StatusName(b))
  {
  }

  /** The name shown is the segment after the last `/` of the pathname. */
  lemma BasenameOfPath(dir: string, name: string)
    requires name != "" && forall i :: 0 <= i < |name| ==> name[i] != '/'
    ensures GetStreamBasename(Some(dir + "/" + name)) == name
  {
    var p := dir + "/" + name;
    var r := LastSegment(p);
    assert p[|dir|] == '/';
    assert forall i :: |dir| < i < |p| ==> p[i] == name[i - |dir| - 1];
    assert |r| == |name|;
    assert p[|p| - |name|..] == name;
  }

  /** A path ending in `/`, an empty path and a URL that does not parse
      (such as a relative proxied path) all show "stream". */
  lemma BasenameFallbacks(dir: string)
    ensures GetStreamBasename(Some(dir + "/")) == "stream"
    ensures GetStreamBasename(Some("")) == "stream"
    ensures GetStreamBasename(None) == "stream"
  {
  }

  /** The name shown never contains a `/` and is never empty. */
  lemma BasenameIsSegment(pathname: Option<string>)
    ensures GetStreamBasename(pathname) != ""
    ensures forall i :: 0 <= i < |GetStreamBasename(pathname)| ==> GetStreamBasename(pathname)[i] != '/'
  {
  }
}
