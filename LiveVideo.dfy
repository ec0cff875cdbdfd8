/** components/LiveVideo.tsx: a player for the URL configured at build
    time. An empty URL shows a hint; after the component's effect has run, a
    URL that ends in `mjpg` or `mjpeg` (any case) or that does not mention
    `.m3u8` is shown as an MJPEG image, and any other URL in a `<video>`
    element. */
module LiveVideo {
  import opened Strings

  datatype View = Placeholder | MjpegImage(src: string) | HlsVideo(src: string)

  const PlaceholderText: string := "Set NEXT_PUBLIC_VIDEO_URL"

  /** `/mjp(e)?g$/i`: the URL ends in "mjpg" or "mjpeg", ignoring case. */
  predicate EndsInMjpeg(url: string) {
    EndsWith(ToLower(url), "mjpg") || EndsWith(ToLower(url), "mjpeg")
  }

  /** The effect's test. */
  predicate TreatAsMjpeg(url: string) {
    EndsInMjpeg(url) || !Contains(url, ".m3u8")
  }

  /** The effect: `isMJPEG` becomes true for an MJPEG URL and is never reset. */
  function AfterEffect(url: string, isMjpeg: bool): bool {
    if url == "" then isMjpeg else isMjpeg || TreatAsMjpeg(url)
  }

  /** The render, from the URL and the current `isMJPEG`. */
  function Render(url: string, isMjpeg: bool): View {
    if url == "" then Placeholder
    else if isMjpeg then MjpegImage(url)
    else HlsVideo(url)
  }

  /** What is shown once the effect has run from the initial `false`: the
      hint for an empty URL, the video element exactly for a URL that
      mentions `.m3u8` and does not end in mjp(e)g, and the image
      otherwise. */
  lemma SettledView(url: string)
    ensures url == "" ==> Render(url, AfterEffect(url, false)) == Placeholder
    ensures url != "" ==>
              (Render(url, AfterEffect(url, false)).HlsVideo? <==> Contains(url, ".m3u8") && !EndsInMjpeg(url))
    ensures url != "" && !Contains(url, ".m3u8") ==> Render(url, AfterEffect(url, false)) == MjpegImage(url)
    ensures url != "" && EndsInMjpeg(url) ==> Render(url, AfterEffect(url, false)) == MjpegImage(url)
  {
  }

  /** The suffix test ignores case: a URL ending in ".MJPEG" is an MJPEG URL. */
  lemma UpperCaseSuffix(prefix: string)
    ensures EndsInMjpeg(prefix + ".MJPEG") && EndsInMjpeg(prefix + ".mjpg")
  {
    var u := prefix + ".MJPEG";
    assert ToLower(u)[|u| - 5..] == "mjpeg" by {
      assert u[|u| - 5..] == "MJPEG";
    }
    var v := prefix + ".mjpg";
    assert ToLower(v)[|v| - 4..] == "mjpg" by {
      assert v[|v| - 4..] == "mjpg";
    }
  }

  /** The flag only ever goes from false to true, and running the effect
      again changes nothing. */
  lemma EffectIsMonotoneAndStable(url: string, isMjpeg: bool)
    ensures isMjpeg ==> AfterEffect(url, isMjpeg)
    ensures AfterEffect(url, AfterEffect(url, isMjpeg)) == AfterEffect(url, isMjpeg)
  {
  }
}
