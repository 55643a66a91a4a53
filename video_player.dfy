/**
 * The video player's source update: when a player exists and the source URL
 * is non-empty, the source is handed to the player with a MIME type chosen by
 * substring tests on the URL (HLS first, then DASH, else MP4).
 */
module VideoPlayer {
  import opened Common

  const HlsType := "application/x-mpegURL"
  const DashType := "application/dash+xml"
  const Mp4Type := "video/mp4"

  /** `s.includes(sub)`, scanning from the left: the empty pattern is always found, and a found one fits. */
  predicate Includes(s: string, sub: string): (b: bool)
    ensures |sub| == 0 ==> b
    ensures b ==> |sub| <= |s|
    decreases |s|
  {
    if |s| < |sub| then false
    else s[..|sub|] == sub || Includes(s[1..], sub)
  }

  /** `sub` occurs in `s` starting at index `i`. */
  ghost predicate OccursAt(s: string, sub: string, i: int) {
    0 <= i && i + |sub| <= |s| && s[i..i + |sub|] == sub
  }

  /** `sub` occurs somewhere in `s`: the reference meaning of `includes`. */
  ghost predicate Occurs(s: string, sub: string) {
    exists i :: OccursAt(s, sub, i)
  }

  /** The scan finds `sub` exactly when it occurs somewhere. */
  lemma {:induction false} IncludesIff(s: string, sub: string)
    ensures Includes(s, sub) <==> Occurs(s, sub)
    decreases |s|
  {
    if |s| < |sub| {
      assert forall i :: !OccursAt(s, sub, i);
    } else if s[..|sub|] == sub {
      assert OccursAt(s, sub, 0);
    } else {
      IncludesIff(s[1..], sub);
      if Occurs(s[1..], sub) {
        var j :| OccursAt(s[1..], sub, j);
        assert s[j + 1..j + 1 + |sub|] == s[1..][j..j + |sub|];
        assert OccursAt(s, sub, j + 1);
      }
      if Occurs(s, sub) {
        var i :| OccursAt(s, sub, i);
        assert i != 0 && i + |sub| <= |s|;
        var t := s[1..];
        var a, b := t[i - 1..i - 1 + |sub|], s[i..i + |sub|];
        assert forall k :: 0 <= k < |sub| ==> a[k] == b[k];
        assert a == b;
        assert OccursAt(s[1..], sub, i - 1);
      }
    }
  }

  /** A string that lacks one of `sub`'s characters does not contain `sub`. */
  lemma {:induction false} MissingCharNotIncluded(s: string, sub: string, c: char)
    requires c in sub && c !in s
    ensures !Includes(s, sub)
  {
    IncludesIff(s, sub);
  }

  /** The MIME type for a source URL: HLS when `.m3u8` occurs anywhere, else DASH when `.mpd` does, else MP4. */
  function SourceType(src: string): (t: string)
    ensures t == HlsType <==> Occurs(src, ".m3u8")
    ensures t == DashType <==> !Occurs(src, ".m3u8") && Occurs(src, ".mpd")
    ensures t == Mp4Type <==> !Occurs(src, ".m3u8") && !Occurs(src, ".mpd")
  {
    IncludesIff(src, ".m3u8");
    IncludesIff(src, ".mpd");
    assert |HlsType| != |DashType| && |HlsType| != |Mp4Type| && |DashType| != |Mp4Type|;
    if Includes(src, ".m3u8") then HlsType
    else if Includes(src, ".mpd") then DashType
    else Mp4Type
  }

  datatype Source = Source(src: string, mimeType: string)

  /** What the `[src]` effect hands to the player: nothing without a player or with an empty URL. */
  function SourceUpdate(playerExists: bool, src: string): (r: Option<Source>)
    ensures r.Some? <==> playerExists && src != ""
    ensures r.Some? ==> r.value.src == src && r.value.mimeType == SourceType(src)
  {
    if playerExists && src != "" then Some(Source(src, SourceType(src))) else None
  }

  /**
   * The test is containment, not a suffix: a URL with `.m3u8` inside it is
   * HLS even when `.mpd` follows, and a query string does not hide it.
   */
  lemma {:induction false} ContainmentNotSuffix()
    ensures SourceType("/v/live.m3u8/index.mpd") == HlsType
    ensures SourceType("/v/live.m3u8?token=abc") == HlsType
  {
    assert OccursAt("/v/live.m3u8/index.mpd", ".m3u8", 7);
    assert OccursAt("/v/live.m3u8?token=abc", ".m3u8", 7);
  }

  /** A DASH manifest gets the DASH type. */
  lemma {:induction false} DashExample()
    ensures SourceType("/v/manifest.mpd?t=1") == DashType
  {
    var src := "/v/manifest.mpd?t=1";
    NoHlsInManifest(src);
    assert src[11..15] == ".mpd";
    assert OccursAt(src, ".mpd", 11);
  }

  lemma {:induction false} NoHlsInManifest(src: string)
    requires src == "/v/manifest.mpd?t=1"
    ensures !Occurs(src, ".m3u8")
  {
    MissingCharNotIncluded(src, ".m3u8", '3');
    IncludesIff(src, ".m3u8");
  }

  /** A plain file gets the MP4 default. */
  lemma {:induction false} Mp4Example()
    ensures SourceType("/v/movie.mp4") == Mp4Type
  {
    NoStreamInMovie("/v/movie.mp4");
  }

  lemma {:induction false} NoStreamInMovie(src: string)
    requires src == "/v/movie.mp4"
    ensures !Occurs(src, ".m3u8") && !Occurs(src, ".mpd")
  {
    MissingCharNotIncluded(src, ".m3u8", '3');
    IncludesIff(src, ".m3u8");
    MissingCharNotIncluded(src, ".mpd", 'd');
    IncludesIff(src, ".mpd");
  }
}
