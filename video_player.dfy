/** The shared video player component: how the party's playback props drive the
    `<video>` element, the host-only controls that report playback changes upwards,
    and the YouTube link handling.

    The element's position and the props are in whole milliseconds, so the
    one-second tolerance is 1000 and the ten-second skip is 10000. A YouTube link is
    rendered as an iframe, in which case there is no element and every handler does
    nothing. */
module VideoPlayer {
  import opened Wrappers
  import opened Text
  import opened Media
  import opened SyncEngine

  // ---------------------------------------------------------------- the sync effect

  /** The element after the sync effect has run for the props `isPlaying` and
      `propTime`: it plays exactly when the party plays, and its position is replaced
      by the party's exactly when the two are more than a second apart. */
  function SyncEffect(md: MediaState, isPlaying: bool, propTime: int): (r: MediaState)
    ensures r.paused == !isPlaying
    ensures r.time != md.time <==> Abs(md.time - propTime) > SeekTolerance
    ensures r.time == md.time || r.time == propTime
    ensures Abs(r.time - propTime) <= SeekTolerance
  {
    var paused :=
      if isPlaying && md.paused then false
      else if !isPlaying && !md.paused then true
      else md.paused;
    var time := if Abs(md.time - propTime) > SeekTolerance then propTime else md.time;
    MediaState(time, paused)
  }

  /** Whether the effect calls `play()` or `pause()` on the element. */
  predicate EffectPlays(md: MediaState, isPlaying: bool) {
    isPlaying && md.paused
  }

  predicate EffectPauses(md: MediaState, isPlaying: bool) {
    !isPlaying && !md.paused
  }

  /** The effect calls `play()` iff the party plays and the element is paused, calls
      `pause()` iff the party is paused and the element plays, and otherwise leaves
      the play state as it is. */
  lemma EffectPlayPause(md: MediaState, isPlaying: bool, propTime: int)
    ensures EffectPlays(md, isPlaying) <==> md.paused && !SyncEffect(md, isPlaying, propTime).paused
    ensures EffectPauses(md, isPlaying) <==> !md.paused && SyncEffect(md, isPlaying, propTime).paused
    ensures !EffectPlays(md, isPlaying) && !EffectPauses(md, isPlaying) ==>
              SyncEffect(md, isPlaying, propTime).paused == md.paused
  {
  }

  /** Running the effect a second time with the same props changes nothing, and an
      element already in step with the props is left alone. */
  lemma EffectIdempotent(md: MediaState, isPlaying: bool, propTime: int)
    ensures SyncEffect(SyncEffect(md, isPlaying, propTime), isPlaying, propTime) == SyncEffect(md, isPlaying, propTime)
    ensures md.paused == !isPlaying && Abs(md.time - propTime) <= SeekTolerance ==>
              SyncEffect(md, isPlaying, propTime) == md
  {
  }

  // ---------------------------------------------------------------- the controls

  /** One call `onPlaybackChange(isPlaying, currentTime)`. */
  datatype Report = Report(isPlaying: bool, time: int)

  /** The position the skip button seeks to: ten seconds on, but not past the end. */
  function SkipTarget(time: int, duration: int): (r: int)
    ensures r <= duration && r <= time + 10000
    ensures r == duration || r == time + 10000
    ensures time <= duration ==> time <= r
  {
    if time + 10000 < duration then time + 10000 else duration
  }

  /** What the component holds: the props, the element (absent for a YouTube link),
      the local position and duration shown by the controls, the volume, and the
      reports sent to the parent. */
  datatype PlayerState = PlayerState(
    isHost: bool,
    isPlaying: bool,
    currentTime: int,
    media: Option<MediaState>,
    localTime: int,
    duration: int,
    volume: int,
    reported: seq<Report>)

  function EffectSpec(s: PlayerState): PlayerState {
    if s.media.None? then s
    else s.(media := Some(SyncEffect(s.media.value, s.isPlaying, s.currentTime)))
  }

  /** New props from the parent; the effect depends on `isPlaying` and `currentTime`
      only, so it runs only when one of them changed. */
  function PropsSpec(s: PlayerState, isHost: bool, isPlaying: bool, currentTime: int): PlayerState {
    var t := s.(isHost := isHost, isPlaying := isPlaying, currentTime := currentTime);
    if isPlaying != s.isPlaying || currentTime != s.currentTime then EffectSpec(t) else t
  }

  /** `handlePlayPause`: the host asks for the opposite of the element's play state
      at the element's position; the element itself is left alone. */
  function PlayPauseSpec(s: PlayerState): PlayerState {
    if s.media.None? || !s.isHost then s
    else s.(reported := s.reported + [Report(s.media.value.paused, s.media.value.time)])
  }

  /** `handleSeek` with the slider value `time`. */
  function SeekSpec(s: PlayerState, time: int): PlayerState {
    if s.media.None? || !s.isHost then s
    else s.(media := Some(s.media.value.(time := time)),
            reported := s.reported + [Report(s.isPlaying, time)])
  }

  /** `handleSkip`. */
  function SkipSpec(s: PlayerState): PlayerState {
    if s.media.None? || !s.isHost then s
    else SeekSpec(s, SkipTarget(s.media.value.time, s.duration))
  }

  function TimeUpdateSpec(s: PlayerState): PlayerState {
    if s.media.None? then s else s.(localTime := s.media.value.time)
  }

  function LoadedMetadataSpec(s: PlayerState, mediaDuration: int): PlayerState {
    if s.media.None? then s else s.(duration := mediaDuration)
  }

  function VolumeSpec(s: PlayerState, volume: int): PlayerState {
    if s.media.None? then s else s.(volume := volume)
  }

  /** After the effect the element plays exactly when the party does and is within a
      second of the party's position. */
  lemma EffectConverges(s: PlayerState)
    requires s.media.Some?
    ensures EffectSpec(s).media.Some?
    ensures EffectSpec(s).media.value.paused == !s.isPlaying
    ensures Abs(EffectSpec(s).media.value.time - s.currentTime) <= SeekTolerance
    ensures EffectSpec(s).(media := s.media) == s
  {
  }

  /** For a viewer, or without an element, play/pause, seek and skip change nothing
      and report nothing. */
  lemma ControlsInertForViewer(s: PlayerState, time: int)
    requires !s.isHost || s.media.None?
    ensures PlayPauseSpec(s) == s && SeekSpec(s, time) == s && SkipSpec(s) == s
  {
  }

  /** For the host, play/pause reports the toggle of the element's state at its
      position without touching it; seek and skip move the element and report the
      party's play state at the new position, which for skip is never past the end
      and never behind a position that was within it. */
  lemma HostControlsReport(s: PlayerState, time: int)
    requires s.isHost && s.media.Some?
    ensures PlayPauseSpec(s).media == s.media
    ensures PlayPauseSpec(s).reported == s.reported + [Report(s.media.value.paused, s.media.value.time)]
    ensures SeekSpec(s, time).media == Some(MediaState(time, s.media.value.paused))
    ensures SeekSpec(s, time).reported == s.reported + [Report(s.isPlaying, time)]
    ensures var t := SkipSpec(s).media.value.time;
            t <= s.duration && (s.media.value.time <= s.duration ==> s.media.value.time <= t)
    ensures SkipSpec(s).reported == s.reported + [Report(s.isPlaying, SkipSpec(s).media.value.time)]
  {
  }

  /** The inputs the component reacts to, other than new props. */
  datatype Event = PlayPause | SeekTo(time: int) | Skip | TimeUpdate | LoadedMetadata(duration: int) | Volume(level: int)

  function Step(s: PlayerState, ev: Event): PlayerState {
    match ev
    case PlayPause => PlayPauseSpec(s)
    case SeekTo(t) => SeekSpec(s, t)
    case Skip => SkipSpec(s)
    case TimeUpdate => TimeUpdateSpec(s)
    case LoadedMetadata(d) => LoadedMetadataSpec(s, d)
    case Volume(v) => VolumeSpec(s, v)
  }

  function Run(s: PlayerState, evs: seq<Event>): PlayerState
    decreases |evs|
  {
    if evs == [] then s else Run(Step(s, evs[0]), evs[1..])
  }

  /** Whatever a viewer does with the controls, the parent is never told, the props
      stay as they were and the element keeps its position. */
  lemma {:induction false} ViewerNeverReports(s: PlayerState, evs: seq<Event>)
    requires !s.isHost
    ensures Run(s, evs).reported == s.reported
    ensures Run(s, evs).isHost == s.isHost && Run(s, evs).isPlaying == s.isPlaying
    ensures Run(s, evs).currentTime == s.currentTime
    ensures Run(s, evs).media == s.media
    decreases |evs|
  {
    if evs != [] {
      ViewerNeverReports(Step(s, evs[0]), evs[1..]);
    }
  }

  class Player {
    var isHost: bool
    var isPlaying: bool
    var currentTime: int
    const video: MediaElement?
    var localTime: int
    var duration: int
    var volume: int
    var reported: seq<Report>

    function State(): PlayerState
      reads this, video
    {
      PlayerState(isHost, isPlaying, currentTime,
        if video == null then None else Some(MediaState(video.currentTime, video.paused)),
        localTime, duration, volume, reported)
    }

    /** The sync effect itself, on the element. */
    method RunEffect()
      modifies video
      ensures State() == EffectSpec(old(State()))
    {
      if video == null {
        return;
      }
      if isPlaying && video.paused {
        video.Play();
      } else if !isPlaying && !video.paused {
        video.Pause();
      }
      if Abs(video.currentTime - currentTime) > SeekTolerance {
        video.Seek(currentTime);
      }
    }

    /** Mounting: local position and duration start at 0 and the volume at 100; the
        effect runs once. */
    constructor (host: bool, playing: bool, time: int, element: MediaElement?)
      modifies element
      ensures isHost == host && isPlaying == playing && currentTime == time && video == element
      ensures localTime == 0 && duration == 0 && volume == 100 && reported == []
      ensures element != null ==>
                element.paused == !playing && Abs(element.currentTime - time) <= SeekTolerance &&
                (element.currentTime != old(element.currentTime) ==> element.currentTime == time)
    {
      isHost := host;
      isPlaying := playing;
      currentTime := time;
      video := element;
      localTime := 0;
      duration := 0;
      volume := 100;
      reported := [];
      new;
      RunEffect();
    }

    method SetProps(host: bool, playing: bool, time: int)
      modifies this, video
      ensures State() == PropsSpec(old(State()), host, playing, time)
    {
      var changed := playing != isPlaying || time != currentTime;
      isHost := host;
      isPlaying := playing;
      currentTime := time;
      if changed {
        RunEffect();
      }
    }

    method HandlePlayPause()
      modifies this
      ensures State() == PlayPauseSpec(old(State()))
    {
      if video == null || !isHost {
        return;
      }
      var newIsPlaying := video.paused;
      reported := reported + [Report(newIsPlaying, video.currentTime)];
    }

    method HandleSeek(newTime: int)
      modifies this, video
      ensures State() == SeekSpec(old(State()), newTime)
    {
      if video == null || !isHost {
        return;
      }
      video.Seek(newTime);
      reported := reported + [Report(isPlaying, newTime)];
    }

    method HandleSkip()
      modifies this, video
      ensures State() == SkipSpec(old(State()))
    {
      if video == null || !isHost {
        return;
      }
      var newTime := SkipTarget(video.currentTime, duration);
      video.Seek(newTime);
      reported := reported + [Report(isPlaying, newTime)];
    }

    method HandleTimeUpdate()
      modifies this
      ensures State() == TimeUpdateSpec(old(State()))
    {
      if video != null {
        localTime := video.currentTime;
      }
    }

    /** `handleLoadedMetadata`, with the element's reported duration. */
    method HandleLoadedMetadata(mediaDuration: int)
      modifies this
      ensures State() == LoadedMetadataSpec(old(State()), mediaDuration)
    {
      if video != null {
        duration := mediaDuration;
      }
    }

    method HandleVolumeChange(level: int)
      modifies this
      ensures State() == VolumeSpec(old(State()), level)
    {
      if video != null {
        volume := level;
      }
    }
  }

  // ---------------------------------------------------------------- clock and links

  /** `formatTime`: unbounded whole minutes, a colon, then two-digit seconds. */
  function FormatTime(seconds: nat): (r: string)
    ensures |r| >= 4 && r[|r| - 3] == ':'
    ensures PlainNumber(r[..|r| - 3]) && ClockField(r[|r| - 2..])
    ensures r[0] == '0' ==> |r| == 4
    ensures ClockValue(r) == Some(seconds)
  {
    MinutesSeconds(seconds)
  }

  const ShortMarker := "youtu.be/"
  const EmbedPrefix := "https://www.youtube.com/embed/"

  /** `isYouTube`. */
  predicate IsYouTube(url: string) {
    Contains(url, "youtube.com") || Contains(url, "youtu.be")
  }

  /** Either host name anywhere in the address makes it a YouTube link. */
  lemma YouTubeHostAnywhere(pre: string, post: string)
    ensures IsYouTube(pre + "youtube.com" + post)
    ensures IsYouTube(pre + "youtu.be" + post)
  {
    var long, short := pre + "youtube.com" + post, pre + "youtu.be" + post;
    assert long[|pre|..|pre| + 11] == "youtube.com";
    ContainsAt(long, "youtube.com", |pre|);
    assert short[|pre|..|pre| + 8] == "youtu.be";
    ContainsAt(short, "youtu.be", |pre|);
  }

  /** A short link is recognised as YouTube. */
  lemma ShortLinkIsYouTube(url: string)
    requires Contains(url, ShortMarker)
    ensures IsYouTube(url)
  {
    var i := IndexOf(url, ShortMarker).value;
    assert url[i..i + 8] == url[i..i + 9][..8] == "youtu.be";
    ContainsAt(url, "youtu.be", i);
  }

  /** The name of a query-string pair: the text before its first `=`. */
  function ParamName(pair: string): string {
    Before(pair, "=")
  }

  /** The value of a query-string pair: the text after its first `=`, or empty. */
  function ParamValue(pair: string): string {
    match IndexOf(pair, "=")
    case None => ""
    case Some(i) => pair[i + 1..]
  }

  predicate Names(pair: string, name: string) {
    pair != "" && ParamName(pair) == name
  }

  /** The position of the first pair with that name, or the number of pairs when
      none has it. */
  function FirstIndex(pairs: seq<string>, name: string): (k: nat)
    ensures k <= |pairs|
    ensures k < |pairs| ==> Names(pairs[k], name)
    ensures forall j :: 0 <= j < k ==> !Names(pairs[j], name)
    decreases |pairs|
  {
    if pairs == [] || Names(pairs[0], name) then 0
    else
      var k := FirstIndex(pairs[1..], name);
      assert forall j :: 1 <= j < k + 1 ==> pairs[j] == pairs[1..][j - 1];
      k + 1
  }

  /** `URLSearchParams.get(name)` over the `&`-separated pairs: the value of the first
      pair with that name. */
  function FirstParam(pairs: seq<string>, name: string): (r: Option<string>)
    ensures r.None? <==> forall k :: 0 <= k < |pairs| ==> !Names(pairs[k], name)
    ensures r.Some? ==> exists k :: 0 <= k < |pairs| && Names(pairs[k], name) &&
                          r.value == ParamValue(pairs[k]) &&
                          forall j :: 0 <= j < k ==> !Names(pairs[j], name)
  {
    var k := FirstIndex(pairs, name);
    if k < |pairs| then Some(ParamValue(pairs[k])) else None
  }

  function QueryParam(query: string, name: string): Option<string> {
    FirstParam(Split(query, "&"), name)
  }

  /** The video id: after a short-link marker, cut at the first `?`; otherwise the `v`
      parameter of the text after the first `?`, if any. */
  function EmbedId(url: string): Option<string> {
    if Contains(url, ShortMarker) then
      match After(url, ShortMarker)
      case None => None
      case Some(segment) => Some(Before(segment, "?"))
    else
      match After(url, "?")
      case None => None
      case Some(query) => QueryParam(query, "v")
  }

  /** `getYouTubeEmbedUrl`: the embed address for a non-empty id, `null` otherwise. */
  function GetYouTubeEmbedUrl(url: string): (r: Option<string>)
    ensures r.Some? ==> StartsWith(r.value, EmbedPrefix) && |r.value| > |EmbedPrefix|
    ensures r.None? <==> EmbedId(url).None? || EmbedId(url).value == ""
  {
    match EmbedId(url)
    case Some(id) => if id != "" then Some(EmbedPrefix + id) else None
    case None => None
  }

  /** The segment after the marker in `<pre>youtu.be/<rest>` is read from `rest`. */
  lemma ShortLinkSegment(pre: string, rest: string)
    requires NoChar(pre, 'y')
    ensures After(pre + ShortMarker + rest, ShortMarker) == Some(Before(rest, ShortMarker))
  {
    var url := pre + ShortMarker + rest;
    IndexOfAfterPrefix(pre, ShortMarker, rest);
    assert url[|pre| + |ShortMarker|..] == rest;
  }

  /** Cutting `<id><q>` at the marker keeps all of the id. */
  lemma MarkerCutKeepsId(id: string, q: string)
    requires NoChar(id, '/') && (q == "" || q[0] == '?')
    ensures |Before(id + q, ShortMarker)| >= |id|
  {
    var rest := id + q;
    var h1 := Before(rest, ShortMarker);
    IndexOfMissingChar(id, ShortMarker, 8);
    if q == "" {
      assert rest == id;
    } else {
      NoMatchAcross(id, q, ShortMarker);
      if Contains(rest, ShortMarker) {
        assert MatchAt(rest, ShortMarker, |h1|);
      }
    }
  }

  /** Cutting `<id>` or `<id>?...` at the first `?` gives the id. */
  lemma QueryCutGivesId(h: string, id: string)
    requires StartsWith(h, id) && NoChar(id, '?')
    requires |h| == |id| || h[|id|] == '?'
    ensures Before(h, "?") == id
  {
    var h2 := Before(h, "?");
    if |h| == |id| {
      assert h == id;
      IndexOfAbsentChar(id, '?');
    } else {
      assert h == id + "?" + h[|id| + 1..];
      IndexOfFirstChar(id, '?', h[|id| + 1..]);
      assert MatchAt(h, "?", |h2|);
      assert h2 == h[..|id|];
    }
  }

  /** A short link `<pre>youtu.be/<id><q>` embeds `<id>`, where the query part `q` is
      empty or starts with `?` and the id has neither `?` nor `/`; an empty id gives
      no embed address. */
  lemma ShortLinkEmbed(pre: string, id: string, q: string)
    requires NoChar(pre, 'y') && NoChar(id, '?') && NoChar(id, '/')
    requires q == "" || q[0] == '?'
    ensures GetYouTubeEmbedUrl(pre + ShortMarker + id + q) == if id == "" then None else Some(EmbedPrefix + id)
  {
    var url := pre + ShortMarker + id + q;
    var rest := id + q;
    assert url == pre + ShortMarker + rest;
    ShortLinkSegment(pre, rest);
    var h1 := Before(rest, ShortMarker);
    MarkerCutKeepsId(id, q);
    assert StartsWith(h1, id) by {
      assert h1 == rest[..|h1|];
      assert h1[..|id|] == rest[..|id|] == id;
    }
    assert |h1| == |id| || h1[|id|] == '?' by {
      if |h1| > |id| {
        assert h1[|id|] == rest[|id|] == q[0];
      }
    }
    QueryCutGivesId(h1, id);
    assert Contains(url, ShortMarker);
    assert EmbedId(url) == Some(id);
  }

  /** The query of `<base>?<query>` is read from what follows the `?`. */
  lemma WatchQuery(base: string, query: string)
    requires NoChar(base, '?') && NoChar(query, '?')
    ensures After(base + "?" + query, "?") == Some(query)
  {
    var url := base + "?" + query;
    IndexOfFirstChar(base, '?', query);
    assert url[|base| + 1..] == query;
    IndexOfAbsentChar(query, '?');
  }

  /** The first `&`-pair of `<pair><tail>` is `pair`. */
  lemma FirstPair(pair: string, tail: string)
    requires NoChar(pair, '&') && (tail == "" || tail[0] == '&')
    ensures |Split(pair + tail, "&")| > 0 && Split(pair + tail, "&")[0] == pair
  {
    var query := pair + tail;
    if tail == "" {
      assert query == pair;
      IndexOfAbsentChar(pair, '&');
      assert Split(query, "&") == [pair];
    } else {
      assert query == pair + "&" + tail[1..];
      IndexOfFirstChar(pair, '&', tail[1..]);
      assert Split(query, "&")[0] == query[..|pair|] == pair;
    }
  }

  /** The pair `v=<id>` names `v` and carries `id`. */
  lemma VPair(id: string)
    ensures Names("v=" + id, "v") && ParamValue("v=" + id) == id
  {
    var pair := "v=" + id;
    assert pair == "v" + "=" + id;
    IndexOfFirstChar("v", '=', id);
    assert ParamName(pair) == pair[..1] == "v";
    assert ParamValue(pair) == pair[2..] == id;
  }

  /** A link without the short-link marker of the form `<base>?v=<id><tail>`, where the
      base has no `?`, the id has neither `&` nor `?`, and the tail is empty or a
      further `&`-pair list without `?`, embeds `<id>`. */
  lemma WatchLinkEmbed(base: string, id: string, tail: string)
    requires !Contains(base + "?v=" + id + tail, ShortMarker)
    requires NoChar(base, '?') && NoChar(id, '&') && NoChar(id, '?') && NoChar(tail, '?')
    requires tail == "" || tail[0] == '&'
    ensures GetYouTubeEmbedUrl(base + "?v=" + id + tail) == if id == "" then None else Some(EmbedPrefix + id)
  {
    var url := base + "?v=" + id + tail;
    var pair := "v=" + id;
    var query := pair + tail;
    assert url == base + "?" + query;
    assert NoChar(query, '?');
    WatchQuery(base, query);
    assert NoChar(pair, '&');
    FirstPair(pair, tail);
    VPair(id);
    assert FirstParam(Split(query, "&"), "v") == Some(id);
    assert EmbedId(url) == Some(id);
  }

  /** A link with neither the short-link marker nor a `?` has no embed address. */
  lemma NoQueryNoEmbed(url: string)
    requires !Contains(url, ShortMarker) && NoChar(url, '?')
    ensures GetYouTubeEmbedUrl(url).None?
  {
    IndexOfAbsentChar(url, '?');
  }
}
