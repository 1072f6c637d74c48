/** The live-stream controls of a party: choosing a local video file, starting a
    file, camera or screen stream, and stopping it.

    The browser's media APIs are abstracted away: a stream is an identifier, the
    outcome of a capture request is a parameter, an object URL is the string the
    browser hands out, and the parent's `onStreamStart`/`onStreamStop` callbacks and
    the alerts shown are recorded in order. */
module StreamControls {
  import opened Wrappers
  import opened Text

  datatype Source = File | Camera | Screen

  datatype FileInfo = FileInfo(name: string, mimeType: string)

  /** What a `getUserMedia`/`getDisplayMedia` request ends with. */
  datatype CaptureOutcome = Granted(stream: nat) | Failed(errorName: string, message: string)

  /** One call `onStreamStart(stream, type)`. */
  datatype StartCall = StartCall(stream: nat, source: Source)

  /** The file-type check of `handleFileSelect`: a video MIME type, or a name ending
      in one of the accepted extensions in any letter case. */
  predicate FileAccepted(f: FileInfo) {
    var lower := ToLower(f.name);
    || StartsWith(f.mimeType, "video/")
    || EndsWith(lower, ".mp4") || EndsWith(lower, ".webm") || EndsWith(lower, ".mov")
    || EndsWith(lower, ".avi") || EndsWith(lower, ".mkv")
  }

  /** The extension test ignores letter case. */
  lemma AcceptanceIgnoresNameCase(f: FileInfo)
    ensures FileAccepted(f) == FileAccepted(f.(name := ToLower(f.name)))
    ensures FileAccepted(f) == FileAccepted(f.(name := ToUpper(f.name)))
  {
    ToLowerIdempotent(f.name);
    ToLowerAfterToUpper(f.name);
  }

  /** The extensions the validator accepts. */
  const VideoExtensions := [".mp4", ".webm", ".mov", ".avi", ".mkv"]

  /** Any `video/` type is accepted whatever the name, and so is a name ending in one of
      the five extensions, in any letter case, whatever the type. */
  lemma AcceptedFiles(f: FileInfo, base: string, ext: string, mimeType: string)
    requires ext in VideoExtensions
    ensures StartsWith(f.mimeType, "video/") ==> FileAccepted(f)
    ensures FileAccepted(FileInfo(base + ext, mimeType))
    ensures FileAccepted(FileInfo(base + ToUpper(ext), mimeType))
  {
    ExtensionSurvivesLowering(base, ext);
    ExtensionSurvivesLowering(base, ToUpper(ext));
    ToLowerAfterToUpper(ext);
    assert ToLower(ext) == ext;
  }

  lemma ExtensionSurvivesLowering(base: string, ext: string)
    ensures EndsWith(ToLower(base + ext), ToLower(ext))
  {
    var l := ToLower(base + ext);
    assert l[|l| - |ext|..] == ToLower(ext);
  }

  const FileInstructions := "Please select the \"WatchParty - Video Player\" window/tab to share just the video player."
  const RejectedFileAlert := "Please select a video file (MP4, WebM, MOV, AVI, MKV)"

  datatype StreamState = StreamState(
    selectedSource: Option<Source>,
    isLoading: Option<Source>,
    currentStream: Option<nat>,
    selectedFile: Option<FileInfo>,
    showVideoPlayer: bool,
    fileUrl: string,
    started: seq<StartCall>,
    stopCalls: nat,
    stoppedStreams: seq<nat>,
    revokedUrls: seq<string>,
    alerts: seq<string>)

  /** A file is selected exactly while its player is shown and its object URL is held. */
  predicate ValidStream(s: StreamState) {
    && (s.showVideoPlayer <==> s.selectedFile.Some?)
    && (s.showVideoPlayer <==> s.fileUrl != "")
  }

  /** `handleFileSelect` for the first chosen file, if any, given the object URL the
      browser would create for it. */
  function SelectSpec(s: StreamState, file: Option<FileInfo>, objectUrl: string): StreamState {
    if file.None? then s
    else if !FileAccepted(file.value) then s.(alerts := s.alerts + [RejectedFileAlert])
    else s.(selectedFile := file, fileUrl := objectUrl, showVideoPlayer := true)
  }

  /** The synchronous start of a stream request: the file stream needs a selected
      file with its player open; the others always start. */
  function BeginSpec(s: StreamState, source: Source): StreamState {
    if source == File && (s.selectedFile.None? || !s.showVideoPlayer) then s
    else s.(isLoading := Some(source))
  }

  /** The end of a stream request: a granted stream becomes the current one and the
      parent is told once; a failure is reported, except that a refused screen
      capture is silent; loading ends either way. */
  function FinishSpec(s: StreamState, source: Source, outcome: CaptureOutcome): StreamState {
    match outcome
    case Granted(stream) =>
      s.(currentStream := Some(stream), selectedSource := Some(source),
         started := s.started + [StartCall(stream, source)], isLoading := None,
         alerts := s.alerts + (if source == File then [FileInstructions] else []))
    case Failed(name, message) =>
      var alert :=
        if source == Camera then ["Failed to access camera: " + message]
        else if name != "NotAllowedError" then ["Failed to share screen: " + message]
        else [];
      s.(isLoading := None, alerts := s.alerts + alert)
  }

  /** `handleStreamStop`. */
  function StopSpec(s: StreamState): StreamState {
    var t := if s.currentStream.Some? then
        s.(stoppedStreams := s.stoppedStreams + [s.currentStream.value], currentStream := None)
      else s;
    var u := if s.selectedSource == Some(File) then ClearSpec(t) else t;
    u.(selectedSource := None, stopCalls := s.stopCalls + 1)
  }

  /** `clearFileSelection`. */
  function ClearSpec(s: StreamState): StreamState {
    var t := if s.fileUrl != "" then s.(revokedUrls := s.revokedUrls + [s.fileUrl], fileUrl := "") else s;
    t.(selectedFile := None, showVideoPlayer := false)
  }

  /** A rejected file changes nothing but the alerts; an accepted one is selected with
      its URL and its player opened. */
  lemma SelectOutcome(s: StreamState, f: FileInfo, objectUrl: string)
    ensures !FileAccepted(f) ==> SelectSpec(s, Some(f), objectUrl).(alerts := s.alerts) == s
    ensures FileAccepted(f) ==>
              var r := SelectSpec(s, Some(f), objectUrl);
              r.selectedFile == Some(f) && r.fileUrl == objectUrl && r.showVideoPlayer &&
              r.(selectedFile := s.selectedFile, fileUrl := s.fileUrl, showVideoPlayer := s.showVideoPlayer) == s
  {
  }

  /** The file stream does not even start loading unless a file is selected and its
      player is open. */
  lemma FileStreamNeedsPlayer(s: StreamState)
    ensures BeginSpec(s, File) != s ==> s.selectedFile.Some? && s.showVideoPlayer
    ensures s.selectedFile.Some? && s.showVideoPlayer ==> BeginSpec(s, File).isLoading == Some(File)
  {
  }

  /** Every start attempt ends with nothing loading; a granted one selects its source
      and tells the parent exactly once, a failed one changes no source or stream. */
  lemma StartEndsLoading(s: StreamState, source: Source, outcome: CaptureOutcome)
    ensures FinishSpec(s, source, outcome).isLoading.None?
    ensures outcome.Granted? ==>
              FinishSpec(s, source, outcome).selectedSource == Some(source) &&
              FinishSpec(s, source, outcome).currentStream == Some(outcome.stream) &&
              FinishSpec(s, source, outcome).started == s.started + [StartCall(outcome.stream, source)]
    ensures outcome.Failed? ==>
              FinishSpec(s, source, outcome).(isLoading := s.isLoading, alerts := s.alerts) == s
    ensures outcome.Failed? && source == Screen && outcome.errorName == "NotAllowedError" ==>
              FinishSpec(s, source, outcome).alerts == s.alerts
  {
  }

  /** Stopping always clears the source and tells the parent once, stops a current
      stream's tracks, and drops the chosen file only when the file was the source. */
  lemma StopOutcome(s: StreamState)
    ensures StopSpec(s).selectedSource.None? && StopSpec(s).currentStream.None?
    ensures StopSpec(s).stopCalls == s.stopCalls + 1
    ensures StopSpec(s).stoppedStreams == s.stoppedStreams + (if s.currentStream.Some? then [s.currentStream.value] else [])
    ensures s.selectedSource == Some(File) ==>
              StopSpec(s).selectedFile.None? && !StopSpec(s).showVideoPlayer && StopSpec(s).fileUrl == ""
    ensures s.selectedSource != Some(File) ==>
              StopSpec(s).selectedFile == s.selectedFile && StopSpec(s).showVideoPlayer == s.showVideoPlayer &&
              StopSpec(s).fileUrl == s.fileUrl && StopSpec(s).revokedUrls == s.revokedUrls
    ensures StopSpec(s).started == s.started && StopSpec(s).alerts == s.alerts
  {
  }

  /** Clearing drops the chosen file whatever the source, revoking its URL once. */
  lemma ClearOutcome(s: StreamState)
    ensures ClearSpec(s).selectedFile.None? && !ClearSpec(s).showVideoPlayer && ClearSpec(s).fileUrl == ""
    ensures ClearSpec(s).revokedUrls == s.revokedUrls + (if s.fileUrl != "" then [s.fileUrl] else [])
    ensures ClearSpec(s).selectedSource == s.selectedSource && ClearSpec(s).currentStream == s.currentStream
  {
  }

  /** Every operation keeps a selected file, its open player and its URL together. */
  lemma OperationsKeepValid(s: StreamState, file: Option<FileInfo>, objectUrl: string, source: Source, outcome: CaptureOutcome)
    requires ValidStream(s) && objectUrl != ""
    ensures ValidStream(SelectSpec(s, file, objectUrl))
    ensures ValidStream(BeginSpec(s, source))
    ensures ValidStream(FinishSpec(s, source, outcome))
    ensures ValidStream(StopSpec(s))
    ensures ValidStream(ClearSpec(s))
  {
  }

  class Controls {
    var selectedSource: Option<Source>
    var isLoading: Option<Source>
    var currentStream: Option<nat>
    var selectedFile: Option<FileInfo>
    var showVideoPlayer: bool
    var fileUrl: string
    var started: seq<StartCall>
    var stopCalls: nat
    var stoppedStreams: seq<nat>
    var revokedUrls: seq<string>
    var alerts: seq<string>

    function State(): StreamState
      reads this
    {
      StreamState(selectedSource, isLoading, currentStream, selectedFile, showVideoPlayer, fileUrl,
        started, stopCalls, stoppedStreams, revokedUrls, alerts)
    }

    ghost predicate Valid()
      reads this
    {
      ValidStream(State())
    }

    constructor ()
      ensures Valid()
      ensures State() == StreamState(None, None, None, None, false, "", [], 0, [], [], [])
    {
      selectedSource := None;
      isLoading := None;
      currentStream := None;
      selectedFile := None;
      showVideoPlayer := false;
      fileUrl := "";
      started := [];
      stopCalls := 0;
      stoppedStreams := [];
      revokedUrls := [];
      alerts := [];
    }

    /** `handleFileSelect`; the browser's object URLs are never empty. */
    method HandleFileSelect(file: Option<FileInfo>, objectUrl: string)
      requires Valid() && objectUrl != ""
      modifies this
      ensures Valid()
      ensures State() == SelectSpec(old(State()), file, objectUrl)
    {
      if file.None? {
        return;
      }
      if !FileAccepted(file.value) {
        alerts := alerts + [RejectedFileAlert];
        return;
      }
      selectedFile := file;
      fileUrl := objectUrl;
      showVideoPlayer := true;
    }

    /** The part of `handleStreamFile`, `handleCameraStart` or `handleScreenShare`
        before the capture request is awaited; `requested` says whether it was made. */
    method BeginStart(source: Source) returns (requested: bool)
      requires Valid()
      modifies this
      ensures Valid()
      ensures State() == BeginSpec(old(State()), source)
      ensures requested <==> source != File || (old(selectedFile).Some? && old(showVideoPlayer))
    {
      if source == File && (selectedFile.None? || !showVideoPlayer) {
        return false;
      }
      isLoading := Some(source);
      return true;
    }

    /** The rest of the same handler, once the capture request has settled. */
    method FinishStart(source: Source, outcome: CaptureOutcome)
      requires Valid()
      modifies this
      ensures Valid()
      ensures State() == FinishSpec(old(State()), source, outcome)
    {
      match outcome {
        case Granted(stream) =>
          currentStream := Some(stream);
          selectedSource := Some(source);
          started := started + [StartCall(stream, source)];
          if source == File {
            alerts := alerts + [FileInstructions];
          }
        case Failed(name, message) =>
          if source == Camera {
            alerts := alerts + ["Failed to access camera: " + message];
          } else if name != "NotAllowedError" {
            alerts := alerts + ["Failed to share screen: " + message];
          }
      }
      isLoading := None;
    }

    method HandleStreamStop()
      requires Valid()
      modifies this
      ensures Valid()
      ensures State() == StopSpec(old(State()))
    {
      ghost var s0 := State();
      if currentStream.Some? {
        stoppedStreams := stoppedStreams + [currentStream.value];
        currentStream := None;
      }
      assert State() == if s0.currentStream.Some? then
        s0.(stoppedStreams := s0.stoppedStreams + [s0.currentStream.value], currentStream := None) else s0;
      if selectedSource == Some(File) {
        if fileUrl != "" {
          revokedUrls := revokedUrls + [fileUrl];
          fileUrl := "";
        }
        showVideoPlayer := false;
        selectedFile := None;
      }
      selectedSource := None;
      stopCalls := stopCalls + 1;
    }

    method ClearFileSelection()
      requires Valid()
      modifies this
      ensures Valid()
      ensures State() == ClearSpec(old(State()))
    {
      if fileUrl != "" {
        revokedUrls := revokedUrls + [fileUrl];
        fileUrl := "";
      }
      selectedFile := None;
      showVideoPlayer := false;
    }
  }
}
