/** The capture session behind the recorder view: display capture, the microphone and
    system-audio mix, the media recorder with its one-second chunks, the one-second timer
    with its 30-minute ceiling, pause and resume, and the teardown when the recorder stops.
    Browser calls are oracles: their outcomes are parameters, and media tracks are numbered
    handles whose liveness is kept in a set. */
module CaptureSession {
  import opened Base
  import opened RecordingConfig
  import AppModel

  /** The hard limit of a recording, in timer ticks of one second. */
  const MaxRecordingSeconds: nat := 1800
  /** The recorder hands over a chunk every this many milliseconds. */
  const TimesliceMs: nat := 1000
  const DefaultError: string := "Failed to start"
  /** Container/codec choices, best first. */
  const MimeCandidates: seq<string> := ["video/webm;codecs=vp9,opus", "video/webm;codecs=vp8,opus", "video/webm"]

  type TrackId = nat

  /** A MediaStream: its video tracks and its audio tracks. */
  datatype Stream = Stream(videoTracks: seq<TrackId>, audioTracks: seq<TrackId>) {
    /** `getTracks()`. */
    function Tracks(): seq<TrackId> { videoTracks + audioTracks }
  }

  /** The tracks of a sequence, as a set. */
  function SetOf(ts: seq<TrackId>): set<TrackId>
  {
    set t | t in ts
  }

  /** The tracks a `stopStreamTracks` call on this (possibly null) stream stops. */
  function TrackSetOf(s: Option<Stream>): set<TrackId>
  {
    if s.None? then {} else SetOf(s.value.Tracks())
  }

  /** `lo, lo + 1, ..., lo + n - 1`: fresh track handles. */
  function Range(lo: nat, n: nat): (r: seq<TrackId>)
    ensures |r| == n
    ensures forall i :: 0 <= i < n ==> r[i] == lo + i
    decreases n
  {
    if n == 0 then [] else [lo] + Range(lo + 1, n - 1)
  }

  /** What display capture yields: a stream with one video track and some audio tracks, or
      an exception carrying a message ("" when it has none). */
  datatype DisplayOutcome = DisplayGranted(audioTracks: nat) | DisplayFailed(message: string)

  /** What the microphone request yields: a stream with some audio tracks, or an exception. */
  datatype MicOutcome = MicGranted(audioTracks: nat) | MicDenied

  /** What creating and starting the media recorder does. */
  datatype RecorderOutcome = Started | ConstructorFailed(message: string) | StartFailed(message: string)

  /** The constraints passed to display capture. */
  datatype DisplayRequest = DisplayRequest(width: nat, height: nat, frameRate: nat, audio: bool)

  /** The preset's size and frame rate as video constraints; audio only for system audio. */
  function RequestFor(cfg: RecordingSettings, settings: AppModel.AppSettings): (r: DisplayRequest)
    ensures r.width == cfg.width && r.height == cfg.height && r.frameRate == cfg.frameRate
    ensures r.audio == settings.includeSystemAudio
  {
    DisplayRequest(cfg.width, cfg.height, cfg.frameRate, settings.includeSystemAudio)
  }

  datatype RecorderState = Inactive | Recording | Paused

  /** A media recorder, with the final stream it records and the screen stream its `onstop`
      handler closes over. */
  datatype MediaRecorder = MediaRecorder(
    stream: Stream, screen: Stream, mimeType: string, videoBitsPerSecond: nat, timeslice: nat,
    state: RecorderState)

  datatype AudioSource = Microphone | SystemAudio

  /** The outcome of the audio-mixing block: whether an audio context was created, whether
      the microphone was asked for, which sources were connected to the mix destination,
      where the level analyser listens, and whether the mixed stream replaced the screen
      stream. */
  datatype AudioGraph = AudioGraph(
    contextCreated: bool, micRequested: bool, micConnected: bool, systemConnected: bool,
    analyser: Option<AudioSource>, mixed: bool)

  /** The decisions of the audio-mixing block. A failure to create the audio context or a
      microphone denial throws inside the block; the exception is swallowed, nothing after
      it runs, and the screen stream is recorded as it is. */
  function RouteAudio(settings: AppModel.AppSettings, screenAudio: nat, contextOk: bool, mic: MicOutcome): (g: AudioGraph)
    ensures g.contextCreated <==> (settings.includeMic || settings.includeSystemAudio) && contextOk
    ensures g.micRequested <==> g.contextCreated && settings.includeMic
    ensures g.micConnected <==> g.micRequested && mic.MicGranted? && mic.audioTracks > 0
    ensures g.analyser == (if g.micConnected then Some(Microphone) else None)
    ensures g.mixed <==> g.contextCreated && !(settings.includeMic && mic.MicDenied?)
    ensures g.systemConnected <==> g.mixed && settings.includeSystemAudio && screenAudio > 0
  {
    if !(settings.includeMic || settings.includeSystemAudio) || !contextOk then
      AudioGraph(false, false, false, false, None, false)
    else if settings.includeMic && mic.MicDenied? then
      AudioGraph(true, true, false, false, None, false)
    else
      var micConnected := settings.includeMic && mic.audioTracks > 0;
      AudioGraph(true, settings.includeMic, micConnected,
                 settings.includeSystemAudio && screenAudio > 0,
                 if micConnected then Some(Microphone) else None, true)
  }

  /** `err.message || "Failed to start"`. */
  function ErrorMessage(message: string): (r: string)
    ensures r != ""
    ensures message != "" ==> r == message
    ensures message == "" ==> r == DefaultError
  {
    if message != "" then message else DefaultError
  }

  /** The error left by `startRecording`: none when recording began, otherwise the message
      of the first exception, from display capture or from the recorder. */
  function StartError(display: DisplayOutcome, outcome: RecorderOutcome): (r: Option<string>)
    ensures r.None? <==> display.DisplayGranted? && outcome.Started?
    ensures r.Some? ==> r.value != ""
    ensures display.DisplayFailed? ==> r == Some(ErrorMessage(display.message))
  {
    if display.DisplayFailed? then Some(ErrorMessage(display.message))
    else if outcome.Started? then None
    else Some(ErrorMessage(outcome.message))
  }

  /** The index of the first candidate the browser supports. */
  function FirstSupported(candidates: seq<string>, supported: set<string>): (r: Option<nat>)
    ensures r.Some? ==> r.value < |candidates| && candidates[r.value] in supported
    ensures r.Some? ==> forall j :: 0 <= j < r.value ==> candidates[j] !in supported
    ensures r.None? ==> forall j :: 0 <= j < |candidates| ==> candidates[j] !in supported
  {
    if candidates == [] then None
    else if candidates[0] in supported then Some(0)
    else match FirstSupported(candidates[1..], supported)
      case None => None
      case Some(k) => Some(k + 1)
  }

  /** The MIME type asked of the recorder: the first supported candidate, or "" (leaving
      the choice to the browser) when none is supported. */
  function SelectMimeType(supported: set<string>): (m: string)
    ensures m == "" <==> forall j :: 0 <= j < |MimeCandidates| ==> MimeCandidates[j] !in supported
    ensures m != "" ==> m in supported
    ensures m != "" ==> exists i :: 0 <= i < |MimeCandidates| && MimeCandidates[i] == m &&
                                    forall j :: 0 <= j < i ==> MimeCandidates[j] !in supported
  {
    match FirstSupported(MimeCandidates, supported)
    case None => ""
    case Some(i) => MimeCandidates[i]
  }

  /** The fallbacks, spelled out: VP9 when available, else VP8, else plain WebM. */
  lemma MimeFallbacks(supported: set<string>)
    ensures "video/webm;codecs=vp9,opus" in supported ==> SelectMimeType(supported) == "video/webm;codecs=vp9,opus"
    ensures ("video/webm;codecs=vp9,opus" !in supported && "video/webm;codecs=vp8,opus" in supported)
            ==> SelectMimeType(supported) == "video/webm;codecs=vp8,opus"
    ensures ("video/webm;codecs=vp9,opus" !in supported && "video/webm;codecs=vp8,opus" !in supported
             && "video/webm" in supported) ==> SelectMimeType(supported) == "video/webm"
  {
    assert MimeCandidates[0] == "video/webm;codecs=vp9,opus";
    assert MimeCandidates[1] == "video/webm;codecs=vp8,opus";
    assert MimeCandidates[2] == "video/webm";
  }

  /** The chunk buffer after a series of `dataavailable` events: only non-empty chunks are
      kept, in arrival order. */
  function Accumulate(chunks: seq<Blob>, events: seq<Blob>): (r: seq<Blob>)
    ensures |chunks| <= |r| <= |chunks| + |events|
    ensures r[..|chunks|] == chunks
    ensures forall i :: |chunks| <= i < |r| ==> r[i].Size() > 0 && r[i] in events
  {
    if events == [] then chunks
    else
      var prev := Accumulate(chunks, events[..|events| - 1]);
      var last := events[|events| - 1];
      if last.Size() > 0 then prev + [last] else prev
  }

  /** Dropping the empty chunks loses no bytes: the blob assembled from the buffer holds
      every byte the recorder handed over, in order. */
  lemma {:induction false} AccumulatedBytes(chunks: seq<Blob>, events: seq<Blob>)
    ensures Concat(Accumulate(chunks, events)) == Concat(chunks) + Concat(events)
    decreases |events|
  {
    if events != [] {
      var init, last := events[..|events| - 1], events[|events| - 1];
      var prev := Accumulate(chunks, init);
      AccumulatedBytes(chunks, init);
      if last.Size() > 0 {
        assert (prev + [last])[..|prev|] == prev;
      } else {
        assert last.data == [];
      }
    }
  }

  /** One firing of the one-second timer on the counter. */
  function TimerStep(t: nat): (r: nat)
    ensures t <= r <= t + 1
    ensures t <= MaxRecordingSeconds ==> r <= MaxRecordingSeconds
  {
    if t >= MaxRecordingSeconds then t else t + 1
  }

  /** `n` firings of the timer. */
  function Ticks(t: nat, n: nat): (r: nat)
    ensures t <= r <= t + n
    ensures t <= MaxRecordingSeconds ==> r <= MaxRecordingSeconds
  {
    if n == 0 then t else TimerStep(Ticks(t, n - 1))
  }

  /** From any value within the ceiling, `n` ticks count up by `n` and stop at 1800. */
  lemma {:induction false} TicksClamp(t: nat, n: nat)
    requires t <= MaxRecordingSeconds
    ensures Ticks(t, n) == if t + n <= MaxRecordingSeconds then t + n else MaxRecordingSeconds
  {
    if n > 0 {
      TicksClamp(t, n - 1);
    }
  }

  /** The screen stream of a successful display capture: one video track and `a` audio
      tracks, numbered from `base`. */
  function ScreenStream(base: TrackId, a: nat): (s: Stream)
    ensures s.videoTracks == [base] && |s.audioTracks| == a
  {
    Stream([base], Range(base + 1, a))
  }

  /** How many microphone tracks the audio block acquires: the microphone is asked for only
      once an audio context exists. */
  function MicTracks(settings: AppModel.AppSettings, contextOk: bool, mic: MicOutcome): nat
  {
    if settings.includeMic && contextOk && mic.MicGranted? then mic.audioTracks else 0
  }

  /** The audio track of the mix destination, numbered after the microphone's tracks. */
  function DestinationTrack(settings: AppModel.AppSettings, a: nat, contextOk: bool, mic: MicOutcome, base: TrackId): TrackId
  {
    base + 1 + a + MicTracks(settings, contextOk, mic)
  }

  /** The stream handed to the recorder: the screen's video track and the mix destination's
      audio track when the audio block completed, the screen stream untouched otherwise. */
  function RecordedStream(settings: AppModel.AppSettings, a: nat, contextOk: bool, mic: MicOutcome, base: TrackId): (s: Stream)
    ensures s.videoTracks == [base]
    ensures RouteAudio(settings, a, contextOk, mic).mixed ==> s.audioTracks == [DestinationTrack(settings, a, contextOk, mic, base)]
    ensures !RouteAudio(settings, a, contextOk, mic).mixed ==> s == ScreenStream(base, a)
  {
    if RouteAudio(settings, a, contextOk, mic).mixed
    then Stream([base], [DestinationTrack(settings, a, contextOk, mic, base)])
    else ScreenStream(base, a)
  }

  /** The track and context counters of a session and the fields that starting a capture
      replaces, as they were before the start. */
  datatype HandleState = HandleState(
    nextTrack: TrackId, contextsCreated: nat, recorder: Option<MediaRecorder>,
    analyser: Option<AudioSource>, audioContext: Option<nat>, liveTracks: set<TrackId>)

  /** One `onRecordingComplete` call. */
  datatype Delivery = Delivery(url: string, blob: Blob)

  /** The state and refs of the capture hook, plus logs of what it did to the outside. */
  class Session {
    var isRecording: bool
    var isPaused: bool
    var recordingTime: nat
    var error: Option<string>
    /** The source the level analyser listens to, if any. */
    var analyser: Option<AudioSource>
    var recorder: Option<MediaRecorder>
    var stream: Option<Stream>
    var chunks: seq<Blob>
    /** The audio context ref; it is set when a context is created and never cleared. */
    var audioContext: Option<nat>
    var contextsCreated: nat
    /** Every `close()` on an audio context, in order. */
    var closedContexts: seq<nat>
    /** Tracks acquired and not yet stopped. */
    var liveTracks: set<TrackId>
    var nextTrack: TrackId
    var displayRequests: seq<DisplayRequest>
    var delivered: seq<Delivery>
    /** The recorder has been stopped and its `stop` event is still to come. */
    var pendingStop: bool

    ghost predicate Valid()
      reads this
    {
      && recordingTime <= MaxRecordingSeconds
      && (forall i :: 0 <= i < |chunks| ==> chunks[i].Size() > 0)
      && FreshHandles()
      && RecorderAgrees()
    }

    /** Every live track and the context in the ref were handed out before the counters. */
    ghost predicate FreshHandles()
      reads this`liveTracks, this`nextTrack, this`audioContext, this`contextsCreated
    {
      && (forall t :: t in liveTracks ==> t < nextTrack)
      && (audioContext.Some? ==> audioContext.value < contextsCreated)
    }

    /** The flags follow the recorder: recording means a recorder exists; a stop still to be
        delivered means it is inactive; otherwise it is paused exactly when the flag says
        so; and when not recording the recorder, if any, is inactive and nothing is paused. */
    ghost predicate RecorderAgrees()
      reads this`isRecording, this`isPaused, this`recorder, this`pendingStop
    {
      && (isRecording ==> recorder.Some?)
      && (pendingStop ==> isRecording && recorder.value.state == Inactive)
      && (isRecording && !pendingStop ==>
            recorder.value.state != Inactive && (isPaused <==> recorder.value.state == Paused))
      && (!isRecording ==> !isPaused && (recorder.None? || recorder.value.state == Inactive))
    }

    constructor ()
      ensures Valid()
      ensures !isRecording && !isPaused && recordingTime == 0 && error == None && analyser == None
      ensures recorder == None && stream == None && chunks == [] && audioContext == None
      ensures liveTracks == {} && delivered == [] && closedContexts == [] && !pendingStop
    {
      isRecording, isPaused, recordingTime, error, analyser := false, false, 0, None, None;
      recorder, stream, chunks := None, None, [];
      audioContext, contextsCreated, closedContexts := None, 0, [];
      liveTracks, nextTrack := {}, 0;
      displayRequests, delivered, pendingStop := [], [], false;
    }

    /** A recorder exists and is not inactive, so `stop()` is forwarded. */
    predicate CanStop(): (active: bool)
      reads this
      ensures active ==> recorder.Some? && recorder.value.state != Inactive
    {
      recorder.Some? && recorder.value.state != Inactive
    }

    /** `stopRecording` (also the handler of the shared screen's `ended` event). A second
        stop finds the recorder inactive and does nothing. */
    method StopRecording()
      requires Valid()
      modifies this`recorder, this`pendingStop
      ensures Valid()
      ensures old(CanStop()) ==> recorder == Some(old(recorder).value.(state := Inactive)) && pendingStop
      ensures !old(CanStop()) ==> recorder == old(recorder) && pendingStop == old(pendingStop)
      ensures !CanStop()
    {
      if recorder.Some? && recorder.value.state != Inactive {
        recorder := Some(recorder.value.(state := Inactive));
        pendingStop := true;
      }
    }

    /** One firing of the one-second interval, which runs only while recording and not
        paused. At the ceiling it stops the recorder and keeps the counter. */
    method Tick()
      requires Valid()
      modifies this`recordingTime, this`recorder, this`pendingStop
      ensures Valid()
      ensures old(isRecording) && !old(isPaused) ==> recordingTime == TimerStep(old(recordingTime))
      ensures !(old(isRecording) && !old(isPaused)) ==> recordingTime == old(recordingTime)
      ensures old(isRecording) && !old(isPaused) && old(recordingTime) >= MaxRecordingSeconds && old(CanStop())
              ==> recorder == Some(old(recorder).value.(state := Inactive)) && pendingStop
      ensures !(old(isRecording) && !old(isPaused) && old(recordingTime) >= MaxRecordingSeconds && old(CanStop()))
              ==> recorder == old(recorder) && pendingStop == old(pendingStop)
    {
      if isRecording && !isPaused {
        if recordingTime >= MaxRecordingSeconds {
          StopRecording();
        } else {
          recordingTime := recordingTime + 1;
        }
      }
    }

    /** `togglePause`: nothing without a recorder; otherwise resume when paused and pause
        when not. On an inactive recorder `pause()`/`resume()` throw before the flag is set,
        so nothing changes. */
    method TogglePause()
      requires Valid()
      modifies this`isPaused, this`recorder
      ensures Valid()
      ensures old(recorder).None? || old(recorder).value.state == Inactive
              ==> isPaused == old(isPaused) && recorder == old(recorder)
      ensures old(recorder).Some? && old(recorder).value.state != Inactive ==>
                isPaused == !old(isPaused) &&
                recorder == Some(old(recorder).value.(state := if old(isPaused) then Recording else Paused))
    {
      if recorder.None? {
        return;
      }
      if recorder.value.state == Inactive {
        return;
      }
      if isPaused {
        recorder := Some(recorder.value.(state := Recording));
        isPaused := false;
      } else {
        recorder := Some(recorder.value.(state := Paused));
        isPaused := true;
      }
    }

    /** `ondataavailable`: a chunk is kept only when it holds data. */
    method OnDataAvailable(chunk: Blob)
      requires Valid()
      modifies this`chunks
      ensures Valid()
      ensures chunks == Accumulate(old(chunks), [chunk])
    {
      assert [chunk][..0] == [];
      if chunk.Size() > 0 {
        chunks := chunks + [chunk];
      }
    }

    /** `stopStreamTracks`: every track of the stream, if there is one, is stopped. */
    method StopStreamTracks(s: Option<Stream>)
      modifies this`liveTracks
      ensures liveTracks == old(liveTracks) - TrackSetOf(s)
    {
      if s.Some? {
        var tracks := s.value.Tracks();
        for i := 0 to |tracks|
          invariant liveTracks == old(liveTracks) - SetOf(tracks[..i])
        {
          assert tracks[..i + 1] == tracks[..i] + [tracks[i]];
          liveTracks := liveTracks - {tracks[i]};
        }
        assert tracks[..|tracks|] == tracks;
      }
    }

    /** The clean-up in `onstop`: the final stream and the given screen stream are
        stopped, and the audio context in the ref, if any, is closed. */
    method ReleaseMedia(screen: Stream)
      requires FreshHandles()
      modifies this`liveTracks, this`closedContexts
      ensures FreshHandles()
      ensures liveTracks == old(liveTracks) - TrackSetOf(stream) - TrackSetOf(Some(screen))
      ensures closedContexts == old(closedContexts) + (if audioContext.Some? then [audioContext.value] else [])
    {
      StopStreamTracks(stream);
      StopStreamTracks(Some(screen));
      if audioContext.Some? {
        closedContexts := closedContexts + [audioContext.value];
      }
    }

    /** The recorder's `onstop`: the buffer becomes one blob of the recorder's type, which is
        handed over with its URL; the final and the screen streams are stopped; the audio
        context in the ref, if any, is closed; and the flags and the analyser are reset. */
    method OnStop(url: string)
      requires Valid() && pendingStop
      modifies this`delivered, this`liveTracks, this`closedContexts, this`isRecording,
               this`isPaused, this`analyser, this`pendingStop
      ensures Valid()
      ensures delivered == old(delivered) + [Delivery(url, Blob(Concat(chunks), recorder.value.mimeType))]
      ensures liveTracks == old(liveTracks) - TrackSetOf(stream) - TrackSetOf(Some(recorder.value.screen))
      ensures closedContexts == old(closedContexts) + (if audioContext.Some? then [audioContext.value] else [])
      ensures !isRecording && !isPaused && analyser == None && !pendingStop
    {
      var blob := Blob(Concat(chunks), recorder.value.mimeType);
      delivered := delivered + [Delivery(url, blob)];
      ReleaseMedia(recorder.value.screen);
      isRecording := false;
      isPaused := false;
      analyser := None;
      pendingStop := false;
    }

    /** Display capture succeeded: a screen stream of one video track and `a` audio tracks
        is acquired. */
    method AcquireScreen(a: nat) returns (screen: Stream)
      requires FreshHandles()
      modifies this`nextTrack, this`liveTracks
      ensures FreshHandles()
      ensures screen == ScreenStream(old(nextTrack), a)
      ensures nextTrack == old(nextTrack) + 1 + a
      ensures liveTracks == old(liveTracks) + SetOf(screen.Tracks())
    {
      screen := ScreenStream(nextTrack, a);
      nextTrack := nextTrack + 1 + a;
      liveTracks := liveTracks + SetOf(screen.Tracks());
    }

    /** The audio-mixing block applied to the session, for the screen stream numbered from
        `base`: the audio context ref, the microphone's tracks, the mix destination's track,
        the analyser, and the stream to record. */
    method MixAudio(settings: AppModel.AppSettings, screen: Stream, a: nat, base: TrackId, contextOk: bool, mic: MicOutcome)
      returns (final: Stream)
      requires FreshHandles()
      requires screen == ScreenStream(base, a) && nextTrack == base + 1 + a
      modifies this`nextTrack, this`liveTracks, this`audioContext, this`contextsCreated, this`analyser
      ensures FreshHandles()
      ensures final == RecordedStream(settings, a, contextOk, mic, base)
      ensures liveTracks == old(liveTracks) + SetOf(Range(base + 1 + a, MicTracks(settings, contextOk, mic)))
                            + (if RouteAudio(settings, a, contextOk, mic).mixed
                               then {DestinationTrack(settings, a, contextOk, mic, base)} else {})
      ensures analyser == (if RouteAudio(settings, a, contextOk, mic).micConnected then Some(Microphone) else old(analyser))
      ensures audioContext == (if RouteAudio(settings, a, contextOk, mic).contextCreated
                               then Some(old(contextsCreated)) else old(audioContext))
    {
      final := screen;
      var g := RouteAudio(settings, a, contextOk, mic);
      if g.contextCreated {
        audioContext := Some(contextsCreated);
        contextsCreated := contextsCreated + 1;
      }
      var m := MicTracks(settings, contextOk, mic);
      liveTracks := liveTracks + SetOf(Range(nextTrack, m));
      nextTrack := nextTrack + m;
      if g.micConnected {
        analyser := Some(Microphone);
      }
      if g.mixed {
        var dest := nextTrack;
        nextTrack := nextTrack + 1;
        liveTracks := liveTracks + {dest};
        final := Stream(screen.videoTracks, [dest]);
      }
    }

    /** The `catch` of `startRecording`: the exception's message, or the default one, becomes
        the error, and recording is off. */
    method Fail(message: string)
      modifies this`error, this`isRecording
      ensures error == Some(ErrorMessage(message)) && !isRecording
    {
      error := Some(ErrorMessage(message));
      isRecording := false;
    }

    /** `new MediaRecorder(...)` and `start(1000)`: a constructor exception leaves the ref as
        it was; a start exception leaves the new, inactive recorder in the ref; either one
        ends the attempt with its message. */
    method CreateRecorder(final: Stream, screen: Stream, mimeType: string, bitsPerSecond: nat,
                          outcome: RecorderOutcome)
      requires RecorderAgrees() && !isRecording && !pendingStop
      modifies this`recorder, this`error, this`isRecording
      ensures RecorderAgrees()
      ensures isRecording <==> outcome.Started?
      ensures error == (if outcome.Started? then old(error) else Some(ErrorMessage(outcome.message)))
      ensures recorder == if outcome.ConstructorFailed? then old(recorder)
                          else Some(MediaRecorder(final, screen, mimeType, bitsPerSecond, TimesliceMs,
                                                  if outcome.Started? then Recording else Inactive))
    {
      match outcome {
        case ConstructorFailed(message) =>
          Fail(message);
        case StartFailed(message) =>
          recorder := Some(MediaRecorder(final, screen, mimeType, bitsPerSecond, TimesliceMs, Inactive));
          Fail(message);
        case Started =>
          recorder := Some(MediaRecorder(final, screen, mimeType, bitsPerSecond, TimesliceMs, Recording));
          isRecording := true;
      }
    }

    /** The handle counters and the fields the capture steps replace. */
    function Handles(): HandleState
      reads this`nextTrack, this`contextsCreated, this`recorder, this`analyser, this`audioContext,
            this`liveTracks
    {
      HandleState(nextTrack, contextsCreated, recorder, analyser, audioContext, liveTracks)
    }

    /** What the capture steps leave behind in the stream and audio fields, from the state
        `before` them: the stream to record (the mixed stream exactly when the audio block
        completed); the tracks acquired on the way; the analyser, set only when the
        microphone was connected; and the audio context ref, replaced only when a context
        was created. */
    predicate StreamsCaptured(settings: AppModel.AppSettings, a: nat, contextOk: bool, mic: MicOutcome,
                              before: HandleState)
      reads this`stream, this`liveTracks, this`analyser, this`audioContext
    {
      var g := RouteAudio(settings, a, contextOk, mic);
      && stream == Some(RecordedStream(settings, a, contextOk, mic, before.nextTrack))
      && liveTracks == before.liveTracks + SetOf(ScreenStream(before.nextTrack, a).Tracks())
                       + SetOf(Range(before.nextTrack + 1 + a, MicTracks(settings, contextOk, mic)))
                       + (if g.mixed then {DestinationTrack(settings, a, contextOk, mic, before.nextTrack)} else {})
      && analyser == (if g.micConnected then Some(Microphone) else before.analyser)
      && audioContext == (if g.contextCreated then Some(before.contextsCreated) else before.audioContext)
    }

    /** The recorder the capture steps leave in the ref: none new when its constructor
        threw, an inactive one when `start` threw, and otherwise a recording one, made for
        the recorded stream with the first supported MIME type and the preset's bitrate. */
    predicate RecorderCaptured(cfg: RecordingSettings, settings: AppModel.AppSettings, a: nat, contextOk: bool,
                               mic: MicOutcome, supported: set<string>, outcome: RecorderOutcome, before: HandleState)
      reads this`recorder
    {
      recorder == (if outcome.ConstructorFailed? then before.recorder
                   else Some(MediaRecorder(RecordedStream(settings, a, contextOk, mic, before.nextTrack),
                                           ScreenStream(before.nextTrack, a), SelectMimeType(supported),
                                           cfg.videoBitsPerSecond, TimesliceMs,
                                           if outcome.Started? then Recording else Inactive)))
    }

    /** Everything the capture steps leave behind. */
    predicate Captured(cfg: RecordingSettings, settings: AppModel.AppSettings, a: nat, contextOk: bool,
                       mic: MicOutcome, supported: set<string>, outcome: RecorderOutcome, before: HandleState)
      reads this`stream, this`recorder, this`liveTracks, this`analyser, this`audioContext
    {
      StreamsCaptured(settings, a, contextOk, mic, before)
      && RecorderCaptured(cfg, settings, a, contextOk, mic, supported, outcome, before)
    }

    /** Screen acquisition and the audio block: the stream to record is stored in the ref. */
    method CaptureStreams(settings: AppModel.AppSettings, a: nat, contextOk: bool, mic: MicOutcome)
      returns (screen: Stream, final: Stream)
      requires FreshHandles()
      modifies this`nextTrack, this`liveTracks, this`audioContext, this`contextsCreated, this`analyser,
               this`stream
      ensures FreshHandles()
      ensures screen == ScreenStream(old(nextTrack), a)
      ensures final == RecordedStream(settings, a, contextOk, mic, old(nextTrack))
      ensures StreamsCaptured(settings, a, contextOk, mic, old(Handles()))
    {
      var base := nextTrack;
      screen := AcquireScreen(a);
      final := MixAudio(settings, screen, a, base, contextOk, mic);
      stream := Some(final);
    }

    /** The part of `startRecording` after display capture succeeded with a screen stream
        of one video track and `a` audio tracks. */
    method Capture(cfg: RecordingSettings, settings: AppModel.AppSettings, a: nat, contextOk: bool,
                   mic: MicOutcome, supported: set<string>, outcome: RecorderOutcome)
      requires FreshHandles() && RecorderAgrees() && !isRecording
      modifies this`error, this`isRecording, this`nextTrack, this`liveTracks, this`audioContext,
               this`contextsCreated, this`analyser, this`stream, this`recorder
      ensures FreshHandles() && RecorderAgrees()
      ensures isRecording <==> outcome.Started?
      ensures error == (if outcome.Started? then old(error) else Some(ErrorMessage(outcome.message)))
      ensures Captured(cfg, settings, a, contextOk, mic, supported, outcome, old(Handles()))
    {
      ghost var before := Handles();
      var screen, finalStream := CaptureStreams(settings, a, contextOk, mic);
      assert StreamsCaptured(settings, a, contextOk, mic, before);
      CreateRecorder(finalStream, screen, SelectMimeType(supported), cfg.videoBitsPerSecond, outcome);
      assert RecorderCaptured(cfg, settings, a, contextOk, mic, supported, outcome, before);
    }

    /** The rest of `startRecording` once display capture has answered: its exception ends
        the attempt at once; otherwise the capture steps run. */
    method AfterDisplay(cfg: RecordingSettings, settings: AppModel.AppSettings, display: DisplayOutcome,
                        contextOk: bool, mic: MicOutcome, supported: set<string>, outcome: RecorderOutcome)
      requires Valid() && !isRecording && error == None
      modifies this`error, this`isRecording, this`nextTrack, this`liveTracks, this`audioContext,
               this`contextsCreated, this`analyser, this`stream, this`recorder
      ensures Valid()
      ensures isRecording <==> display.DisplayGranted? && outcome.Started?
      ensures error == StartError(display, outcome)
      ensures display.DisplayFailed? ==>
                recorder == old(recorder) && stream == old(stream) && analyser == old(analyser) &&
                audioContext == old(audioContext) && liveTracks == old(liveTracks)
      ensures display.DisplayGranted? ==>
                Captured(cfg, settings, if settings.includeSystemAudio then display.audioTracks else 0,
                         contextOk, mic, supported, outcome, old(Handles()))
    {
      match display {
        case DisplayFailed(message) =>
          Fail(message);
        case DisplayGranted(audioTracks) =>
          Capture(cfg, settings, if settings.includeSystemAudio then audioTracks else 0,
                  contextOk, mic, supported, outcome);
      }
    }

    /** The first steps of `startRecording`: the error, the counter and the buffer are
        cleared, and display capture is asked for. */
    method ResetForStart(request: DisplayRequest)
      requires Valid()
      modifies this`error, this`recordingTime, this`chunks, this`displayRequests
      ensures Valid()
      ensures error == None && recordingTime == 0 && chunks == []
      ensures displayRequests == old(displayRequests) + [request]
    {
      error := None;
      recordingTime := 0;
      chunks := [];
      displayRequests := displayRequests + [request];
    }

    /** `startRecording`, with every browser call's outcome as a parameter. The error, the
        counter and the buffer are cleared first; display capture is asked for the active
        preset's size and frame rate, with audio only when system audio is wanted; the audio
        block may replace the screen stream by its screen-video-plus-mix stream; and the
        recorder records that stream with the first supported MIME type. Any exception ends
        the attempt with its message as the error and recording off. */
    method StartRecording(registry: ProfileRegistry, settings: AppModel.AppSettings, display: DisplayOutcome,
                          contextOk: bool, mic: MicOutcome, supported: set<string>, outcome: RecorderOutcome)
      requires Valid() && !isRecording
      modifies this`error, this`recordingTime, this`chunks, this`displayRequests, this`isRecording,
               this`nextTrack, this`liveTracks, this`audioContext, this`contextsCreated,
               this`analyser, this`stream, this`recorder
      ensures Valid()
      ensures chunks == [] && recordingTime == 0 && isPaused == old(isPaused) && !pendingStop
      ensures displayRequests == old(displayRequests) + [RequestFor(registry.GetActiveRecordingProfile().recording, settings)]
      ensures delivered == old(delivered) && closedContexts == old(closedContexts)
      ensures isRecording <==> display.DisplayGranted? && outcome.Started?
      ensures error == StartError(display, outcome)
      ensures display.DisplayFailed? ==>
                recorder == old(recorder) && stream == old(stream) && analyser == old(analyser) &&
                audioContext == old(audioContext) && liveTracks == old(liveTracks)
      ensures display.DisplayGranted? ==>
                Captured(registry.GetActiveRecordingProfile().recording, settings,
                         if settings.includeSystemAudio then display.audioTracks else 0,
                         contextOk, mic, supported, outcome, old(Handles()))
    {
      var cfg := registry.GetActiveRecordingProfile().recording;
      ghost var before := Handles();
      ResetForStart(RequestFor(cfg, settings));
      assert Handles() == before;
      AfterDisplay(cfg, settings, display, contextOk, mic, supported, outcome);
    }
  }

  /** The `catch` of `startRecording` stops nothing: whatever the recorder's outcome, the
      screen stream's tracks and the microphone's tracks acquired on the way stay live. */
  lemma CaptureKeepsTracksLive(s: Session, settings: AppModel.AppSettings, a: nat, contextOk: bool,
                               mic: MicOutcome, before: HandleState)
    requires s.StreamsCaptured(settings, a, contextOk, mic, before)
    ensures forall t :: t in ScreenStream(before.nextTrack, a).Tracks() ==> t in s.liveTracks
    ensures forall t :: t in Range(before.nextTrack + 1 + a, MicTracks(settings, contextOk, mic)) ==> t in s.liveTracks
  {
  }

  /** The context ref outlives a recording: a capture that creates no context keeps the
      previous one in the ref, and the next `onstop` closes that context again. */
  lemma ContextRefOutlivesRecording(s: Session, settings: AppModel.AppSettings, a: nat, contextOk: bool,
                                    mic: MicOutcome, before: HandleState)
    requires s.StreamsCaptured(settings, a, contextOk, mic, before)
    requires !RouteAudio(settings, a, contextOk, mic).contextCreated
    ensures s.audioContext == before.audioContext
  {
  }
}
