# Screen recorder core, modelled in Dafny

This project models the logic underneath a browser screen recorder, which captures the
screen as WebM and can convert clips to MP4 with an in-browser encoder. The model covers:

- the **capture session** of the recorder hook: display capture, the microphone and
  system-audio mix, MIME-type choice, one-second chunks, the timer with its 30-minute
  ceiling, pause and resume, stopping, and the teardown when the recorder stops;
- the **export job** of the library view: the WebM download, the MP4 conversion state
  (`convertingId`, `conversionProgress`), the cached encoder, the encoder's fixed command
  line, the encoder-log progress parser, file-name sanitising, the duration label, and the
  buttons disabled during a conversion;
- the **profile registry**: four recording/export presets and the active-preset selector;
- the **recording store** of the app shell: the newest-first list, save, delete with URL
  revocation, view switching and the audio settings;
- the recorder view's **clock, status line and preview flow**, and the settings view's
  two **audio toggles**.

Browser and encoder calls are oracles. Their outcomes are parameters, for example whether
display capture succeeded and with how many audio tracks, whether the microphone was
granted, whether the recorder's constructor or `start` threw, or which step of the
conversion threw. Media tracks are numbered handles, and the set of live handles records
what has been acquired and not yet stopped. Calls with an effect outside the app are
appended to logs: downloads, revoked URLs, closed audio contexts, `onRecordingComplete`
and `onSave` calls, the encoder's command lines, and the display-capture requests.
Identifiers, dates and the thumbnail are parameters as well.

Files, one module each (`progress_parser.dfy` holds two):

| file | module | models |
|---|---|---|
| base.dfy | `Base` | Option, bytes, Blob and the bytes of `new Blob(parts)` |
| text.dfy | `Text` | decimal numerals, `padStart`, `indexOf`/`includes`, reading "m:ss" back |
| recording_config.dfy | `RecordingConfig` | hooks/recordingConfig.ts |
| app.dfy | `AppModel` | App.tsx |
| settings_view.dfy | `SettingsPanel` | components/SettingsView.tsx |
| recorder_view.dfy | `RecorderPanel` | components/RecorderView.tsx |
| use_recorder.dfy | `CaptureSession` | hooks/useRecorder.ts |
| progress_parser.dfy | `ProgressParser`, `ProgressExamples` | the log listener in components/LibraryView.tsx |
| library_view.dfy | `LibraryPanel` | the rest of components/LibraryView.tsx |

The model follows the code, including these behaviours of it:

- **Progress is not monotone.** Each encoder log line overwrites the progress with its own
  value, so `ProgressExamples.ProgressCanDecrease` shows a later line lowering it.
- **No guard in `startRecording`.** Nothing in the hook stops a second start. The view
  shows the start button only while `isRecording` is false, but that flag becomes true
  only after the display and microphone requests have completed, so the button stays
  clickable while they are pending. `CaptureSession.Session.StartRecording` models one
  start as a single step and requires `!isRecording`; overlapping starts are not modelled.
- **No job-already-running error.** A second conversion is not rejected with an error.
  The WebM, MP4 and Discard buttons are only disabled while `convertingId` is a non-empty
  string. This is `LibraryPanel.LibraryState.ButtonsDisabled`. That state lives in the
  library view, which is unmounted when another view is selected, so leaving the view and
  coming back re-enables the buttons while a conversion still runs (see "## Left out").
- **A failed start releases nothing.** When the recorder's constructor or `start` throws,
  the `catch` only sets the error and clears the recording flag. The screen and
  microphone tracks acquired on the way stay live, as `CaptureSession.CaptureKeepsTracksLive`
  shows, and no audio context is closed.
- **The audio context ref is never cleared.** After a recording with audio, a later
  recording that creates no context keeps the old one in the ref
  (`CaptureSession.ContextRefOutlivesRecording`), so its `onstop` closes that context
  again (`CaptureSession.Session.ReleaseMedia`).

## Model

| member | source | states |
|---|---|---|
| Base.Concat | hooks/useRecorder.ts:145 | The blob of the chunk buffer holds exactly as many bytes as all chunks together. |
| Base.ConcatSplit | hooks/useRecorder.ts:145 | The bytes of a blob made from two lists of parts are the bytes of the first list followed by those of the second. |
| Base.PartInPlace | hooks/useRecorder.ts:140-145 | Every chunk's bytes appear unchanged in the final blob, right after the bytes of the chunks before it. |
| Text.NatToString | components/RecorderView.tsx:89 | `toString()` of a non-negative integer: a non-empty digit string without a leading zero, one digit exactly below 10 and two exactly from 10 to 99. |
| Text.DigitsValueOfNatToString | components/LibraryView.tsx:86 | `parseInt` reads a printed number back as the number. |
| Text.NatToStringInjective | components/LibraryView.tsx:107-110 | Different numbers print differently, so a printed setting determines the setting. |
| Text.PadStart | components/RecorderView.tsx:89 | `padStart(width, c)`: the text is at least `width` long, ends with the original text and is filled with `c` in front. |
| Text.PaddedNumeral | components/LibraryView.tsx:30 | A zero-padded printed number is all digits and reads back as the number. |
| Text.IndexOf | components/LibraryView.tsx:81 | `includes`/`indexOf`: the first position at or after the start where the pattern occurs, with no earlier one; none when it occurs nowhere. |
| RecordingConfig.RecordingProfiles | hooks/recordingConfig.ts:36-109 | In every preset the export frame rate equals the capture frame rate and the export width equals the capture width; both are positive, as are the height and the bitrate. |
| RecordingConfig.ProfilesOrdered | hooks/recordingConfig.ts:39-107 | From low to medium to high to server, the video bitrate and the advised MP4 length strictly increase and the quality factor strictly decreases. |
| RecordingConfig.ProfileRegistry.constructor | hooks/recordingConfig.ts:114 | The active preset starts as medium. |
| RecordingConfig.ProfileRegistry.SetActiveRecordingProfileId | hooks/recordingConfig.ts:116-124 | After setting an id, the id getter returns it and the profile getter returns that id's table entry. |
| RecordingConfig.ProfileRegistry.GetActiveRecordingProfile | hooks/recordingConfig.ts:122-124 | Total: the active profile is always one of the table's entries, with matching export and capture frame rates. |
| AppModel.RecordingTitle | App.tsx:62 | A new recording's title is "Recording " followed by the date, a space and the time, so its length is 11 plus theirs. |
| AppModel.FindIndex | App.tsx:74 | `find` by id: the index of the first recording with the id, with none before it; none exactly when no recording has it. |
| AppModel.WithoutId | App.tsx:76 | `filter` by id: a recording survives exactly when it was in the list and its id differs. |
| AppModel.WithoutIdAppend | App.tsx:76 | Filtering keeps relative order: filtering a concatenation concatenates the filtered halves. |
| AppModel.WithoutAbsentId | App.tsx:74-76 | Deleting an id no recording carries leaves the list unchanged. |
| AppModel.WithoutIdIdempotent | App.tsx:72-77 | A second delete of the same id leaves the list unchanged. |
| AppModel.AppStore.constructor | App.tsx:26-31 | The app starts on the recorder view with no recordings and both audio sources on. |
| AppModel.AppStore.HandleSaveRecording | App.tsx:54-70 | Saving puts exactly one new recording, with the given id, URL, blob, title, time, duration and thumbnail, in front of the unchanged list and shows the library. |
| AppModel.AppStore.HandleDeleteRecording | App.tsx:72-78 | Deleting drops every recording with the id and keeps the rest. It revokes the URL of the first match, or nothing when there is none. View and settings stay. |
| AppModel.AppStore.SetCurrentView | App.tsx:80-82 | A navigation click shows exactly that button's view and changes nothing else. |
| AppModel.AppStore.SetSettings | App.tsx:131-135 | The settings view's update replaces the settings and changes nothing else. |
| SettingsPanel.ToggleMic | components/SettingsView.tsx:12 | The microphone flag is negated and the system-audio flag kept. |
| SettingsPanel.ToggleSys | components/SettingsView.tsx:13 | The system-audio flag is negated and the microphone flag kept. |
| SettingsPanel.TogglesInvolutive | components/SettingsView.tsx:12-13 | Each toggle applied twice gives back the original settings, and the two toggles commute. |
| RecorderPanel.FormatTime | components/RecorderView.tsx:86-90 | The clock is at least five characters: a minute numeral reading as seconds / 60, exactly two digits below ten minutes and otherwise the unpadded numeral, a colon, and exactly two second digits reading as seconds mod 60. |
| RecorderPanel.FormatTimeWidth | components/RecorderView.tsx:86-90 | Below 6000 seconds the clock is exactly five characters: two digits, a colon, two digits. |
| RecorderPanel.FormatTimeRoundTrip | components/RecorderView.tsx:86-90 | For every duration, reading the clock back as minutes times 60 plus seconds gives the duration. |
| RecorderPanel.StatusLabel | components/RecorderView.tsx:139 | "Ready" exactly when not recording, "Paused" exactly when recording and paused, "Recording" exactly when recording and not paused. |
| RecorderPanel.Preview.constructor | components/RecorderView.tsx:12-13 | No preview URL, no blob, no saves. |
| RecorderPanel.Preview.ShowsPreview | components/RecorderView.tsx:92 | The preview screen shows only when there are both a preview URL and a blob. |
| RecorderPanel.Preview.HandleRecordingComplete | components/RecorderView.tsx:15-18 | Both preview fields are set, no save is made, and the preview screen shows for a non-empty URL. |
| RecorderPanel.Preview.Discard | components/RecorderView.tsx:102-105 | Both fields are cleared without any `onSave` call; the preview screen goes away. |
| RecorderPanel.Preview.Save | components/RecorderView.tsx:112-115 | Exactly one `onSave` with the previewed blob and the recording time, then both fields are cleared. |
| CaptureSession.RequestFor | hooks/useRecorder.ts:58-65 | Display capture is asked for the preset's width, height and frame rate, with audio exactly when system audio is wanted. |
| CaptureSession.RouteAudio | hooks/useRecorder.ts:73-118 | An audio context is created only when a flag is set and creation succeeds. The microphone is asked for only then. It is connected, with the analyser, only when granted with at least one track. System audio is connected only when wanted and present. The mix replaces the stream unless the block threw. |
| CaptureSession.ErrorMessage | hooks/useRecorder.ts:166 | The error is the exception's message, or "Failed to start" when that is empty; never empty. |
| CaptureSession.StartError | hooks/useRecorder.ts:164-168 | After a start, there is no error exactly when display capture succeeded and the recorder started. A display failure's message wins. |
| CaptureSession.FirstSupported | hooks/useRecorder.ts:127-131 | `find`: the index of the first supported candidate, with no supported one before; none when no candidate is supported. |
| CaptureSession.SelectMimeType | hooks/useRecorder.ts:127-131 | The MIME type is "" exactly when no candidate is supported. Otherwise it is supported and no earlier candidate is. |
| CaptureSession.MimeFallbacks | hooks/useRecorder.ts:126-131 | VP9 when supported, else VP8, else plain WebM. |
| CaptureSession.Accumulate | hooks/useRecorder.ts:138-142 | After a run of `dataavailable` events the old buffer is a prefix, and every chunk added is non-empty and came from the events. |
| CaptureSession.AccumulatedBytes | hooks/useRecorder.ts:138-145 | Dropping empty chunks loses no bytes: the final blob's bytes are the old buffer's followed by every event's, in arrival order. |
| CaptureSession.TimerStep | hooks/useRecorder.ts:27-33 | One timer firing raises the counter by at most one, and from within the 1800 ceiling it stays within it. |
| CaptureSession.Ticks | hooks/useRecorder.ts:24-41 | n firings never lower the counter and raise it by at most n; from within the ceiling they stay within it. |
| CaptureSession.TicksClamp | hooks/useRecorder.ts:24-41 | From any value within the ceiling, n timer ticks add n and stop at 1800, so the counter never passes 1800. |
| CaptureSession.ScreenStream | hooks/useRecorder.ts:58-65 | A granted screen stream has one video track and the granted number of audio tracks. |
| CaptureSession.RecordedStream | hooks/useRecorder.ts:107-113 | The recorded stream is the screen's video track plus the mix destination's track when the audio block completed, and the screen stream otherwise. |
| CaptureSession.CaptureKeepsTracksLive | hooks/useRecorder.ts:164-168 | A corollary of `StreamsCaptured` (the state `Capture` leaves): whatever the recorder's outcome, the screen and microphone tracks acquired during a start stay live, since the `catch` stops none of them. |
| CaptureSession.ContextRefOutlivesRecording | hooks/useRecorder.ts:73-76 | A corollary of `StreamsCaptured`: a capture that creates no audio context keeps the previous context in the ref, which `ReleaseMedia` then closes again. |
| CaptureSession.Session.constructor | hooks/useRecorder.ts:11-21 | Not recording, not paused, time 0, no error, analyser, recorder, stream or audio context, empty buffer, no live tracks. |
| CaptureSession.Session.CanStop | hooks/useRecorder.ts:172 | `stop()` is forwarded only when there is a recorder, and only when it is not inactive. |
| CaptureSession.Session.StopRecording | hooks/useRecorder.ts:171-175 | Stopping (also the screen track's `ended` handler, lines 120-122) makes an active recorder inactive with its stop event pending. For no recorder or an inactive one it changes nothing, so repeated stops are harmless. |
| CaptureSession.Session.Tick | hooks/useRecorder.ts:24-41 | The timer counts only while recording and not paused, by one per tick. At 1800 or more it stops the recorder and keeps the value. Otherwise the recorder is untouched. |
| CaptureSession.Session.TogglePause | hooks/useRecorder.ts:177-186 | Without an active recorder nothing changes. Otherwise paused resumes and unpaused pauses, with the flag following the recorder. |
| CaptureSession.Session.OnDataAvailable | hooks/useRecorder.ts:138-142 | The buffer becomes the specification `Accumulate` of the old buffer and the chunk. |
| CaptureSession.Session.StopStreamTracks | hooks/useRecorder.ts:43-47 | Exactly the stream's tracks stop being live, and nothing does for a null stream. |
| CaptureSession.Session.ReleaseMedia | hooks/useRecorder.ts:149-154 | The final and the screen streams' tracks stop, and the audio context in the ref, if any, is closed once. |
| CaptureSession.Session.OnStop | hooks/useRecorder.ts:144-158 | Exactly one delivery of a blob of the buffer's bytes in the recorder's type, the teardown above, and recording, pause and analyser reset. |
| CaptureSession.Session.AcquireScreen | hooks/useRecorder.ts:58-65 | The screen stream's tracks are fresh handles and become live. |
| CaptureSession.Session.MixAudio | hooks/useRecorder.ts:72-118 | The audio block's effect on the session as decided by `RouteAudio`: context ref, microphone and destination tracks, analyser and recorded stream. |
| CaptureSession.Session.Fail | hooks/useRecorder.ts:164-168 | The catch: the error is the message or the default, and recording is off. |
| CaptureSession.Session.CreateRecorder | hooks/useRecorder.ts:133-162 | A constructor exception leaves the ref as it was. A `start` exception leaves an inactive recorder in it. Otherwise a recording one is there with a one-second timeslice and recording is on. |
| CaptureSession.Session.CaptureStreams | hooks/useRecorder.ts:57-124 | The stream ref holds the recorded stream, and acquired tracks, analyser and context are as `StreamsCaptured` says. |
| CaptureSession.Session.Capture | hooks/useRecorder.ts:57-162 | After a granted display capture the session is as `Captured` says; recording is on exactly when the recorder started. |
| CaptureSession.Session.AfterDisplay | hooks/useRecorder.ts:54-168 | A display failure ends the attempt with its message and touches no handle; otherwise the capture steps run. |
| CaptureSession.Session.ResetForStart | hooks/useRecorder.ts:50-52 | Error cleared, time 0 and empty buffer, then one display request. |
| CaptureSession.Session.StartRecording | hooks/useRecorder.ts:49-169 | Clears first; makes one display request for the active preset. Recording is on exactly when display capture succeeded and the recorder started; the error is `StartError`. A display failure leaves all handles. A success leaves what `Captured` says. Delivered blobs, closed contexts and the pause flag stay. |
| ProgressParser.RunFacts | components/LibraryView.tsx:82-83 | A greedy `\d`/`\s` run: every character in it is in the class and the next one is not. |
| ProgressParser.MatchAt | components/LibraryView.tsx:82-83 | A match at an index starts with the pattern's literal. Its groups have the pattern's shape: one non-empty numeral for `frame=`; two non-empty numerals and a decimal for `time=`. |
| ProgressParser.DecimalAt | components/LibraryView.tsx:83 | What `\d+\.\d+` captures at an index is a decimal numeral. It is exactly the text at that index, and no digit follows it. |
| ProgressParser.Exec | components/LibraryView.tsx:82-83 | `match`: the groups of the leftmost matching index at or after the start, with no match before it; none exactly when no index matches. |
| ProgressParser.ExecFinds | components/LibraryView.tsx:82-83 | When k is the first index where the pattern matches, `match` returns the groups matched at k. |
| ProgressParser.DecimalValue | components/LibraryView.tsx:92 | `parseFloat` of a decimal numeral is never negative. |
| ProgressParser.DecimalValueOf | components/LibraryView.tsx:92 | For digit blocks w and f, "w.f" is a decimal numeral, and `parseFloat` gives w plus f over ten to the number of f's digits. |
| ProgressParser.ExecShape | components/LibraryView.tsx:82-83 | A frame match has one all-digit group. A time match has two all-digit groups and a decimal one. |
| ProgressParser.TotalFrames | components/LibraryView.tsx:78 | `Math.max(1, duration × fps)`: at least 1 and at least duration × fps, and equal to one of the two. |
| ProgressParser.FramePercent | components/LibraryView.tsx:86-87 | In [0, 100]; exactly 100 once the frame reaches the total; otherwise exactly frame / total × 100. |
| ProgressParser.TimePercent | components/LibraryView.tsx:90-94 | In [0, 100] when a number. NaN exactly for time 0 of a 0-second clip, and 100 for a positive time on a 0-second clip. 100 once the time reaches the duration; otherwise exactly seconds / duration × 100. |
| ProgressParser.TokenSeconds | components/LibraryView.tsx:90-93 | The h:m:s token's seconds are never negative; `ClockPercent` gives their exact value. |
| ProgressParser.LineProgress | components/LibraryView.tsx:80-98 | A line sets the progress only when it mentions both tokens, and then always to a value in [0, 100] or, for a 0-second clip's time line, NaN. A frame match always gives a number. A line matching neither pattern changes nothing. |
| ProgressExamples.FrameLine | components/LibraryView.tsx:81-88 | A line starting with "frame=", optional spaces and a number, followed by text containing "time=", sets the frame percentage of that number. |
| ProgressExamples.FrameMatchLine | components/LibraryView.tsx:81-88 | Any line mentioning both tokens whose leftmost frame match, wherever it lies, captures d sets the progress to the frame percentage of d, and d is all digits. |
| ProgressExamples.FrameWithoutNumber | components/LibraryView.tsx:82 | "frame=" followed by neither white space nor a digit is not a frame match. |
| ProgressExamples.ClockMatch | components/LibraryView.tsx:83 | A clock token "time=hh:mm:w.f" of digit blocks, ended by the end of the line or a non-digit, matches the time pattern with groups hh, mm and "w.f". |
| ProgressExamples.ClockPercent | components/LibraryView.tsx:90-94 | The time groups hh, mm, "w.f" give exactly hh × 3600 + mm × 60 + w + f / 10^|f| seconds, and the percentage of that. |
| ProgressExamples.TimeFallback | components/LibraryView.tsx:81-95 | A line with both tokens, no frame match and time groups hh, mm, "w.f" sets the time percentage of that clock. |
| ProgressExamples.TimeLine | components/LibraryView.tsx:80-95 | Any line that mentions "frame=" with no frame number, and whose first "time=" starts a well-formed clock hh:mm:w.f, sets the progress to the time percentage of hh × 3600 + mm × 60 + w + f / 10^|f| seconds. |
| ProgressExamples.HalfWay | components/LibraryView.tsx:78-87 | Frame 45 of a 3-second clip at 30 fps is 50 percent. |
| ProgressExamples.FrameExample | components/LibraryView.tsx:81-88 | The encoder's stats line at frame 45 of that clip sets the progress to 50. |
| ProgressExamples.TimeExample | components/LibraryView.tsx:85-95 | The line "frame=N/A time=00:00:01.50" of a 3-second clip at 30 fps falls back on its clock and sets the progress to 50. |
| ProgressExamples.ProgressCanDecrease | components/LibraryView.tsx:85-88 | A line at frame 60 gives 66.7 percent, and a later one at frame 30 overwrites it with 33.3. |
| LibraryPanel.SanitizeTitle | components/LibraryView.tsx:64 | Same length; every ':' and '/' becomes '-' and every other character stays. |
| LibraryPanel.SanitizedIsClean | components/LibraryView.tsx:64 | A sanitised title has neither separator, and sanitising twice is sanitising once. |
| LibraryPanel.ExportFileName | components/LibraryView.tsx:121 | The download name is the sanitised title followed by "." and the extension. |
| LibraryPanel.FormatDurationRoundTrip | components/LibraryView.tsx:27-31 | For every duration the label reads back, as minutes times 60 plus seconds, as the duration. |
| LibraryPanel.FormatDurationSeconds | components/LibraryView.tsx:27-31 | The label starts with the printed minute count secs / 60, then a colon, then exactly two second digits. |
| LibraryPanel.FormatDuration | components/LibraryView.tsx:27-31 | The label is at least four characters: a minute numeral reading as secs / 60, a colon and exactly two second digits reading as secs mod 60. |
| LibraryPanel.ScaleFilter | components/LibraryView.tsx:107 | The video filter is "scale=", the width's numeral, then exactly ":-2,fps=" and the frame rate's numeral. |
| LibraryPanel.ExportArgs | components/LibraryView.tsx:105-116 | Eighteen arguments, reading from input.webm and writing output.mp4. |
| LibraryPanel.ScaleFilterInjective | components/LibraryView.tsx:107 | The filter text determines the scale width and the frame rate. |
| LibraryPanel.ExportArgsInjective | components/LibraryView.tsx:105-116 | The command line carries the preset: equal command lines mean equal width, frame rate, quality factor, speed preset and audio bitrate. |
| LibraryPanel.LibraryState.constructor | components/LibraryView.tsx:14-17 | Nothing converting, progress 0, no encoder, no job. |
| LibraryPanel.LibraryState.ButtonsDisabled | components/LibraryView.tsx:209-229 | The WebM, MP4 and Discard buttons are disabled only while a conversion is marked in `convertingId`. |
| LibraryPanel.LibraryState.LoadFFmpeg | components/LibraryView.tsx:33-51 | A cached encoder is returned without a new load. Otherwise one load is made: on success the new instance is cached and returned, on failure nothing is cached and nothing returned. |
| LibraryPanel.LibraryState.HandleExport | components/LibraryView.tsx:33-98 | WebM: one download of the original URL under the sanitised ".webm" name, nothing else touched. MP4: progress 0; a cached encoder is reused with no new load, otherwise exactly one load is made; a failed load clears `convertingId`; otherwise it holds the recording's id, the job has the active export preset, the listener has the clip's frame total, and the buttons are disabled (the store's ids are never empty). |
| LibraryPanel.LibraryState.OnEncoderLog | components/LibraryView.tsx:80-98 | A log line overwrites the progress with `LineProgress` of the job's listener, or leaves it. |
| LibraryPanel.LibraryState.FinishExport | components/LibraryView.tsx:100-131 | The encoder runs with `ExportArgs` unless the write threw. Only success downloads the MP4 under the sanitised ".mp4" name and deletes both scratch files. Always: nothing converting, progress 0, buttons enabled. |
| LibraryPanel.LibraryState.ClickDiscard | components/LibraryView.tsx:228-229 | Discard, possible only while the buttons are enabled, deletes every recording with the card's id from the store and revokes the URL of the first one, or nothing when there is none. View and settings stay. |

## Left out

- Rendering: JSX, styles, icons and the top bar have no logic. So do the playback overlay (`playingUrl`) and `formatSize`, which depends on floating-point `Math.log` and `toFixed`.
- The level visualizer: animation frames, canvas drawing and floating-point averaging. The model keeps only which source the analyser listens to.
- generateThumbnail: DOM video and canvas work. The thumbnail is an opaque string parameter, possibly "".
- Browser and encoder internals: `getDisplayMedia`, `getUserMedia`, audio nodes, MediaRecorder, and the encoder's load, file system and run. Each is an outcome parameter. Media stream objects are track handles.
- Timing and async interleaving: `setInterval` is the explicit `Tick` method. A start runs as one step, with its display and microphone requests inside it; a conversion is `HandleExport` (up to the encoder run), one `OnEncoderLog` per log line while the encoder runs, and `FinishExport` (the write, run and read as one outcome, then the `finally`). Overlapping conversions are not modelled.
- CaptureSession.Session.StartRecording: a second start clicked while the first one is still waiting for the display or microphone request is not modelled. In the code it runs concurrently with the first and overwrites the recorder and stream refs.
- `crypto.randomUUID`, `Date.now` and the locale date and time strings are parameters.
- `alert` and `console` output.
- CaptureSession.Session.CreateRecorder: when "" is requested the browser picks the MIME type itself. The model keeps the requested "" as the recorder's type.
- ProgressParser.DecimalValue: values are exact rationals, not IEEE doubles, so rounding is not modelled. `parseInt` and `parseFloat` of huge numerals are exact too.
- LibraryPanel.LibraryState.OnEncoderLog: only the newest progress listener is kept. Every export registers a listener on the shared cached encoder, and none is removed. All listeners take the same branch on a line, and the newest is called last, so its value is the one that stays.
- LibraryPanel.LibraryState.HandleExport: it requires that no conversion is in flight and that the clicked recording is one of the store's, as every card is rendered from the store's list. Within one mount of the library view, the code lets a click through during a conversion only for a recording whose id is "", and the store never holds one (`AppModel.AppStore.Valid`), since ids come from `randomUUID`. Leaving the view and coming back is a second way, described in the next line.
- LibraryPanel.LibraryState: the class stands for one mount of the library view. The navigation buttons are never disabled, and the app renders only the selected view, so a click elsewhere discards `ffmpegRef`, `convertingId` and `conversionProgress`. On return a fresh view has no encoder and enabled buttons, so the encoder is loaded again and a second conversion can overlap the first. The first job's progress updates and its `finally` reset then go to a view that is no longer shown. The model covers none of this: its cached-encoder reuse and one-conversion-at-a-time guarantees hold per mount only.
- CaptureSession.Session: the class stands for one mount of the recorder view. Leaving the view discards the hook's state and refs, and the timer effect's cleanup clears the interval. A capture left running then gets no ticks, so the stop at 1800 seconds never fires. Its `onstop` delivers the clip to a view that is gone, so the clip is lost. On return the start button is live while the first capture still holds the screen, so a second capture can overlap it. The model does not cover this: its ceiling and teardown guarantees hold per mount only. The same goes for the preview fields of `RecorderPanel.Preview`.
- LibraryPanel.LibraryState.FinishExport: a failing `deleteFile` is not modelled; the object URL of the MP4 is never revoked, as in the code.
- CaptureSession.Session.OnStop: the microphone's tracks are not stopped, as in the code, so they stay in the live-track set.
- CaptureSession.Session.MixAudio: when the microphone is denied, the mix destination created before the request has a track that no stream carries. The model does not count that track as live; in the code it ends only when the context is closed.
- CaptureSession.Session.TogglePause: on a recorder that is already inactive (after `stop()` and before `onstop`), `pause()`/`resume()` throw an uncaught error. The model leaves the state unchanged and does not model the thrown exception.
- CaptureSession.Session.AcquireScreen: the screen stream is assumed to have exactly one video track, so `getVideoTracks()[0]` exists.
