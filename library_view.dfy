/** The library view's export logic: file names, the duration label, the encoder argument
    list, the cached in-browser encoder, and the state of an MP4 conversion (which recording
    is converting and how far it has got) with the buttons it disables. The encoder's file
    system, its run and the downloads are oracles whose outcomes are parameters. */
module LibraryPanel {
  import opened Base
  import opened Text
  import opened RecordingConfig
  import opened AppModel
  import opened ProgressParser

  const InputName: string := "input.webm"
  const OutputName: string := "output.mp4"

  /** `title.replace(/[:/]/g, '-')`. */
  function SanitizeTitle(title: string): (r: string)
    ensures |r| == |title|
    ensures forall i :: 0 <= i < |r| ==> r[i] == if title[i] == ':' || title[i] == '/' then '-' else title[i]
  {
    if title == [] then []
    else [if title[0] == ':' || title[0] == '/' then '-' else title[0]] + SanitizeTitle(title[1..])
  }

  /** A sanitised title holds neither separator, and sanitising it again changes nothing. */
  lemma SanitizedIsClean(title: string)
    ensures forall i :: 0 <= i < |SanitizeTitle(title)| ==> SanitizeTitle(title)[i] != ':' && SanitizeTitle(title)[i] != '/'
    ensures SanitizeTitle(SanitizeTitle(title)) == SanitizeTitle(title)
  {
  }

  /** The downloaded file's name: the sanitised title and the extension. */
  function ExportFileName(title: string, extension: string): (name: string)
    ensures |name| == |title| + 1 + |extension|
    ensures name[..|title|] == SanitizeTitle(title) && name[|title|..] == "." + extension
  {
    SanitizeTitle(title) + "." + extension
  }

  /** `formatDuration`: unpadded minutes, a colon, zero-padded seconds. */
  function FormatDuration(secs: nat): (text: string)
    ensures |text| >= 4 && text[|text| - 3] == ':'
    ensures AllDigits(text[..|text| - 3]) && AllDigits(text[|text| - 2..])
    ensures DigitsValue(text[..|text| - 3]) == secs / 60
    ensures DigitsValue(text[|text| - 2..]) == secs % 60
  {
    var mm, ss := NatToString(secs / 60), PadStart(NatToString(secs % 60), 2, '0');
    DigitsValueOfNatToString(secs / 60);
    PaddedNumeral(secs % 60, 2);
    ClockShape(mm, ss);
    mm + ":" + ss
  }

  /** The duration label reads back as the duration, for every duration. */
  lemma FormatDurationRoundTrip(secs: nat)
    ensures ClockSeconds(FormatDuration(secs)) == Some(secs)
  {
    var mm := NatToString(secs / 60);
    var ss := PadStart(NatToString(secs % 60), 2, '0');
    DigitsValueOfNatToString(secs / 60);
    PaddedNumeral(secs % 60, 2);
    assert FormatDuration(secs) == mm + ":" + ss;
    ClockOfNumerals(mm, ss);
    assert DigitsValue(mm) * 60 + DigitsValue(ss) == secs by {
      assert (secs / 60) * 60 + secs % 60 == secs;
    }
  }

  /** The label is the minute numeral, a colon and exactly two second digits. */
  lemma FormatDurationSeconds(secs: nat)
    ensures |FormatDuration(secs)| == |NatToString(secs / 60)| + 3
    ensures FormatDuration(secs)[..|NatToString(secs / 60)|] == NatToString(secs / 60)
    ensures FormatDuration(secs)[|NatToString(secs / 60)|] == ':'
  {
    var mm, ss := NatToString(secs / 60), PadStart(NatToString(secs % 60), 2, '0');
    assert |NatToString(secs % 60)| <= 2;
    ClockShape(mm, ss);
    assert FormatDuration(secs) == mm + ":" + ss;
  }

  /** The video filter: scale to the preset width keeping the aspect ratio with an even
      height, then resample to the preset frame rate. */
  function ScaleFilter(width: nat, fps: nat): (filter: string)
    ensures |filter| > 6 && filter[..6] == "scale="
    ensures |filter| == 14 + |NatToString(width)| + |NatToString(fps)|
    ensures filter[6..6 + |NatToString(width)|] == NatToString(width)
    ensures filter[6 + |NatToString(width)|..] == ":-2,fps=" + NatToString(fps)
  {
    "scale=" + NatToString(width) + ":-2,fps=" + NatToString(fps)
  }

  /** The encoder's command line for an export preset. */
  function ExportArgs(e: ExportSettings): (args: seq<string>)
    ensures |args| == 18
    ensures args[1] == InputName && args[17] == OutputName
  {
    ["-i", InputName,
     "-vf", ScaleFilter(e.scaleWidth, e.fps),
     "-c:v", "libx264",
     "-preset", e.preset,
     "-crf", NatToString(e.crf),
     "-c:a", "aac",
     "-b:a", e.audioBitrate,
     "-movflags", "+faststart",
     "-stats",
     OutputName]
  }

  /** Two numerals each followed by a colon: equal texts have equal numerals. */
  lemma NumeralBeforeColon(a1: string, x1: string, a2: string, x2: string)
    requires AllDigits(a1) && AllDigits(a2)
    requires a1 + ":" + x1 == a2 + ":" + x2
    ensures a1 == a2 && x1 == x2
  {
    ColonAfterNumeral(a1, x1);
    ColonAfterNumeral(a2, x2);
    var s := a1 + ":" + x1;
    assert |a1| == |a2|;
    assert a1 == s[..|a1|] == a2;
    assert x1 == s[|a1| + 1..] == x2;
  }

  /** What follows "scale=" in the filter: the width's numeral, a colon and the rest. */
  lemma AfterScale(width: nat, fps: nat)
    ensures ScaleFilter(width, fps)[6..]
            == NatToString(width) + ":" + ("-2,fps=" + NatToString(fps))
  {
    var n, t := NatToString(width), NatToString(fps);
    var f := "scale=" + n + ":-2,fps=" + t;
    assert f[6..] == n + ":-2,fps=" + t;
    assert n + ":-2,fps=" + t == n + ":" + ("-2,fps=" + t);
  }

  /** The filter text determines the width and the frame rate. */
  lemma ScaleFilterInjective(w1: nat, f1: nat, w2: nat, f2: nat)
    requires ScaleFilter(w1, f1) == ScaleFilter(w2, f2)
    ensures w1 == w2 && f1 == f2
  {
    var t1, t2 := "-2,fps=" + NatToString(f1), "-2,fps=" + NatToString(f2);
    AfterScale(w1, f1);
    AfterScale(w2, f2);
    NumeralBeforeColon(NatToString(w1), t1, NatToString(w2), t2);
    NatToStringInjective(w1, w2);
    assert t1[7..] == NatToString(f1) && t2[7..] == NatToString(f2);
    NatToStringInjective(f1, f2);
  }

  /** The command line carries every encoding setting of the preset: presets with the same
      command line agree on width, frame rate, quality factor, speed preset and audio
      bitrate. */
  lemma ExportArgsInjective(e1: ExportSettings, e2: ExportSettings)
    requires ExportArgs(e1) == ExportArgs(e2)
    ensures e1.scaleWidth == e2.scaleWidth && e1.fps == e2.fps && e1.crf == e2.crf
    ensures e1.preset == e2.preset && e1.audioBitrate == e2.audioBitrate
  {
    assert ExportArgs(e1)[3] == ExportArgs(e2)[3];
    ScaleFilterInjective(e1.scaleWidth, e1.fps, e2.scaleWidth, e2.fps);
    assert ExportArgs(e1)[9] == ExportArgs(e2)[9];
    NatToStringInjective(e1.crf, e2.crf);
    assert ExportArgs(e1)[7] == ExportArgs(e2)[7];
    assert ExportArgs(e1)[13] == ExportArgs(e2)[13];
  }

  datatype ExportFormat = WebM | Mp4

  /** One `downloadFile` call. */
  datatype Download = Download(url: string, filename: string)

  /** The progress listener registered for a job: the clip duration and the frame total it
      closes over. */
  datatype Listener = Listener(duration: nat, totalFrames: nat)

  /** The conversion under way: the recording and the export preset read at its start. */
  datatype Job = Job(rec: Recording, settings: ExportSettings)

  /** A loaded encoder instance, numbered by the load attempt that created it. */
  datatype Encoder = Encoder(instance: nat)

  /** How the conversion's `try` block ends: the input write, the encoder run or the
      output read throws, or the output bytes are read and given an object URL. */
  datatype EncodeOutcome = WriteFailed | ExecFailed | ReadFailed | Encoded(output: seq<byte>, url: string)

  /** The state of the library view, plus logs of what it did to the outside. */
  class LibraryState {
    var convertingId: Option<string>
    var conversionProgress: Progress
    /** The encoder ref: empty until a load succeeds, then kept. */
    var ffmpeg: Option<Encoder>
    var loadAttempts: nat
    /** The most recently registered progress listener. */
    var listener: Option<Listener>
    var job: Option<Job>
    var downloads: seq<Download>
    /** Blobs given object URLs by the view: the converted files. */
    var created: seq<(string, Blob)>
    /** Every command line the encoder was run with. */
    var execCalls: seq<seq<string>>
    /** Files in the encoder's in-memory file system. */
    var scratch: set<string>

    ghost predicate Valid()
      reads this
    {
      && (job.Some? ==> convertingId == Some(job.value.rec.id) && ffmpeg.Some? && listener.Some?)
      && (listener.Some? ==> listener.value.totalFrames >= 1)
      && (conversionProgress.Pct? ==> 0.0 <= conversionProgress.value <= 100.0)
    }

    constructor ()
      ensures Valid()
      ensures convertingId == None && conversionProgress == Pct(0.0) && ffmpeg == None
      ensures job == None && listener == None && downloads == [] && execCalls == [] && scratch == {}
    {
      convertingId, conversionProgress := None, Pct(0.0);
      ffmpeg, loadAttempts, listener, job := None, 0, None, None;
      downloads, created, execCalls, scratch := [], [], [], {};
    }

    /** `disabled={!!convertingId}` on the WebM, MP4 and Discard buttons of every card: a
        null or empty id leaves them enabled. */
    predicate ButtonsDisabled(): (disabled: bool)
      reads this
      ensures disabled ==> convertingId.Some?
    {
      convertingId.Some? && convertingId.value != ""
    }

    /** `loadFFmpeg`: the cached instance when there is one; otherwise a new instance is
        loaded and cached, or, when loading fails, nothing is cached and null is returned. */
    method LoadFFmpeg(loadOk: bool) returns (enc: Option<Encoder>)
      modifies this`ffmpeg, this`loadAttempts
      ensures old(ffmpeg).Some? ==> enc == old(ffmpeg) && ffmpeg == old(ffmpeg) && loadAttempts == old(loadAttempts)
      ensures old(ffmpeg).None? ==> loadAttempts == old(loadAttempts) + 1
      ensures old(ffmpeg).None? && loadOk ==> enc == Some(Encoder(old(loadAttempts))) && ffmpeg == enc
      ensures old(ffmpeg).None? && !loadOk ==> enc == None && ffmpeg == None
    {
      if ffmpeg.Some? {
        return ffmpeg;
      }
      var instance := Encoder(loadAttempts);
      loadAttempts := loadAttempts + 1;
      if loadOk {
        ffmpeg := Some(instance);
        return Some(instance);
      }
      return None;
    }

    /** `handleExport` up to the encoder run. WebM downloads the recording's own URL under
        the sanitised name and touches nothing else. MP4 marks the recording as converting
        with progress 0 and loads the encoder; if that fails the mark is cleared; otherwise
        the active preset's export settings are read and a progress listener is registered
        for the clip's duration and frame total. A click is possible only while no
        conversion is marked, and only on the card of a recording in the store. */
    method HandleExport(app: AppStore, rec: Recording, format: ExportFormat, registry: ProfileRegistry, loadOk: bool)
      requires Valid() && !ButtonsDisabled() && job.None?
      requires app.Valid() && rec in app.recordings
      modifies this`downloads, this`convertingId, this`conversionProgress, this`ffmpeg,
               this`loadAttempts, this`listener, this`job
      ensures Valid()
      ensures format == WebM ==>
                && downloads == old(downloads) + [Download(rec.blobUrl, ExportFileName(rec.title, "webm"))]
                && convertingId == old(convertingId) && conversionProgress == old(conversionProgress)
                && ffmpeg == old(ffmpeg) && loadAttempts == old(loadAttempts)
                && listener == old(listener) && job == old(job)
      ensures format == Mp4 ==> downloads == old(downloads) && conversionProgress == Pct(0.0)
      ensures format == Mp4 && ffmpeg.None? ==> convertingId == None && job == None && listener == old(listener)
      ensures format == Mp4 && ffmpeg.Some? ==>
                && convertingId == Some(rec.id)
                && job == Some(Job(rec, registry.GetActiveRecordingProfile().exportSettings))
                && listener == Some(Listener(rec.duration,
                                             TotalFrames(rec.duration, registry.GetActiveRecordingProfile().exportSettings.fps)))
      ensures format == Mp4 ==> (ffmpeg.Some? <==> old(ffmpeg).Some? || loadOk)
      ensures format == Mp4 && old(ffmpeg).Some? ==> ffmpeg == old(ffmpeg) && loadAttempts == old(loadAttempts)
      ensures format == Mp4 && old(ffmpeg).None? ==> loadAttempts == old(loadAttempts) + 1
      ensures format == Mp4 && old(ffmpeg).None? && loadOk ==> ffmpeg == Some(Encoder(old(loadAttempts)))
      ensures format == Mp4 && ffmpeg.Some? ==> ButtonsDisabled()
    {
      if format == WebM {
        downloads := downloads + [Download(rec.blobUrl, ExportFileName(rec.title, "webm"))];
        return;
      }
      convertingId := Some(rec.id);
      conversionProgress := Pct(0.0);
      var enc := LoadFFmpeg(loadOk);
      if enc.None? {
        convertingId := None;
        return;
      }
      assert rec.id != "" by {
        var j :| 0 <= j < |app.recordings| && app.recordings[j] == rec;
      }
      var settings := registry.GetActiveRecordingProfile().exportSettings;
      var totalFrames := TotalFrames(rec.duration, settings.fps);
      listener := Some(Listener(rec.duration, totalFrames));
      job := Some(Job(rec, settings));
    }

    /** The listener on one encoder log line: a line with both tokens sets the progress to
        its percentage, any other line leaves it. Lines arrive only while a job runs. */
    method OnEncoderLog(line: string)
      requires Valid() && job.Some?
      modifies this`conversionProgress
      ensures Valid()
      ensures match LineProgress(line, listener.value.duration, listener.value.totalFrames)
              case None => conversionProgress == old(conversionProgress)
              case Some(p) => conversionProgress == p
    {
      var update := LineProgress(line, listener.value.duration, listener.value.totalFrames);
      if update.Some? {
        conversionProgress := update.value;
      }
    }

    /** The `try`/`finally` of the conversion: the input is written, the encoder is run with
        the preset's command line, the output is read, wrapped as an MP4 blob, given a URL
        and downloaded under the sanitised name, and both scratch files are deleted. A step
        that throws skips the rest of the `try`. Either way the conversion mark is cleared
        and the progress reset to 0. */
    method FinishExport(outcome: EncodeOutcome)
      requires Valid() && job.Some?
      modifies this`execCalls, this`scratch, this`created, this`downloads, this`convertingId,
               this`conversionProgress, this`job
      ensures Valid()
      ensures convertingId == None && conversionProgress == Pct(0.0) && job == None
      ensures !ButtonsDisabled()
      ensures execCalls == old(execCalls) + (if outcome.WriteFailed? then [] else [ExportArgs(old(job).value.settings)])
      ensures outcome.WriteFailed? ==> scratch == old(scratch)
      ensures outcome.ExecFailed? || outcome.ReadFailed? ==> scratch == old(scratch) + {InputName}
      ensures outcome.Encoded? ==> scratch == old(scratch) - {InputName, OutputName}
      ensures outcome.Encoded? ==>
                && created == old(created) + [(outcome.url, Blob(outcome.output, "video/mp4"))]
                && downloads == old(downloads) + [Download(outcome.url, ExportFileName(old(job).value.rec.title, "mp4"))]
      ensures !outcome.Encoded? ==> created == old(created) && downloads == old(downloads)
    {
      var rec := job.value.rec;
      var settings := job.value.settings;
      if !outcome.WriteFailed? {
        scratch := scratch + {InputName};
        execCalls := execCalls + [ExportArgs(settings)];
        if outcome.Encoded? {
          scratch := scratch + {OutputName};
          var mp4 := Blob(outcome.output, "video/mp4");
          created := created + [(outcome.url, mp4)];
          downloads := downloads + [Download(outcome.url, ExportFileName(rec.title, "mp4"))];
          scratch := scratch - {InputName};
          scratch := scratch - {OutputName};
        }
      }
      convertingId := None;
      conversionProgress := Pct(0.0);
      job := None;
    }

    /** Discard on a card: `onDelete` with the card's id, possible only while no conversion
        is marked. */
    method ClickDiscard(app: AppStore, id: string)
      requires !ButtonsDisabled() && app.Valid()
      modifies app
      ensures app.Valid()
      ensures app.recordings == WithoutId(old(app.recordings), id)
      ensures match FindIndex(old(app.recordings), id)
              case None => app.revoked == old(app.revoked)
              case Some(k) => app.revoked == old(app.revoked) + [old(app.recordings)[k].blobUrl]
      ensures app.currentView == old(app.currentView) && app.settings == old(app.settings)
    {
      app.HandleDeleteRecording(id);
    }
  }
}
