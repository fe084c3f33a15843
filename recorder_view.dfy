/** The recorder view: the clock shown while capturing, the status line, and the
    preview of a finished capture with its discard and save buttons. */
module RecorderPanel {
  import opened Base
  import opened Text

  /** `formatTime`: zero-padded minutes, a colon, zero-padded seconds. */
  function FormatTime(seconds: nat): (clock: string)
    ensures |clock| >= 5 && clock[|clock| - 3] == ':'
    ensures AllDigits(clock[..|clock| - 3]) && AllDigits(clock[|clock| - 2..])
    ensures DigitsValue(clock[..|clock| - 3]) == seconds / 60
    ensures DigitsValue(clock[|clock| - 2..]) == seconds % 60
    ensures |clock| - 3 == if seconds / 60 < 10 then 2 else |NatToString(seconds / 60)|
  {
    var mm, ss := PadStart(NatToString(seconds / 60), 2, '0'), PadStart(NatToString(seconds % 60), 2, '0');
    PaddedNumeral(seconds / 60, 2);
    PaddedNumeral(seconds % 60, 2);
    ClockShape(mm, ss);
    mm + ":" + ss
  }

  /** Below 100 minutes the clock is exactly "mm:ss". */
  lemma FormatTimeWidth(seconds: nat)
    requires seconds < 6000
    ensures |FormatTime(seconds)| == 5
    ensures FormatTime(seconds)[2] == ':'
    ensures AllDigits(FormatTime(seconds)[..2]) && AllDigits(FormatTime(seconds)[3..])
  {
    var m, r := seconds / 60, seconds % 60;
    assert m < 100 && r < 60 by {
      assert m * 60 + r == seconds;
    }
    var mm := PadStart(NatToString(m), 2, '0');
    var ss := PadStart(NatToString(r), 2, '0');
    assert |NatToString(m)| <= 2 && |NatToString(r)| <= 2;
    assert |mm| == 2 && |ss| == 2;
    PaddedNumeral(m, 2);
    PaddedNumeral(r, 2);
    var t := mm + ":" + ss;
    assert FormatTime(seconds) == t;
    assert t[..2] == mm && t[3..] == ss;
  }

  /** The clock reads back as the number of seconds, for every duration. */
  lemma FormatTimeRoundTrip(seconds: nat)
    ensures ClockSeconds(FormatTime(seconds)) == Some(seconds)
  {
    var mm := PadStart(NatToString(seconds / 60), 2, '0');
    var ss := PadStart(NatToString(seconds % 60), 2, '0');
    PaddedNumeral(seconds / 60, 2);
    PaddedNumeral(seconds % 60, 2);
    assert FormatTime(seconds) == mm + ":" + ss;
    ClockOfNumerals(mm, ss);
    assert DigitsValue(mm) * 60 + DigitsValue(ss) == seconds by {
      assert (seconds / 60) * 60 + seconds % 60 == seconds;
    }
  }

  /** The line under the clock. */
  function StatusLabel(isRecording: bool, isPaused: bool): (status: string)
    ensures status == "Ready" <==> !isRecording
    ensures status == "Paused" <==> isRecording && isPaused
    ensures status == "Recording" <==> isRecording && !isPaused
  {
    if isRecording then (if isPaused then "Paused" else "Recording") else "Ready"
  }

  /** One call of the view's `onSave` callback. */
  datatype SaveCall = SaveCall(blob: Blob, duration: nat)

  /** The preview fields of the recorder view and the `onSave` calls it has made. */
  class Preview {
    var previewUrl: Option<string>
    var lastBlob: Option<Blob>
    var saves: seq<SaveCall>

    constructor ()
      ensures previewUrl == None && lastBlob == None && saves == []
    {
      previewUrl, lastBlob, saves := None, None, [];
    }

    /** The preview screen replaces the recorder screen when both fields are set
        (a URL, being a string, must also be non-empty to count as set). */
    predicate ShowsPreview(): (shown: bool)
      reads this
      ensures shown ==> previewUrl.Some? && lastBlob.Some?
    {
      previewUrl.Some? && previewUrl.value != "" && lastBlob.Some?
    }

    /** The capture hook's `onRecordingComplete`. */
    method HandleRecordingComplete(blobUrl: string, blob: Blob)
      modifies this
      ensures previewUrl == Some(blobUrl) && lastBlob == Some(blob)
      ensures saves == old(saves)
      ensures blobUrl != "" ==> ShowsPreview()
    {
      previewUrl := Some(blobUrl);
      lastBlob := Some(blob);
    }

    /** The Discard button (shown only on the preview screen). */
    method Discard()
      requires ShowsPreview()
      modifies this
      ensures previewUrl == None && lastBlob == None
      ensures saves == old(saves)
      ensures !ShowsPreview()
    {
      previewUrl := None;
      lastBlob := None;
    }

    /** The Save button (shown only on the preview screen): one `onSave` with the blob and
        the hook's final recording time, then both fields cleared. */
    method Save(recordingTime: nat)
      requires ShowsPreview()
      modifies this
      ensures saves == old(saves) + [SaveCall(old(lastBlob).value, recordingTime)]
      ensures previewUrl == None && lastBlob == None
      ensures !ShowsPreview()
    {
      saves := saves + [SaveCall(lastBlob.value, recordingTime)];
      previewUrl := None;
      lastBlob := None;
    }
  }
}
