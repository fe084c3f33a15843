/** The application shell: which view is shown, the in-memory list of finished recordings
    (newest first) and the audio settings. Blob URLs are opaque strings; revoking one is
    recorded in a log. */
module AppModel {
  import opened Base

  datatype ViewState = Recorder | Library | Settings

  datatype AppSettings = AppSettings(includeMic: bool, includeSystemAudio: bool)

  /** A saved recording; `thumbnailUrl` may be "" when no preview frame could be drawn. */
  datatype Recording = Recording(
    id: string, blobUrl: string, blob: Blob, title: string, createdAt: int, duration: nat,
    thumbnailUrl: string)

  /** The title given to a new recording, from the locale's date and time strings. */
  function RecordingTitle(date: string, time: string): (title: string)
    ensures |title| == 11 + |date| + |time| && title[..10] == "Recording "
    ensures title[10..10 + |date|] == date && title[10 + |date|] == ' '
    ensures title[11 + |date|..] == time
  {
    "Recording " + date + " " + time
  }

  /** `recordings.find(r => r.id === id)`, as the index of the first match. */
  function FindIndex(rs: seq<Recording>, id: string): (r: Option<nat>)
    ensures r.Some? ==> r.value < |rs| && rs[r.value].id == id
    ensures r.Some? ==> forall j :: 0 <= j < r.value ==> rs[j].id != id
    ensures r.None? ==> forall j :: 0 <= j < |rs| ==> rs[j].id != id
  {
    if rs == [] then None
    else if rs[0].id == id then Some(0)
    else match FindIndex(rs[1..], id)
      case None => None
      case Some(k) => Some(k + 1)
  }

  /** `recordings.filter(r => r.id !== id)`. */
  function WithoutId(rs: seq<Recording>, id: string): (r: seq<Recording>)
    ensures forall x :: x in r <==> x in rs && x.id != id
    ensures |r| <= |rs|
  {
    if rs == [] then []
    else (if rs[0].id != id then [rs[0]] else []) + WithoutId(rs[1..], id)
  }

  /** Filtering keeps relative order: it commutes with concatenation. */
  lemma {:induction false} WithoutIdAppend(a: seq<Recording>, b: seq<Recording>, id: string)
    ensures WithoutId(a + b, id) == WithoutId(a, id) + WithoutId(b, id)
    decreases |a|
  {
    if a != [] {
      assert (a + b)[0] == a[0];
      assert (a + b)[1..] == a[1..] + b;
      WithoutIdAppend(a[1..], b, id);
    } else {
      assert a + b == b;
    }
  }

  /** Deleting an id that no recording carries leaves the list as it was. */
  lemma {:induction false} WithoutAbsentId(rs: seq<Recording>, id: string)
    requires forall j :: 0 <= j < |rs| ==> rs[j].id != id
    ensures WithoutId(rs, id) == rs
  {
    if rs != [] {
      WithoutAbsentId(rs[1..], id);
      assert [rs[0]] + rs[1..] == rs;
    }
  }

  /** A second delete of the same id changes nothing. */
  lemma WithoutIdIdempotent(rs: seq<Recording>, id: string)
    ensures WithoutId(WithoutId(rs, id), id) == WithoutId(rs, id)
  {
    var r := WithoutId(rs, id);
    forall j | 0 <= j < |r|
      ensures r[j].id != id
    {
      assert r[j] in r;
    }
    WithoutAbsentId(r, id);
  }

  /** The state held by the App component. */
  class AppStore {
    var currentView: ViewState
    var recordings: seq<Recording>
    var settings: AppSettings
    /** Every `URL.revokeObjectURL` call, in order. */
    var revoked: seq<string>

    /** Recording ids come from `crypto.randomUUID`, so none is empty. */
    ghost predicate Valid()
      reads this
    {
      forall j :: 0 <= j < |recordings| ==> recordings[j].id != ""
    }

    constructor ()
      ensures Valid()
      ensures currentView == Recorder && recordings == []
      ensures settings == AppSettings(true, true) && revoked == []
    {
      currentView := Recorder;
      recordings := [];
      settings := AppSettings(true, true);
      revoked := [];
    }

    /** Saving: the new recording, with a fresh id, the blob's URL, the thumbnail and the
        locale title, goes to the front; the library view is shown. */
    method HandleSaveRecording(blob: Blob, duration: nat, blobUrl: string, thumbnail: string,
                               id: string, date: string, time: string, now: int)
      requires Valid()
      requires id != ""
      modifies this
      ensures Valid()
      ensures recordings == [Recording(id, blobUrl, blob, RecordingTitle(date, time), now, duration, thumbnail)]
                            + old(recordings)
      ensures currentView == Library
      ensures settings == old(settings) && revoked == old(revoked)
    {
      var newRecording := Recording(id, blobUrl, blob, RecordingTitle(date, time), now, duration, thumbnail);
      recordings := [newRecording] + recordings;
      currentView := Library;
    }

    /** Deleting: the URL of the first recording with that id is revoked, and every
        recording with that id is dropped. */
    method HandleDeleteRecording(id: string)
      requires Valid()
      modifies this
      ensures Valid()
      ensures recordings == WithoutId(old(recordings), id)
      ensures match FindIndex(old(recordings), id)
              case None => revoked == old(revoked)
              case Some(k) => revoked == old(revoked) + [old(recordings)[k].blobUrl]
      ensures currentView == old(currentView) && settings == old(settings)
    {
      var found := FindIndex(recordings, id);
      if found.Some? {
        revoked := revoked + [recordings[found.value].blobUrl];
      }
      recordings := WithoutId(recordings, id);
      assert forall j :: 0 <= j < |recordings| ==> recordings[j] in old(recordings);
    }

    /** A navigation button's click shows that button's view. */
    method SetCurrentView(view: ViewState)
      modifies this
      ensures currentView == view
      ensures recordings == old(recordings) && settings == old(settings) && revoked == old(revoked)
    {
      currentView := view;
    }

    /** The settings view's `onUpdate`. */
    method SetSettings(s: AppSettings)
      modifies this
      ensures settings == s
      ensures recordings == old(recordings) && currentView == old(currentView) && revoked == old(revoked)
    {
      settings := s;
    }
  }
}
