/** The four recording/export presets and the process-wide active-preset selector. */
module RecordingConfig {

  datatype ProfileId =
    | Low     // fastest in-browser conversion, smallest files
    | Medium  // balanced default
    | High    // higher quality, slow in-browser conversion
    | Server  // meant for an external encoder, too heavy for in-browser conversion

  /** Capture parameters handed to display capture and to the media recorder. */
  datatype RecordingSettings = RecordingSettings(width: nat, height: nat, frameRate: nat, videoBitsPerSecond: nat)

  /** Transcoding parameters: target width, frame rate, x264 quality factor and preset,
      audio bitrate, and the advised longest clip for this preset. */
  datatype ExportSettings = ExportSettings(
    scaleWidth: nat, fps: nat, crf: nat, preset: string, audioBitrate: string, maxDurationMP4: nat)

  datatype RecordingProfile = RecordingProfile(recording: RecordingSettings, exportSettings: ExportSettings)

  /** The preset table, a total map from the four identifiers. Exporting keeps the captured
      frame rate and width, and both are positive. */
  function RecordingProfiles(id: ProfileId): (p: RecordingProfile)
    ensures p.exportSettings.fps == p.recording.frameRate > 0
    ensures p.exportSettings.scaleWidth == p.recording.width > 0
    ensures p.recording.height > 0 && p.recording.videoBitsPerSecond > 0
  {
    match id
    case Low =>
      RecordingProfile(RecordingSettings(1280, 720, 30, 2_000_000),
                       ExportSettings(1280, 30, 30, "ultrafast", "96k", 30))
    case Medium =>
      RecordingProfile(RecordingSettings(1600, 900, 30, 3_000_000),
                       ExportSettings(1600, 30, 28, "ultrafast", "128k", 45))
    case High =>
      RecordingProfile(RecordingSettings(1920, 1080, 30, 5_000_000),
                       ExportSettings(1920, 30, 23, "fast", "160k", 60))
    case Server =>
      RecordingProfile(RecordingSettings(1920, 1080, 60, 8_000_000),
                       ExportSettings(1920, 60, 20, "medium", "192k", 300))
  }

  /** Position of a preset in the order low < medium < high < server. */
  function Rank(id: ProfileId): nat
  {
    match id
    case Low => 0
    case Medium => 1
    case High => 2
    case Server => 3
  }

  /** A heavier preset records at a higher bitrate, allows longer MP4 clips and uses a
      strictly lower (better) quality factor. */
  lemma ProfilesOrdered(a: ProfileId, b: ProfileId)
    requires Rank(a) < Rank(b)
    ensures RecordingProfiles(a).recording.videoBitsPerSecond < RecordingProfiles(b).recording.videoBitsPerSecond
    ensures RecordingProfiles(a).exportSettings.maxDurationMP4 < RecordingProfiles(b).exportSettings.maxDurationMP4
    ensures RecordingProfiles(a).exportSettings.crf > RecordingProfiles(b).exportSettings.crf
  {
  }

  /** The module-level `activeProfileId` variable, the only mutable state of the registry. */
  class ProfileRegistry {
    var activeProfileId: ProfileId

    /** The selector starts at the balanced preset. */
    constructor ()
      ensures activeProfileId == Medium
    {
      activeProfileId := Medium;
    }

    function GetActiveRecordingProfileId(): ProfileId
      reads this
    {
      activeProfileId
    }

    method SetActiveRecordingProfileId(id: ProfileId)
      modifies this
      ensures GetActiveRecordingProfileId() == id
      ensures GetActiveRecordingProfile() == RecordingProfiles(id)
    {
      activeProfileId := id;
    }

    /** The active preset: always one of the table's entries. */
    function GetActiveRecordingProfile(): (p: RecordingProfile)
      reads this
      ensures exists id :: p == RecordingProfiles(id)
      ensures p.exportSettings.fps == p.recording.frameRate > 0
    {
      RecordingProfiles(activeProfileId)
    }
  }
}
