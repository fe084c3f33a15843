/** The two audio toggles of the settings view; each hands a new settings value to the
    app's `onUpdate`. */
module SettingsPanel {
  import opened AppModel

  /** Flips the microphone flag and keeps the system-audio flag. */
  function ToggleMic(s: AppSettings): (r: AppSettings)
    ensures r.includeMic == !s.includeMic
    ensures r.includeSystemAudio == s.includeSystemAudio
  {
    s.(includeMic := !s.includeMic)
  }

  /** Flips the system-audio flag and keeps the microphone flag. */
  function ToggleSys(s: AppSettings): (r: AppSettings)
    ensures r.includeSystemAudio == !s.includeSystemAudio
    ensures r.includeMic == s.includeMic
  {
    s.(includeSystemAudio := !s.includeSystemAudio)
  }

  /** Each toggle undoes itself, and the two toggles commute. */
  lemma TogglesInvolutive(s: AppSettings)
    ensures ToggleMic(ToggleMic(s)) == s
    ensures ToggleSys(ToggleSys(s)) == s
    ensures ToggleMic(ToggleSys(s)) == ToggleSys(ToggleMic(s))
  {
  }
}
