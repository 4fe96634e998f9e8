/** The preferences panel of the profile page
    (gesturesense-profile/components/preferences-panel.tsx): six switches
    over a record of six flags. */
module PreferencesPanel {

  datatype PanelKey =
    | EmotionDetection | VoiceRecognition | AutoLogSessions
    | PersonalizedGestures | CriticalAlerts | AdvancedAnalytics

  datatype PanelPreferences = PanelPreferences(
    emotionDetection: bool,
    voiceRecognition: bool,
    autoLogSessions: bool,
    personalizedGestures: bool,
    criticalAlerts: bool,
    advancedAnalytics: bool)

  /** The record the panel starts with. */
  const Initial := PanelPreferences(true, false, true, true, true, false)

  /** `preferences[key]`. */
  function Get(p: PanelPreferences, k: PanelKey): bool {
    match k
    case EmotionDetection => p.emotionDetection
    case VoiceRecognition => p.voiceRecognition
    case AutoLogSessions => p.autoLogSessions
    case PersonalizedGestures => p.personalizedGestures
    case CriticalAlerts => p.criticalAlerts
    case AdvancedAnalytics => p.advancedAnalytics
  }

  lemma {:induction false} InitialValues(k: PanelKey)
    ensures Get(Initial, k) <==> k != VoiceRecognition && k != AdvancedAnalytics
  {
    match k
    case EmotionDetection =>
    case VoiceRecognition =>
    case AutoLogSessions =>
    case PersonalizedGestures =>
    case CriticalAlerts =>
    case AdvancedAnalytics =>
  }

  /** `handleToggle(key)`: a copy of the record with one flag negated. */
  function Toggle(p: PanelPreferences, k: PanelKey): (r: PanelPreferences)
    ensures Get(r, k) == !Get(p, k)
  {
    match k
    case EmotionDetection => p.(emotionDetection := !p.emotionDetection)
    case VoiceRecognition => p.(voiceRecognition := !p.voiceRecognition)
    case AutoLogSessions => p.(autoLogSessions := !p.autoLogSessions)
    case PersonalizedGestures => p.(personalizedGestures := !p.personalizedGestures)
    case CriticalAlerts => p.(criticalAlerts := !p.criticalAlerts)
    case AdvancedAnalytics => p.(advancedAnalytics := !p.advancedAnalytics)
  }

  /** Toggling leaves every other flag as it was. */
  lemma {:induction false} ToggleKeepsOthers(p: PanelPreferences, k: PanelKey, j: PanelKey)
    requires j != k
    ensures Get(Toggle(p, k), j) == Get(p, j)
  {
    match k
    case EmotionDetection =>
    case VoiceRecognition =>
    case AutoLogSessions =>
    case PersonalizedGestures =>
    case CriticalAlerts =>
    case AdvancedAnalytics =>
  }

  /** Toggling the same flag twice gives back the original record. */
  lemma ToggleTwice(p: PanelPreferences, k: PanelKey)
    ensures Toggle(Toggle(p, k), k) == p
  {
  }

  /** One switch of the panel. */
  datatype Item = Item(key: PanelKey, title: string)

  const Items: seq<Item> := [
    Item(EmotionDetection, "Emotion Detection"),
    Item(VoiceRecognition, "Voice Recognition"),
    Item(AutoLogSessions, "Auto-Log Sessions"),
    Item(PersonalizedGestures, "Personalized Gestures"),
    Item(CriticalAlerts, "Critical Alert Notifications"),
    Item(AdvancedAnalytics, "Advanced Analytics")]

  /** Six switches, one for each flag of the record and no flag twice. */
  lemma {:induction false} ItemsCoverEveryKeyOnce(k: PanelKey)
    ensures |Items| == 6
    ensures forall i, j :: 0 <= i < j < |Items| ==> Items[i].key != Items[j].key
    ensures exists i :: 0 <= i < |Items| && Items[i].key == k
  {
    match k
    case EmotionDetection => assert Items[0].key == k;
    case VoiceRecognition => assert Items[1].key == k;
    case AutoLogSessions => assert Items[2].key == k;
    case PersonalizedGestures => assert Items[3].key == k;
    case CriticalAlerts => assert Items[4].key == k;
    case AdvancedAnalytics => assert Items[5].key == k;
  }
}
