/**
 * The emergency alert of src/ui/emergency_alert.py: the test that decides
 * whether a detection is an emergency, and the overlay that shows at most one
 * alert at a time. The strobe and shake animations and their threads are not
 * modelled; an overlay is a control object appended to the page's overlay list.
 */
module EmergencyAlert {
  import opened Wrappers
  import opened Text
  import opened Sequences
  import opened State
  import opened ModelHandler

  /** The labels treated as emergencies (not the same list as ALERT_SOUNDS). */
  const EMERGENCY_SOUNDS: seq<string> := ["siren", "car_horn", "crackling_fire", "crying_baby", "glass_breaking", "fireworks"]

  /**
   * `is_emergency_sound`: the lowered label is an emergency label and the
   * confidence reaches the threshold, inclusively; without a threshold the
   * configured `confidence_threshold` is used. Every emergency but
   * `crackling_fire` is also a label the classifier flags as an alert.
   */
  predicate IsEmergencySound(lower: char -> char, soundLabel: string, confidence: real,
                             threshold: Option<real>, appState: AppState)
    reads appState
    requires appState.Valid()
    ensures IsEmergencySound(lower, soundLabel, confidence, threshold, appState) ==>
              LowerStr(lower, soundLabel) == "crackling_fire" || LowerStr(lower, soundLabel) in ALERT_SOUNDS
  {
    var t := if threshold.None? then AsNumber(appState.settings[THRESHOLD_KEY]) else threshold.value;
    LowerStr(lower, soundLabel) in EMERGENCY_SOUNDS && confidence >= t
  }

  /**
   * The emergency and alert lists share five labels: `crackling_fire` is only
   * an emergency, `clock_alarm` only an alert. All of them are catalogue labels.
   */
  lemma EmergencyVersusAlert()
    ensures forall l :: l in EMERGENCY_SOUNDS && l !in ALERT_SOUNDS <==> l == "crackling_fire"
    ensures forall l :: l in ALERT_SOUNDS && l !in EMERGENCY_SOUNDS <==> l == "clock_alarm"
    ensures forall l :: l in EMERGENCY_SOUNDS ==> l in ESC50_CLASSES
  {
    MockAndAlertInCatalogue();
    assert ESC50_CLASSES[14] == "crackling_fire";
  }

  /** `l` is `name` lowered character by character. */
  predicate SpelledLower(lower: char -> char, name: string, l: string) {
    |l| == |name| && forall i :: 0 <= i < |l| ==> l[i] == lower(name[i])
  }

  /**
   * An emergency is exactly a label that lowers character by character to one
   * of the six, with a confidence of at least the threshold in force: the one
   * passed, or else the configured one.
   */
  lemma EmergencyIff(lower: char -> char, soundLabel: string, confidence: real, threshold: Option<real>, appState: AppState)
    requires appState.Valid()
    ensures IsEmergencySound(lower, soundLabel, confidence, threshold, appState) <==>
              && (exists l :: l in EMERGENCY_SOUNDS && SpelledLower(lower, soundLabel, l))
              && confidence >= (if threshold.Some? then threshold.value else AsNumber(appState.settings[THRESHOLD_KEY]))
  {
    LoweredAmong(lower, soundLabel, EMERGENCY_SOUNDS);
  }

  /** `name` lowers to one of `names` exactly when one of them is its lowering character by character. */
  lemma LoweredAmong(lower: char -> char, name: string, names: seq<string>)
    ensures LowerStr(lower, name) in names <==> exists l :: l in names && SpelledLower(lower, name, l)
  {
    var lowered := LowerStr(lower, name);
    if exists l :: l in names && SpelledLower(lower, name, l) {
      var l :| l in names && SpelledLower(lower, name, l);
      assert l == lowered;
    }
    if lowered in names {
      assert SpelledLower(lower, name, lowered);
    }
  }

  /** A control on the page: the overlay built for one alert. */
  class AlertControl {
    const soundLabel: string
    const confidence: real
    const icon: string

    constructor(soundLabel: string, confidence: real, icon: string)
      ensures this.soundLabel == soundLabel && this.confidence == confidence && this.icon == icon
    {
      this.soundLabel := soundLabel;
      this.confidence := confidence;
      this.icon := icon;
    }
  }

  /** The page's overlay list. */
  class Page {
    var overlay: seq<AlertControl>

    constructor()
      ensures overlay == []
    {
      overlay := [];
    }
  }

  class EmergencyAlertOverlay {
    const page: Page
    var isActive: bool
    /** The overlay of the latest alert shown, `null` before the first. */
    var overlayContainer: AlertControl?

    /** An active alert has its overlay on the page. */
    ghost predicate Valid()
      reads this, page
    {
      isActive ==> overlayContainer != null && overlayContainer in page.overlay
    }

    constructor(page: Page)
      ensures this.page == page && !isActive && overlayContainer == null && Valid()
    {
      this.page := page;
      isActive := false;
      overlayContainer := null;
    }

    /**
     * `show_alert`: ignored while an alert is active; otherwise the alert
     * becomes active and exactly one new overlay is appended to the page.
     */
    method ShowAlert(soundLabel: string, confidence: real, icon: string)
      requires Valid()
      modifies this, page
      ensures Valid() && isActive
      ensures old(isActive) ==> overlayContainer == old(overlayContainer) && page.overlay == old(page.overlay)
      ensures !old(isActive) ==>
                && overlayContainer != null && fresh(overlayContainer)
                && overlayContainer.soundLabel == soundLabel && overlayContainer.confidence == confidence
                && overlayContainer.icon == icon
                && page.overlay == old(page.overlay) + [overlayContainer]
    {
      if isActive {
        return;
      }
      isActive := true;
      var container := new AlertControl(soundLabel, confidence, icon);
      overlayContainer := container;
      page.overlay := page.overlay + [container];
    }

    /** `dismiss_alert`: the alert is no longer active and its overlay, if on the page, is removed. */
    method DismissAlert()
      modifies this, page
      ensures Valid() && !isActive && overlayContainer == old(overlayContainer)
      ensures overlayContainer != null && overlayContainer in old(page.overlay) ==>
                page.overlay == RemoveFirst(old(page.overlay), overlayContainer)
      ensures !(overlayContainer != null && overlayContainer in old(page.overlay)) ==>
                page.overlay == old(page.overlay)
    {
      isActive := false;
      if overlayContainer != null && overlayContainer in page.overlay {
        page.overlay := RemoveFirst(page.overlay, overlayContainer);
      }
    }
  }
}
