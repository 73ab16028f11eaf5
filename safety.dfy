/**
 * The safety notifications of safety-logic.js: the per-sign message table,
 * the decision whether a detection raises a notification and what it says,
 * and the switch that turns the feature on and off.
 *
 * The browser's notification permission, whether the Notification API exists
 * and the value kept in local storage are fields of the controller; the
 * answer of a permission prompt is a parameter.
 */
module Safety {
  import opened Wrappers

  /** `Notification.permission`. */
  datatype Permission = Default | Granted | Denied

  /** A row of the message table. */
  datatype Note = Note(title: string, body: string)

  /** A notification as it is handed to the browser. */
  datatype Shown = Shown(title: string, body: string)

  /** The row for results that resolved to no sign. */
  const UNKNOWN_NOTES: map<string, Note> := map[
    "Unknown" := Note("❓ Unknown Sign", "Confidence is too low (<60%). Please rescan or move closer.")
  ]

  /** Speed limits. */
  const SPEED_LIMIT_NOTES: map<string, Note> := map[
    "Speed limit (20km/h)" := Note("Speed Zone: 20km/h", "⚠️ Slow down. Strictly maintain 20 km/h or less."),
    "Speed limit (30km/h)" := Note("Speed Zone: 30km/h", "Drive carefully. Limit is 30 km/h."),
    "Speed limit (50km/h)" := Note("Speed Zone: 50km/h", "Standard urban limit. Watch for cross traffic."),
    "Speed limit (60km/h)" := Note("Speed Zone: 60km/h", "Maintain 60 km/h max. Check speedometer."),
    "Speed limit (70km/h)" := Note("Speed Zone: 70km/h", "Limit is 70 km/h. Watch for merging traffic."),
    "Speed limit (80km/h)" := Note("Speed Zone: 80km/h", "Limit is 80 km/h. Maintain safe following distance."),
    "End of speed limit (80km/h)" := Note("End of 80km/h Zone", "Speed limit has changed. Adjust speed accordingly."),
    "Speed limit (100km/h)" := Note("Speed Zone: 100km/h", "Highway speed. Keep right unless passing."),
    "Speed limit (120km/h)" := Note("Speed Zone: 120km/h", "High speed zone. Maintain focus and safe distance.")
  ]

  /** Prohibitions. */
  const PROHIBITION_NOTES: map<string, Note> := map[
    "No passing" := Note("⛔ No Passing", "Do not overtake other vehicles in this zone."),
    "No passing for vehicles over 3.5 metric tons" := Note("⛔ No Heavy Truck Passing", "Heavy vehicles strictly prohibited from overtaking."),
    "No vehicles" := Note("⛔ Road Closed to Vehicles", "No vehicles allowed beyond this point."),
    "Vehicles over 3.5 metric tons prohibited" := Note("⛔ No Heavy Trucks", "Weight limit in effect. Heavy trucks not allowed."),
    "No entry" := Note("⛔ NO ENTRY", "Wrong way! Do not enter this road.")
  ]

  /** Priority and warning signs. */
  const WARNING_NOTES: map<string, Note> := map[
    "Right-of-way at the next intersection" := Note("Priority Intersection", "You have the right-of-way at the upcoming junction."),
    "Priority road" := Note("Priority Road", "You have right-of-way on this road."),
    "Yield" := Note("⚠️ YIELD Ahead", "Slow down. Prepare to stop for other traffic."),
    "Stop" := Note("🛑 STOP Sign Detected", "FULL STOP required. Check left, right, then left again."),
    "General caution" := Note("⚠️ General Caution", "Hazard ahead. Drive with extra care."),
    "Dangerous curve to the left" := Note("↩️ Sharp Left Curve", "Slow down before the bend."),
    "Dangerous curve to the right" := Note("↪️ Sharp Right Curve", "Slow down before the bend."),
    "Double curve" := Note("⚠️ Double Curve", "Winding road ahead. Reduce speed."),
    "Bumpy road" := Note("⚠️ Bumpy Road", "Uneven surface. Slow down to avoid damage."),
    "Slippery road" := Note("❄️ Slippery Surface", "Risk of skidding. Avoid sudden braking or steering."),
    "Road narrows on the right" := Note("⚠️ Road Narrows", "Merge left safely. Lane ends."),
    "Road work" := Note("🚧 Road Work Ahead", "Watch for workers and equipment. Reduce speed."),
    "Traffic signals" := Note("🚦 Traffic Signals", "Be prepared to stop at lights ahead."),
    "Pedestrians" := Note("🚶 Pedestrians Crossing", "Yield to people crossing the street."),
    "Children crossing" := Note("🚸 School Zone / Children", "CAUTION: Children nearby. Drive very slowly."),
    "Bicycles crossing" := Note("🚲 Cycle Crossing", "Watch for cyclists crossing the road."),
    "Beware of ice/snow" := Note("❄️ Ice / Snow Warning", "Road may be frozen. drive with extreme caution."),
    "Wild animals crossing" := Note("🦌 Wildlife Crossing", "Watch for deer or other animals on road.")
  ]

  /** Ends of restrictions. */
  const END_OF_RESTRICTION_NOTES: map<string, Note> := map[
    "End of all speed and passing limits" := Note("✅ Restrictions End", "Standard traffic rules apply. Drive safely."),
    "End of no passing" := Note("✅ Passing Allowed", "You may overtake when safe to do so."),
    "End of no passing by vehicles over 3.5 metric tons" := Note("✅ Truck Passing Allowed", "Heavy vehicles may overtake when safe.")
  ]

  /** Directions. */
  const DIRECTION_NOTES: map<string, Note> := map[
    "Turn right ahead" := Note("➡️ Turn Right", "Prepare to turn right."),
    "Turn left ahead" := Note("⬅️ Turn Left", "Prepare to turn left."),
    "Ahead only" := Note("⬆️ Straight Only", "Do not turn. Continue straight."),
    "Go straight or right" := Note("⬆️➡️ Straight or Right", "Allowed directions: Straight or Right."),
    "Go straight or left" := Note("⬆️⬅️ Straight or Left", "Allowed directions: Straight or Left."),
    "Keep right" := Note("↘️ Keep Right", "Pass obstacle on the right side."),
    "Keep left" := Note("↙️ Keep Left", "Pass obstacle on the left side."),
    "Roundabout mandatory" := Note("🔄 Roundabout", "Yield to traffic in circle. Enter counter-clockwise.")
  ]

  /** `SIGN_NOTIFICATIONS`, keyed by the classifier's label: the groups above, whose keys are disjoint. */
  const SIGN_NOTIFICATIONS: map<string, Note> :=
    UNKNOWN_NOTES + SPEED_LIMIT_NOTES + PROHIBITION_NOTES + WARNING_NOTES
    + END_OF_RESTRICTION_NOTES + DIRECTION_NOTES

  /** `DEFAULT_NOTIFICATION`, used for labels the table does not list. */
  const DEFAULT_NOTIFICATION := Note("Traffic Sign Detected", "Please verify the sign visually while driving.")

  /** The storage value that means "notifications on". */
  const ENABLED_PREF := "true"
  const DISABLED_PREF := "false"

  /**
   * `SIGN_NOTIFICATIONS[label] || DEFAULT_NOTIFICATION`: every label gets a
   * message with a title, either a row of the table or the default one.
   */
  function NoteFor(sign: string): (n: Note)
    ensures n.title != ""
    ensures n == DEFAULT_NOTIFICATION || n in SIGN_NOTIFICATIONS.Values
  {
    TableTitlesNonEmpty();
    if sign in SIGN_NOTIFICATIONS then SIGN_NOTIFICATIONS[sign] else DEFAULT_NOTIFICATION
  }

  predicate AllTitled(m: map<string, Note>) {
    forall k :: k in m ==> m[k].title != ""
  }

  lemma TitledUnion(a: map<string, Note>, b: map<string, Note>)
    requires AllTitled(a) && AllTitled(b)
    ensures AllTitled(a + b)
  {
  }

  lemma SpeedLimitsTitled() ensures AllTitled(SPEED_LIMIT_NOTES) { }
  lemma ProhibitionsTitled() ensures AllTitled(PROHIBITION_NOTES) { }
  lemma WarningsTitled() ensures AllTitled(WARNING_NOTES) { }
  lemma EndsTitled() ensures AllTitled(END_OF_RESTRICTION_NOTES) { }
  lemma DirectionsTitled() ensures AllTitled(DIRECTION_NOTES) { }

  /** Every table row has a title. */
  lemma TableTitlesNonEmpty()
    ensures AllTitled(SIGN_NOTIFICATIONS)
  {
    var m := UNKNOWN_NOTES;
    assert AllTitled(m);
    SpeedLimitsTitled();
    TitledUnion(m, SPEED_LIMIT_NOTES);
    m := m + SPEED_LIMIT_NOTES;
    ProhibitionsTitled();
    TitledUnion(m, PROHIBITION_NOTES);
    m := m + PROHIBITION_NOTES;
    WarningsTitled();
    TitledUnion(m, WARNING_NOTES);
    m := m + WARNING_NOTES;
    EndsTitled();
    TitledUnion(m, END_OF_RESTRICTION_NOTES);
    m := m + END_OF_RESTRICTION_NOTES;
    DirectionsTitled();
    TitledUnion(m, DIRECTION_NOTES);
    m := m + DIRECTION_NOTES;
    assert m == SIGN_NOTIFICATIONS;
  }

  /**
   * `noteData.title || "Detected: " + label`. The fallback never applies:
   * every title, the default one included, is non-empty.
   */
  function TitleFor(sign: string): (t: string)
    ensures sign in SIGN_NOTIFICATIONS ==> t == SIGN_NOTIFICATIONS[sign].title
    ensures sign !in SIGN_NOTIFICATIONS ==> t == "Traffic Sign Detected"
  {
    var n := NoteFor(sign);
    if n.title != "" then n.title else "Detected: " + sign
  }

  /** The text after the looked-up body: a new line and the confidence in parentheses. */
  function ConfidenceLine(confidenceStr: string): string {
    "\n(Confidence: " + confidenceStr + ")"
  }

  /**
   * The decision of `sendSafetyNotification(label, confidenceStr)`: nothing
   * while the feature is off, nothing where the Notification API is missing
   * (reading its permission throws), nothing unless permission is granted;
   * otherwise the sign's title and body with the confidence appended.
   */
  function Notify(enabled: bool, supported: bool, permission: Permission,
                  sign: string, confidenceStr: string): (r: Option<Shown>)
    ensures r.Some? <==> enabled && supported && permission == Granted
    ensures r.Some? ==> r.value.title == NoteFor(sign).title
    ensures r.Some? ==> r.value.body == NoteFor(sign).body + ConfidenceLine(confidenceStr)
  {
    if !enabled then None
    else if !supported then None
    else if permission != Granted then None
    else Some(Shown(TitleFor(sign), NoteFor(sign).body + ConfidenceLine(confidenceStr)))
  }

  /** The confidence string can be read back from the end of a shown body. */
  lemma NotifyConfidenceRecoverable(enabled: bool, supported: bool, permission: Permission,
                                    sign: string, confidenceStr: string)
    requires Notify(enabled, supported, permission, sign, confidenceStr).Some?
    ensures var b := Notify(enabled, supported, permission, sign, confidenceStr).value.body;
      var n := |NoteFor(sign).body|;
      |b| == n + |confidenceStr| + 15
      && b[..n] == NoteFor(sign).body
      && b[n + 14..|b| - 1] == confidenceStr
  {
    var b := Notify(enabled, supported, permission, sign, confidenceStr).value.body;
    var n := |NoteFor(sign).body|;
    assert b == NoteFor(sign).body + "\n(Confidence: " + confidenceStr + ")";
    assert b[n + 14..|b| - 1] == confidenceStr;
  }

  /** No other group has a row for "Unknown". */
  lemma UnknownOnlyInItsGroup()
    ensures "Unknown" !in SPEED_LIMIT_NOTES && "Unknown" !in PROHIBITION_NOTES && "Unknown" !in WARNING_NOTES
    ensures "Unknown" !in END_OF_RESTRICTION_NOTES && "Unknown" !in DIRECTION_NOTES
  {
  }

  /** "Unknown" has its own row, so an Unknown result never falls back to the default text. */
  lemma UnknownHasOwnNote()
    ensures "Unknown" in SIGN_NOTIFICATIONS
    ensures NoteFor("Unknown") == UNKNOWN_NOTES["Unknown"]
    ensures TitleFor("Unknown") == "❓ Unknown Sign" != DEFAULT_NOTIFICATION.title
    ensures NoteFor("Unknown").body != DEFAULT_NOTIFICATION.body
  {
    UnknownOnlyInItsGroup();
  }

  /** The notification switch and the page state around it. */
  class SafetyController {
    /** `isSafetyEnabled`. */
    var enabled: bool
    /** `toggle.checked`. */
    var checked: bool
    /** Whether the change listener has been attached to the switch. */
    var listening: bool
    /** The browser's notification permission. */
    var permission: Permission
    /** `localStorage["safety_notifications_enabled"]`. */
    var storedPref: Option<string>
    /** `"Notification" in window`. */
    const supported: bool
    /** Whether the page has the switch element. */
    const hasToggle: bool

    /**
     * The feature is only on where notifications exist and the stored
     * preference says so; once listening, the switch shows the feature's state.
     */
    ghost predicate Valid()
      reads this
    {
      && (enabled ==> supported && storedPref == Some(ENABLED_PREF))
      && (listening ==> hasToggle && checked == enabled)
    }

    /** The state when the script is loaded, before DOMContentLoaded. */
    constructor (supported: bool, hasToggle: bool, permission: Permission,
                 storedPref: Option<string>, checked: bool)
      ensures Valid()
      ensures !enabled && !listening && this.checked == checked
      ensures this.supported == supported && this.hasToggle == hasToggle
      ensures this.permission == permission && this.storedPref == storedPref
    {
      this.supported := supported;
      this.hasToggle := hasToggle;
      this.permission := permission;
      this.storedPref := storedPref;
      this.checked := checked;
      enabled := false;
      listening := false;
    }

    /**
     * The DOMContentLoaded handler. Without the switch nothing happens. With
     * a saved "true" where the Notification API is missing, reading the
     * permission throws and the handler stops before anything is set.
     */
    method Initialize()
      requires Valid()
      modifies this
      ensures Valid()
      ensures permission == old(permission) && storedPref == old(storedPref)
      ensures !hasToggle || (storedPref == Some(ENABLED_PREF) && !supported) ==> unchanged(this)
      ensures hasToggle && !(storedPref == Some(ENABLED_PREF) && !supported) ==>
        && enabled == (storedPref == Some(ENABLED_PREF) && permission == Granted)
        && checked == enabled
        && listening
    {
      if !hasToggle {
        return;
      }
      if storedPref == Some(ENABLED_PREF) && !supported {
        return;
      }
      if storedPref == Some(ENABLED_PREF) && permission == Granted {
        enabled := true;
        checked := true;
      } else {
        enabled := false;
        checked := false;
      }
      listening := true;
    }

    /**
     * `toggleSafetyNotifications`, run after the switch has taken its new
     * value `checked`. `answer` is what a permission prompt would return;
     * `testSent` says whether the "Safety Alerts Active" notification is shown.
     */
    method ToggleSafetyNotifications(answer: Permission) returns (testSent: bool)
      modifies this
      ensures listening == old(listening)
      ensures !hasToggle ==> unchanged(this) && !testSent
      ensures hasToggle && !old(checked) ==>
        && !enabled && storedPref == Some(DISABLED_PREF)
        && !checked && permission == old(permission) && !testSent
      ensures hasToggle && old(checked) ==>
        var refused := !supported || old(permission) == Denied
                       || (old(permission) == Default && answer != Granted);
        && permission == (if supported && old(permission) == Default then answer else old(permission))
        && (refused ==> !checked && enabled == old(enabled) && storedPref == old(storedPref) && !testSent)
        && (!refused ==> checked && enabled && storedPref == Some(ENABLED_PREF) && testSent)
    {
      testSent := false;
      if !hasToggle {
        return;
      }
      if checked {
        if !supported {
          checked := false;
          return;
        }
        if permission == Denied {
          checked := false;
          return;
        }
        if permission != Granted {
          permission := answer;
          if answer != Granted {
            checked := false;
            return;
          }
        }
        enabled := true;
        storedPref := Some(ENABLED_PREF);
        testSent := true;
      } else {
        enabled := false;
        storedPref := Some(DISABLED_PREF);
      }
    }

    /** The user flips the switch; the change listener runs once it is attached. */
    method UserToggles(answer: Permission) returns (testSent: bool)
      requires Valid()
      modifies this
      ensures Valid()
      ensures listening == old(listening)
      ensures !old(listening) ==>
        && checked == !old(checked) && enabled == old(enabled) && !testSent
        && permission == old(permission) && storedPref == old(storedPref)
      ensures old(listening) && old(checked) ==>
        && !enabled && !checked && storedPref == Some(DISABLED_PREF)
        && permission == old(permission) && !testSent
      ensures old(listening) && !old(checked) ==>
        var refused := !supported || old(permission) == Denied
                       || (old(permission) == Default && answer != Granted);
        && permission == (if supported && old(permission) == Default then answer else old(permission))
        && (refused ==> !checked && !enabled && storedPref == old(storedPref) && !testSent)
        && (!refused ==> checked && enabled && storedPref == Some(ENABLED_PREF) && testSent)
      ensures testSent ==> enabled && permission == Granted
    {
      checked := !checked;
      testSent := false;
      if listening {
        testSent := ToggleSafetyNotifications(answer);
      }
    }

    /** `sendSafetyNotification` in the current page state. */
    function Send(sign: string, confidenceStr: string): (r: Option<Shown>)
      reads this
      ensures r.Some? ==> enabled && permission == Granted
    {
      Notify(enabled, supported, permission, sign, confidenceStr)
    }
  }
}
