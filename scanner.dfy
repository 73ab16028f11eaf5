/**
 * The camera and scan controller of script.js: the module-level flags
 * `cameraRunning`, `isScanning` and `imageFromUpload`, the two scan timers,
 * the `predictionStats` dictionary and the enabled state of the scan and
 * detect buttons, as fields of one object.
 *
 * Timers are events: `Tick` is the interval callback and may happen only
 * while the interval is armed; `StopTimedPrediction` is the timeout and may
 * happen only while the timeout is pending. Results of the classifier,
 * camera access and the frame's readiness are parameters.
 */
module Scanner {
  import opened Wrappers
  import opened Stats
  import opened Percent
  import Safety

  /** What a scan or a detection hands to `sendSafetyNotification`. */
  datatype Decision = Decision(sign: string, avg: real, confStr: string)

  class ScanController {
    var cameraRunning: bool
    var isScanning: bool
    var imageFromUpload: bool
    /** `predictionInterval` is armed. */
    var intervalActive: bool
    /** `predictionTimeout` is pending. */
    var timeoutPending: bool
    /** `predictionStats`, in insertion order. */
    var stats: seq<Entry>
    /** `scanBtn.disabled`. */
    var scanDisabled: bool
    /** `detectBtn.disabled`. */
    var detectDisabled: bool
    /** Every decision passed to `sendSafetyNotification`, oldest first. */
    ghost var notified: seq<Decision>

    /**
     * Both timers run exactly while a scan is on, a scan needs the camera,
     * and the statistics are well formed (counts at least 1, one entry per
     * label, sums of confidences in [0, 1]).
     */
    ghost predicate Valid()
      reads this
    {
      && WellFormed(stats)
      && intervalActive == isScanning
      && timeoutPending == isScanning
      && (isScanning ==> cameraRunning)
    }

    /** The state when the page has loaded; the buttons start as the page markup sets them. */
    constructor (scanDisabled: bool, detectDisabled: bool)
      ensures Valid()
      ensures !cameraRunning && !isScanning && !imageFromUpload && stats == [] && notified == []
      ensures this.scanDisabled == scanDisabled && this.detectDisabled == detectDisabled
    {
      cameraRunning, isScanning, imageFromUpload := false, false, false;
      intervalActive, timeoutPending := false, false;
      stats := [];
      this.scanDisabled, this.detectDisabled := scanDisabled, detectDisabled;
      notified := [];
    }

    /** `lockButtons(scan, detect)`: a button is disabled when asked to be or when its action is not possible now. */
    method LockButtons(scan: bool, detect: bool)
      modifies this`scanDisabled, this`detectDisabled
      ensures scanDisabled == (scan || isScanning)
      ensures detectDisabled == (detect || !imageFromUpload || isScanning)
    {
      scanDisabled := scan || isScanning;
      detectDisabled := detect || !imageFromUpload || isScanning;
    }

    /** `unlockButtons(scan, detect)`: enables exactly the buttons asked for. */
    method UnlockButtons(scan: bool, detect: bool)
      modifies this`scanDisabled, this`detectDisabled
      ensures scanDisabled == !scan && detectDisabled == !detect
    {
      scanDisabled := !scan;
      detectDisabled := !detect;
    }

    /**
     * `startCamera`. `granted` is whether the camera stream could be opened
     * and played; on failure the user is alerted and nothing changes.
     */
    method StartCamera(granted: bool)
      requires Valid()
      modifies this
      ensures Valid()
      ensures old(cameraRunning) || !granted ==> unchanged(this)
      ensures !old(cameraRunning) && granted ==>
        && cameraRunning && !scanDisabled && !imageFromUpload && detectDisabled
        && !isScanning && stats == old(stats) && notified == old(notified)
        && intervalActive == old(intervalActive) && timeoutPending == old(timeoutPending)
    {
      if cameraRunning {
        return;
      }
      if granted {
        cameraRunning := true;
        scanDisabled := false;
        imageFromUpload := false;
        detectDisabled := true;
      }
    }

    /**
     * `stopCamera`. A running scan is abandoned: both timers are cleared and
     * no decision is made. The camera is off afterwards in every case.
     */
    method StopCamera()
      modifies this
      ensures !isScanning && !cameraRunning && scanDisabled
      ensures old(isScanning) ==> !intervalActive && !timeoutPending
      ensures !old(isScanning) ==> intervalActive == old(intervalActive) && timeoutPending == old(timeoutPending)
      ensures stats == old(stats) && notified == old(notified)
      ensures imageFromUpload == old(imageFromUpload) && detectDisabled == old(detectDisabled)
      ensures old(Valid()) ==> Valid()
    {
      if isScanning {
        intervalActive := false;
        timeoutPending := false;
        isScanning := false;
      }
      scanDisabled := true;
      cameraRunning := false;
    }

    /**
     * `startTimedCameraPrediction`. Without the camera the user is alerted
     * and nothing changes; during a scan nothing changes either. Otherwise a
     * scan starts with empty statistics and both timers armed.
     */
    method StartTimedCameraPrediction()
      requires Valid()
      modifies this
      ensures Valid()
      ensures !old(cameraRunning) || old(isScanning) ==> unchanged(this)
      ensures old(cameraRunning) && !old(isScanning) ==>
        && isScanning && cameraRunning && !imageFromUpload && stats == []
        && intervalActive && timeoutPending
        && scanDisabled && detectDisabled && notified == old(notified)
    {
      if !cameraRunning {
        return;
      }
      if isScanning {
        return;
      }
      isScanning := true;
      imageFromUpload := false;
      LockButtons(false, false);
      stats := [];
      intervalActive := true;
      timeoutPending := true;
    }

    /**
     * One interval callback. `videoWidth` is the frame's width and
     * `(sign, conf)` the classifier's answer for that frame. A frame that is
     * not ready records nothing; otherwise the sample is added to its label's
     * entry, which is created at the end when absent.
     */
    method Tick(videoWidth: nat, sign: string, conf: real)
      requires Valid() && intervalActive
      requires 0.0 <= conf <= 1.0
      modifies this`stats
      ensures Valid()
      ensures videoWidth == 0 ==> stats == old(stats)
      ensures videoWidth != 0 ==> stats == Recorded(old(stats), sign, conf)
    {
      if videoWidth == 0 {
        return;
      }
      var i := 0;
      while i < |stats| && stats[i].sign != sign
        invariant 0 <= i <= |stats|
        invariant forall j :: 0 <= j < i ==> stats[j].sign != sign
      {
        i := i + 1;
      }
      IndexOfUnique(stats, sign, i);
      if i == |stats| {
        stats := stats + [Entry(sign, 0.0, 0)];
      }
      var e := stats[i];
      stats := stats[i := Entry(sign, e.sum + conf, e.count + 1)];
      RecordedWellFormed(old(stats), sign, conf);
    }

    /**
     * `stopTimedPrediction`, run by the timeout: the scan and the camera
     * stop, the statistics are resolved into one decision, and that decision
     * is passed to `sendSafetyNotification` once; `note` is what that shows.
     */
    method StopTimedPrediction(safety: Safety.SafetyController) returns (d: Decision, note: Option<Safety.Shown>)
      requires Valid() && timeoutPending
      requires safety.enabled ==> safety.supported
      modifies this
      ensures Valid()
      ensures !isScanning && !cameraRunning && !intervalActive && !timeoutPending
      ensures !scanDisabled && detectDisabled
      ensures stats == old(stats) && imageFromUpload == old(imageFromUpload)
      ensures Outcome(d.sign, d.avg) == Resolve(stats)
      ensures 0.0 <= d.avg <= 1.0 && d.confStr == ToPercent(Tenths(d.avg))
      ensures note == safety.Send(d.sign, d.confStr)
      ensures notified == old(notified) + [d]
    {
      intervalActive := false;
      timeoutPending := false;
      StopCamera();

      var finalLabel, bestAvgConfidence := BestAverage(stats);
      ResolveRange(stats, |stats|);
      var confStr := ToPercent(Tenths(bestAvgConfidence));
      d := Decision(finalLabel, bestAvgConfidence, confStr);
      note := safety.Send(finalLabel, confStr);
      notified := notified + [d];

      isScanning := false;
      UnlockButtons(true, false);
    }

    /**
     * The state changes of `handleImageUpload` once a file was chosen: the
     * upload becomes the image source and the buttons are locked until it
     * is decoded.
     */
    method SelectUpload()
      requires Valid()
      modifies this`imageFromUpload, this`scanDisabled, this`detectDisabled
      ensures Valid()
      ensures imageFromUpload
      ensures scanDisabled == isScanning && detectDisabled == isScanning
    {
      imageFromUpload := true;
      LockButtons(false, false);
    }

    /** The uploaded image has been decoded: both buttons are enabled, even during a scan. */
    method UploadDecoded()
      requires Valid()
      modifies this`scanDisabled, this`detectDisabled
      ensures Valid()
      ensures !scanDisabled && !detectDisabled
    {
      UnlockButtons(true, true);
    }

    /** The state changes of `clearInput`: the upload is no longer the image source. */
    method ClearInput()
      requires Valid()
      modifies this`imageFromUpload, this`detectDisabled
      ensures Valid()
      ensures !imageFromUpload && detectDisabled
    {
      imageFromUpload := false;
      detectDisabled := true;
    }

    /**
     * `detectImage`. It runs only for an uploaded image outside a scan, and
     * only when the processed preview has a source; `(sign, conf)` is the
     * classifier's answer for it. The decision is passed to
     * `sendSafetyNotification`; `note` is what that shows.
     */
    method DetectImage(hasSource: bool, sign: string, conf: real, safety: Safety.SafetyController)
      returns (d: Option<Decision>, note: Option<Safety.Shown>)
      requires Valid()
      requires safety.enabled ==> safety.supported
      requires 0.0 <= conf <= 1.0
      modifies this`scanDisabled, this`detectDisabled, this`notified
      ensures Valid()
      ensures d.Some? <==> old(imageFromUpload) && !old(isScanning) && hasSource
      ensures d.None? ==> unchanged(this) && note.None?
      ensures d.Some? ==>
        && d.value == Decision(sign, conf, ToPercent(Tenths(conf)))
        && note == safety.Send(sign, d.value.confStr)
        && notified == old(notified) + [d.value]
        && !scanDisabled && !detectDisabled
    {
      if !imageFromUpload || isScanning {
        return None, None;
      }
      if !hasSource {
        return None, None;
      }
      LockButtons(false, false);
      var confStr := ToPercent(Tenths(conf));
      d := Some(Decision(sign, conf, confStr));
      note := safety.Send(sign, confStr);
      notified := notified + [d.value];
      UnlockButtons(true, true);
    }
  }

  /** The statistics and decision of a two-tick Yield scan. */
  lemma YieldFacts()
    ensures Recorded([], "Yield", 0.9) == [Entry("Yield", 0.9, 1)]
    ensures Recorded([Entry("Yield", 0.9, 1)], "Yield", 0.7) == [Entry("Yield", 1.6, 2)]
    ensures Resolve([Entry("Yield", 1.6, 2)]) == Outcome("Yield", 0.8)
    ensures ToPercent(Tenths(0.8)) == "80.0%"
  {
    var s := [Entry("Yield", 1.6, 2)];
    assert ResolvePrefix(s, 0) == UNRESOLVED && Avg(s[0]) == 0.8;
    PercentExamples();
  }

  /** The statistics and decision of a scan where "A" and "B" tie. */
  lemma TieFacts()
    ensures Recorded([], "A", 0.5) == [Entry("A", 0.5, 1)]
    ensures Recorded([Entry("A", 0.5, 1)], "B", 0.5) == [Entry("A", 0.5, 1), Entry("B", 0.5, 1)]
    ensures Resolve([Entry("A", 0.5, 1), Entry("B", 0.5, 1)]) == Outcome("A", 0.5)
    ensures ToPercent(Tenths(0.5)) == "50.0%"
  {
    var s := [Entry("A", 0.5, 1), Entry("B", 0.5, 1)];
    assert IndexOf([Entry("A", 0.5, 1)], "B") == 1;
    assert ResolvePrefix(s, 0) == UNRESOLVED && Avg(s[0]) == 0.5 && Avg(s[1]) == 0.5;
    assert ResolvePrefix(s, 1) == Outcome("A", 0.5);
    PercentExamples();
  }

  /** A two-tick scan of a Yield sign: "Yield" at 80.0%. */
  method YieldScenario(safety: Safety.SafetyController)
    requires safety.Valid()
  {
    YieldFacts();
    var c := new ScanController(true, true);
    c.StartCamera(true);
    c.StartTimedCameraPrediction();
    c.Tick(640, "Yield", 0.9);
    c.Tick(640, "Yield", 0.7);
    var d, note := c.StopTimedPrediction(safety);
    assert d.sign == "Yield" && d.avg == 0.8 && d.confStr == "80.0%";
    assert !c.cameraRunning && !c.isScanning && c.notified == [d];
  }

  /** Two labels with equal averages: the first one recorded wins. */
  method TieScenario(safety: Safety.SafetyController)
    requires safety.Valid()
  {
    TieFacts();
    var c := new ScanController(true, true);
    c.StartCamera(true);
    c.StartTimedCameraPrediction();
    c.Tick(640, "A", 0.5);
    c.Tick(640, "B", 0.5);
    var d, note := c.StopTimedPrediction(safety);
    assert d.sign == "A" && d.confStr == "50.0%";
  }

  /**
   * Without the camera the scan button does nothing; a second start keeps the
   * running scan's statistics; an unready frame records nothing; stopping the
   * camera mid-scan emits nothing.
   */
  method AbortScenario()
  {
    var c := new ScanController(true, true);
    c.StartTimedCameraPrediction();
    assert !c.isScanning;
    c.StartCamera(true);
    c.StartTimedCameraPrediction();
    c.Tick(640, "Stop", 0.7);
    c.StartTimedCameraPrediction();
    c.Tick(0, "Yield", 1.0);
    assert c.stats == [Entry("Stop", 0.7, 1)];
    c.StopCamera();
    assert !c.isScanning && !c.timeoutPending && c.notified == [];
  }
}
