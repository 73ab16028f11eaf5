# Traffic-sign scanner: scan controller and safety notifications

This project models the core of a browser app that recognises traffic signs
from the camera or an uploaded picture, and proves properties of that model.

The first part is the camera-scan controller of `script.js`:

- the camera can be on or off;
- a timed scan samples the video on an interval timer;
- each sample's `(label, confidence)` is added to a per-label dictionary
  holding a sum and a count;
- when the timeout fires, the label with the greatest average confidence is
  chosen and handed to the notification code.

The controller is the class `Scanner.ScanController`. Its fields are the
source's module-level flags, the armed/pending state of the two timers, the
statistics and the two buttons' `disabled` state. The timers are events:

- `Tick` is one interval callback and is allowed only while the interval is
  armed;
- `StopTimedPrediction` is the timeout and is allowed only while it is pending.

The statistics dictionary is a sequence of entries in insertion order (module
`Stats`). A `for ... in` loop visits non-numeric keys in that order, so the
order decides ties. The resolution loop is `Stats.BestAverage`. It is proved
equal to the specification function `Stats.Resolve`, and `Stats.ResolveSpec`
characterises `Resolve`. Module `Classifier` holds the argmax loop of
`runPrediction`. Module `Percent` models `toPercent` on values already
rounded to tenths of a percent.

The second part is `safety-logic.js`:

- the message table `SIGN_NOTIFICATIONS` and the default message;
- the decision `sendSafetyNotification` makes (`Safety.Notify`);
- the switch that turns notifications on and off (`Safety.SafetyController`).

The browser's permission, whether the Notification API exists and the
stored preference are fields of the controller. The answer of a permission
prompt is a parameter.

Inputs from outside are parameters:

- whether `getUserMedia` succeeds;
- the frame's width;
- the classifier's answer, a real confidence in [0, 1];
- whether the processed preview has a source.

Two behaviours one might expect of such a scanner are not in the code, and
the model follows the code:

- resolution applies no 0.60 threshold. It starts from `("Unknown", 0)` and
  a label replaces the current best only when its average is strictly
  greater. "Unknown" therefore results only when no entry has a positive
  average. The "<60%" exists only in the text of the Unknown message.
- `processImage` scales the whole frame and does not crop a centred square.

## Model

| member | source | states |
|---|---|---|
| `Stats.IndexOf` | script.js:202 | the position found holds the label, every earlier entry has another label, and absent means the end of the sequence |
| `Stats.Lookup` | script.js:202 | `predictionStats[label]`: an entry found carries that label and is one of the entries |
| `Stats.LookupPresent` | script.js:202 | a dictionary entry is found exactly when the label is one of the keys |
| `Stats.RecordedLookup` | script.js:202-206 | a tick adds the confidence to that label's sum and 1 to its count, creating it with count 1 if absent; every other label's entry is unchanged |
| `Stats.RecordedWellFormed` | script.js:202-206 | recording keeps every count at least 1, labels distinct and each sum between 0 and its count |
| `Stats.RecordedOrder` | script.js:202-206 | a new label is appended at the end and an existing one keeps its place, so the iteration order is insertion order |
| `Stats.RecordedCount` | script.js:202-206 | each recorded tick adds exactly one sample in total |
| `Stats.ResolvePrefixSpec` | script.js:221-230 | after the first n entries the loop holds the entry with the first strictly-greatest positive average, and ("Unknown", 0) exactly when no average among them is positive |
| `Stats.ResolveSpec` | script.js:221-230 | the resolved label has a positive average that is greater than every earlier entry's and at least every later one's, so ties go to the earliest label; exactly when there are no entries, or no positive average, the result is ("Unknown", 0) |
| `Stats.FirstBestUnique` | script.js:224-229 | at most one entry satisfies that description, so the resolved entry is determined |
| `Stats.ResolveRange` | script.js:221-233 | the resolved average is a confidence in [0, 1] |
| `Stats.BestAverage` | script.js:221-230 | the resolution loop computes exactly `Resolve` of the statistics |
| `Classifier.ArgMax` | script.js:86-94 | the index returned holds the maximum; its value is strictly greater than every earlier value and at least every later one |
| `Classifier.FirstMaxUnique` | script.js:86-94 | only one index is a first maximum, so the argmax is determined by the probabilities |
| `Percent.Decimal` | script.js:372 | the numeral is non-empty, all digits, and has no leading zero |
| `Percent.Tenths` | script.js:372 | the rounding is the integer nearest to 1000 times the value, with ties rounded up |
| `Percent.ToPercent` | script.js:371-373 | the string is digits, a point, one digit and "%" |
| `Percent.PercentRoundTrip` | script.js:371-373 | the tenths can be read back from the string, so distinct roundings give distinct strings |
| `Percent.ValueOfDecimal` | script.js:372 | reading the decimal numeral of n gives n back |
| `Safety.NoteFor` | safety-logic.js:242 | every label gets a message with a non-empty title, either one of the table's rows or the default message |
| `Safety.TableTitlesNonEmpty` | safety-logic.js:4-149 | every row of the table has a non-empty title |
| `Safety.TitleFor` | safety-logic.js:242-243 | a label in the table gets that row's title and any other label "Traffic Sign Detected"; the "Detected: label" fallback never applies |
| `Safety.UnknownHasOwnNote` | safety-logic.js:6-10 | "Unknown" has its own row, with a title and body other than the default's |
| `Safety.UnknownOnlyInItsGroup` | safety-logic.js:11-148 | no other part of the table has an "Unknown" row |
| `Safety.Notify` | safety-logic.js:228-251 | a notification is produced exactly when the feature is on, the Notification API exists and permission is granted; its title is the label's title and its body the label's body followed by a new line and "(Confidence: ...)". Where the feature is on but the API is missing, the source throws at `Notification.permission`; `SafetyController.Valid()` rules that state out, and both scanner methods that notify require its first half, `enabled ==> supported` |
| `Safety.NotifyConfidenceRecoverable` | safety-logic.js:246 | the looked-up body and the confidence string can both be read back from the notification body |
| `Safety.SafetyController.constructor` | safety-logic.js:157 | at load the feature is off and no listener is attached |
| `Safety.SafetyController.Initialize` | safety-logic.js:162-179 | with the switch present, the feature is on exactly when the stored preference is "true" and permission is granted, and the switch shows it; without the switch, or when reading the permission throws, nothing changes |
| `Safety.SafetyController.ToggleSafetyNotifications` | safety-logic.js:184-224 | turning on where notifications are unsupported, denied or refused at the prompt unchecks the switch and leaves the feature and storage alone; a successful turn-on sets it on, stores "true" and sends the test notification; turning off sets it off and stores "false" |
| `Safety.SafetyController.UserToggles` | safety-logic.js:177-224 | before the listener is attached a flip only changes the switch, and the feature, permission and storage stay as they were; once attached, turning off sets the feature off and stores "false", and turning on asks for permission where it is still undecided, then either unchecks the switch and leaves the feature off and the storage alone (unsupported, denied or refused) or sets it on, stores "true" and sends the test notification; after a flip the listener handles, the switch shows the feature's real state |
| `Safety.SafetyController.Send` | safety-logic.js:228-239 | `sendSafetyNotification` shows nothing unless the feature is on and permission is granted |
| `Scanner.ScanController.constructor` | script.js:17-26 | at load the camera is off, nothing is scanned and the statistics are empty |
| `Scanner.ScanController.LockButtons` | script.js:347-350 | a button is disabled when asked, or when a scan runs, or, for detect, when the image is not an upload |
| `Scanner.ScanController.UnlockButtons` | script.js:352-355 | exactly the buttons asked for are enabled |
| `Scanner.ScanController.StartCamera` | script.js:112-144 | with the camera already on, or when access fails, nothing changes; otherwise the camera is on, scan is enabled, detect disabled, and the image source is the camera |
| `Scanner.ScanController.StopCamera` | script.js:147-163 | a running scan is abandoned: both timers are cleared and no decision is emitted; the camera is off after any call |
| `Scanner.ScanController.StartTimedCameraPrediction` | script.js:169-212 | without the camera, or during a scan, nothing changes and the running statistics are kept; otherwise a scan starts with empty statistics, both timers armed and both buttons disabled |
| `Scanner.ScanController.Tick` | script.js:187-209 | a frame of width 0 records nothing; otherwise the statistics become the old ones with this sample recorded |
| `Scanner.ScanController.StopTimedPrediction` | script.js:216-260 | for a notification controller in a consistent state, the scan and the camera end, the decision is the resolution of the statistics with its percentage string, it is passed to the notification code exactly once, and scan is re-enabled with detect disabled |
| `Scanner.ScanController.SelectUpload` | script.js:289-290 | choosing a file makes the upload the image source and locks the buttons while a scan runs |
| `Scanner.ScanController.UploadDecoded` | script.js:313 | once the upload is decoded both buttons are enabled, even during a scan |
| `Scanner.ScanController.ClearInput` | script.js:429-433 | clearing the input makes the upload no longer the image source and disables detect |
| `Scanner.ScanController.DetectImage` | script.js:323-342 | it acts exactly when the image is an upload, no scan runs and the preview has a source; it then emits one decision with the classifier's label and percentage, and otherwise changes nothing |

## Left out

- `service-worker.js`: installing, activating and serving from the Cache API is browser plumbing with no logic of its own to model.
- Inference in `runPrediction`: building the tensor, resizing, softmax and loading the model and labels are a foreign library over floating point. The classifier is an oracle giving `(label, confidence)`. From `runPrediction` only the argmax loop is modelled, not `labels[index]`.
- Canvas and image work: `processImage`, `toDataURL`, `img.decode`, `FileReader`, the camera preview and `lastFrameDataURL`.
- Text and display updates: `setResult`, `clearResult`, `showScanOverlay`, `refreshPage`, the clear button, and the preview parts of `handleImageUpload` and `clearInput`.
- Side channels: `alert`, `console`, `navigator.vibrate`, and delivering the notification through the service worker or its fallback. The icon, `tag`, `renotify` and vibration options are left out too, and so is the unused `img` column of the table.
- Timing: the 250 ms period and 4000 ms duration are not modelled. Ticks that overlap, and a classification that finishes after the scan stopped, are concurrency and are left out. There, the source's callback would still record, because it never checks `isScanning`.
- Waiting inside `startCamera`: a second click while `getUserMedia` is pending is not modelled. One call is one step.
- Outside changes: the permission changed in browser settings, or the stored preference changed by another tab.
- Waiting inside three awaited steps: each is modelled as one step that succeeds. (a) A `runPrediction` that fails because the model or the labels cannot be loaded: `detectImage` then ends after `lockButtons()` without a decision. (b) The `await runPrediction` in `detectImage` (script.js:330): if the camera and a scan start meanwhile, the continuation enables both buttons mid-scan. (c) The `await Notification.requestPermission()` in `toggleSafetyNotifications` (safety-logic.js:202): a second flip while the prompt is open turns the feature off, and the first call then resumes, turns it on and stores "true" with the switch unchecked. That breaks the "switch shows the feature's state" invariant of `SafetyController.Valid()`.
- Scanner.ScanController.StopTimedPrediction and Scanner.ScanController.DetectImage: require `safety.enabled ==> safety.supported`. The state this excludes, the feature on without the Notification API, makes `sendSafetyNotification` throw at safety-logic.js:236. In `stopTimedPrediction` that throw skips `unlockButtons(true, false)`, leaving scan disabled. The model does not follow that path. Every other notification state is allowed, including the unchecked-but-on state of the prompt race above.
- Scanner.ScanController.DetectImage: requires a confidence in [0, 1], which is what softmax outputs.
- Stats.Lookup: treats `predictionStats` as a plain dictionary. In the source, a label such as "toString" names an inherited property, so it is found at script.js:202, its sample goes into that inherited function, and `for…in` never visits it. No label the classifier produces is one.
- Stats.ResolveSpec and Stats.BestAverage: the tie rule is about exact averages. The source compares double averages, so two labels whose exact averages are equal can differ in the last bit. For example, with B = (0.3, 0.0) recorded before A = (0.1, 0.2), the source picks A, because 0.15000000000000002 > 0.15. The model calls it a tie and picks B.
- Percent.Tenths: rounds the exact real value. The source's `toFixed(1)` rounds the binary double nearest to `value * 100`, which can land on the other side of a half tenth. Real sums also stand in for sums of doubles.
- Percent.Tenths: requires a value of at least 0, because only confidences and their averages reach `toPercent`.
- Classifier.ArgMax: requires a non-empty vector, because softmax over the model's outputs always has one entry per label. NaN comparisons are not modelled.
- Scanner.ScanController.Tick: requires a confidence in [0, 1], which is what softmax outputs.
- Safety.NoteFor: treats the table as a plain map. In the source, an inherited object property such as `toString` would also be "found". No label the classifier produces is one.
- Stats.RecordedOrder: iteration is insertion order. In the source, integer-like keys such as "12" would be visited first, in numeric order. No label the classifier produces has that form.
