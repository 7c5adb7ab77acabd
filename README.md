# TigerTag Scale: a Dafny model of the firmware controller and the status page

TigerTag Scale is an ESP32 kitchen scale with an HX711 load cell, an RC522
RFID reader and an OLED. When a spool's tag is presented and the weight on
the scale holds steady, the firmware pushes the weight to the TigerTag cloud
function for that tag's UID. A small web server gives a page to push a
weight by hand, tare, calibrate and store the API key. The page also polls
the device's status.

This project models two core files:

- **`src/main.cpp`** (firmware, imperative). The model covers:
  - the global state that `loop()` and the HTTP handlers share;
  - the automatic push (`handleAutoPush`) and the tag arming in `loop()`;
  - the RFID UID renderings (`readRFID`, `u64ToDec`) and `readWeight`;
  - the `/api/push-weight`, `/api/calibration`, `/api/config` and
    `/api/tare` handlers;
  - the rounding `(int)(w + (w >= 0 ? 0.5f : -0.5f))`;
  - the Arduino `String` operations these rely on: `indexOf`, `substring`,
    `trim`, `toFloat`, `toUpperCase`.
- **`web-src/script.js`** (page logic). The model covers the decisions the
  page makes about what to show:
  - `t`, `setCloudStatus` and `formatHMS`;
  - `updateProgressDots`;
  - the checks of the calibration wizard's step 2;
  - `applyStatusSnapshot`.

The modules follow the code:

- **`Wrappers`**: `Option`.
- **`Decimal`**: decimal digit strings and the numbers they denote.
- **`ArduinoString`**: the Arduino `String` operations. `toFloat` is
  modelled as C `atof`. `trim` uses C `isspace`. `substring` takes unsigned
  arguments, so an index of -1 becomes a huge index that clamps to the
  length.
- **`Rounding`**: the firmware's round-half-away-from-zero cast.
- **`RfidUid`**: the UID readings.
  - The hex text is built by `String(b, HEX)` with a leading `'0'` and
    upper-cased afterwards.
  - The decimal key comes from the `uint64_t` big-endian accumulation,
    which keeps only the low 64 bits.
  - `u64ToDec` is modelled as a method with its buffer loop.
- **`BodyScrape`**: the number text the handlers cut out of a request body
  (trim, then strip from the end and the start), and the API key the config
  handler extracts.
- **`ScaleController`**: the firmware globals as a value.
  - Each handler is a pure step function. It returns the new globals, what
    was broadcast to WebSocket clients, and what request went upstream.
  - Lemmas cover one step, whole runs of interleaved ticks and requests,
    and concrete scenarios.
- **`ScaleFirmware`**: the same globals as a class `Scale` whose methods
  update fields in place. Each method is proved to make exactly the step its
  `ScaleController` function describes.
- **`WebUi`**: the page's decisions as functions. The page's status
  variables form a class `StatusView`, whose snapshot methods are proved
  against `ApplyStatus`. `updateProgressDots` works on an array of dot
  classes.

Inputs from the outside world are parameters: the clock (`millis()`), the
scale sample, the card read, the Wi-Fi state and the HTTPS client's result.
`millis()` is a `uint32_t` and wraps around, so elapsed time is taken modulo
2^32. A NaN float global is `None`.

Where the design description and the code disagree, the model follows the
code:

- **The resend throttle never engages.** After a successful push,
  `handleAutoPush` sets `lastPushedWeight` to the sample and then, a few
  lines later, back to NaN. The "too similar" and "cooldown" returns
  (`src/main.cpp:695-698`) are therefore never taken from start-up
  (`ThrottleNeverEngages`). A second push for the same tag needs only the
  tag presented again and a new 1500 ms window (`NoCooldownBetweenPushes`).
- **Four samples 300 ms apart do not push.** They span 900 ms, which is
  under the 1500 ms window (`FastScenarioWaits`). The same samples 500 ms
  apart push on the fourth sample (`StableScenario`).
- **The calibration wizard's body is refused.** The page posts
  `{"value":<factor>}` to `/api/calibration`. The handler searches for
  `factor`, so it answers 400 "missing factor" and leaves the factor
  unchanged (`CalibrationRefusesWizardBody`).
- **Long UIDs collide.** A UID longer than 8 bytes keeps only its last 8
  bytes in the decimal key, so two 10-byte tags that differ only in their
  first two bytes share a key (`TenByteUidsCollide`). Keys of UIDs of up to
  8 bytes with the same length are distinct (`ShortUidKeysDistinct`).

## Model

| member | source | states |
|---|---|---|
| Decimal.DecStringRoundTrip | src/main.cpp:794-806 | the decimal text of n is all digits and reads back as n |
| Decimal.DecStringInjective | src/main.cpp:794-806 | two numbers have the same decimal text iff they are equal |
| Decimal.DecStringCanonical | src/main.cpp:795 | the decimal text is non-empty, starts with '0' iff n is 0, and 0 renders as "0" |
| Decimal.DigitsOfLength | src/main.cpp:796-799 | a number below 10^k has at most k digits |
| Decimal.ParseDecLeadingZero | web-src/script.js:320 | a '0' pad in front of digits does not change the value read |
| ArduinoString.IndexOf | src/main.cpp:559-562 | the result is -1 or the first position at or after `from` where the pattern occurs; -1 means no occurrence at or after `from` (for `from` inside the text) |
| ArduinoString.IndexOfAt | src/main.cpp:559-562 | an occurrence at j with none between `from` and j makes indexOf return j |
| ArduinoString.IndexOfCharAt | src/main.cpp:562 | the search for a character returns j when s[j] is it and no earlier character from `from` on is |
| ArduinoString.TrimUnchanged | src/main.cpp:566 | trim leaves text with no leading or trailing C white space as it is |
| ArduinoString.ToUnsigned | src/main.cpp:510-511 | passing an int as an `unsigned int` index keeps values in range and maps -1 below 2^32 |
| ArduinoString.Substring | src/main.cpp:511 | substring(left, right) is the slice when it is in range, and is clamped to the end of the text when right is past the end |
| ArduinoString.UpperHasNoLowerLetter | src/main.cpp:829 | after toUpperCase no ASCII lower-case letter is left in the hex text |
| ArduinoString.LowerOfUpper | web-src/script.js:257 | toLowerCase of an upper-cased text equals toLowerCase of the text, so the comparison it feeds is case-insensitive |
| ArduinoString.LeadingDigits | src/main.cpp:571 | the digit run atof reads is a prefix of the text, all digits, and is followed by a non-digit or the end |
| ArduinoString.ToFloatUnsigned | src/main.cpp:571 | toFloat of text with no '-' after its leading white space is never negative |
| ArduinoString.ToFloatDecString | src/main.cpp:571 | toFloat of the decimal text of n is n |
| ArduinoString.UnsignedDecimalOfDigits | src/main.cpp:571 | an all-digit mantissa reads as its decimal value |
| Rounding.TruncateTowardZero | src/main.cpp:659 | the C `(int)` cast of a float: the integer part toward zero, within 1 of the value |
| Rounding.RoundWithinHalf | src/main.cpp:659 | the rounded weight is within 0.5 g of the sample |
| Rounding.RoundIsNearest | src/main.cpp:659 | no integer is closer to the sample than the rounded weight |
| Rounding.RoundOdd | src/main.cpp:659 | rounding is symmetric about 0 |
| Rounding.RoundHalfUp | src/main.cpp:659 | halves round away from zero in both directions |
| Rounding.RoundOfInteger | src/main.cpp:572 | a whole weight is sent unchanged |
| Rounding.RoundMonotonic | src/main.cpp:572 | rounding preserves order |
| RfidUid.U64ToDec | src/main.cpp:794-806 | the buffer loop yields exactly the decimal text of the value, with "0" for 0 |
| RfidUid.UidRenderings | src/main.cpp:820-832 | the hex text is the upper-cased padded hex of the bytes, two characters that encode each byte in order, and the decimal text is that of the big-endian value modulo 2^64 |
| RfidUid.BigEndianBound | src/main.cpp:827 | the big-endian value of k bytes is below 256^k |
| RfidUid.BigEndianAppend | src/main.cpp:827 | accumulating more bytes shifts the earlier value by 8 bits per byte |
| RfidUid.ShiftOrByte | src/main.cpp:827 | shifting a `uint64_t` left by 8 bits and adding the byte is the unbounded accumulation taken modulo 2^64 |
| RfidUid.UpperHexEncodes | src/main.cpp:823-829 | the upper-cased hex text has two characters per byte, and each pair encodes its byte |
| RfidUid.PaddedHexUpper | src/main.cpp:825-826 | each byte's `'0'` + `String(b, HEX)` text is two characters that encode it |
| RfidUid.DecimalKeepsLastEightBytes | src/main.cpp:822-827 | for UIDs of 8 bytes or more the decimal key depends only on the last 8 bytes |
| RfidUid.TenByteUidsCollide | src/main.cpp:822-827 | 10-byte UIDs with the same last 8 bytes have the same decimal key |
| RfidUid.BigEndianInjective | src/main.cpp:827 | equal-length byte strings with the same big-endian value are equal |
| RfidUid.ShortUidKeysDistinct | src/main.cpp:822-832 | for UIDs of the same length of at most 8 bytes, equal keys iff equal UIDs |
| RfidUid.ShortUidKept | src/main.cpp:822-827 | a UID of at most 8 bytes fits the 64-bit accumulator whole |
| RfidUid.TwentyDigitsSuffice | src/main.cpp:796 | every `uint64_t` fits the 20-digit buffer |
| RfidUid.UidKeyAtMostTwentyDigits | src/main.cpp:796-805 | the decimal key of any card, of any UID length, has at most twenty characters |
| BodyScrape.ScrapeNumber | src/main.cpp:564-570 | the trim and the two strip loops yield exactly the scraped number text of the body after the colon |
| BodyScrape.ScrapedNumberShape | src/main.cpp:566-570 | the scraped text is empty or starts with a digit, '-' or '.', and ends with a digit or '.' (or '-' for the factor) |
| BodyScrape.ScrapesCanonicalNumber | src/main.cpp:564-570 | the decimal text of n followed by a closing `}` scrapes to exactly that text |
| BodyScrape.DropWhileEndAppend | src/main.cpp:568 | stripping from the end removes exactly a tail of stripped characters |
| BodyScrape.ExtractedKeyHasNoQuote | src/main.cpp:509-511 | the key the config handler extracts never holds a '"' |
| BodyScrape.ApiKeyRoundTrip | src/main.cpp:509-511 | the body `{"apiKey":"<key>"}` yields exactly key, for keys with no '"' |
| ScaleController.Elapsed | src/main.cpp:692 | `now - since` on `uint32_t` is the difference, or the difference plus 2^32 when the clock wrapped |
| ScaleController.Initial | src/main.cpp:855-858 | at start-up no tag is armed, the window and throttle are clear, and the stored key and factor (default 406) are loaded; the key is the one in effect after `setupWiFi` (see Left out) |
| ScaleController.AutoPushBelowMinimum | src/main.cpp:675 | a sample under 5 g resets the stability window and never pushes |
| ScaleController.AutoPushNotReady | src/main.cpp:676 | without a key, an armed tag or Wi-Fi nothing changes |
| ScaleController.AutoPushOpensWindow | src/main.cpp:679-682 | the first qualifying sample opens the window on itself and waits |
| ScaleController.AutoPushRestartsWindow | src/main.cpp:685-689 | a sample more than 1 g from the candidate restarts the window on it |
| ScaleController.AutoPushAttempt | src/main.cpp:671-703 | with the throttle clear, a push is attempted iff the sample is at least 5 g, key, tag and Wi-Fi are present, the candidate is within 1 g and 1500 ms have passed; the request carries the armed UID, the key and the rounded sample |
| ScaleController.AutoPushSuccess | src/main.cpp:704-718 | a successful push disarms the tag, clears window and throttle, stamps lastPushMs and broadcasts the rounded weight with an empty UID |
| ScaleController.AutoPushFailure | src/main.cpp:721-726 | a failed push changes no state and broadcasts nothing |
| ScaleController.RetryAfterFailure | src/main.cpp:703-726 | after a failure the next tick that is still stable tries again, with no backoff |
| ScaleController.AutoPushKeepsThrottleCleared | src/main.cpp:695-714 | lastPushedWeight is NaN again after every return, so the resend-delta and cooldown returns are not taken |
| ScaleController.ArmTag | src/main.cpp:888-892 | any non-empty read replaces the armed UID, an empty read never clears it, and nothing else changes |
| ScaleController.CardReadArms | src/main.cpp:815-836 | reading a card always arms that card's decimal key |
| ScaleController.ScaleNotReadyResetsWindow | src/main.cpp:783-789 | an HX711 that is not ready reads 0 g, which resets the window and leaves currentWeight |
| ScaleController.LoopHeartbeat | src/main.cpp:894-904 | every 500 ms the loop broadcasts the rounded sample with the armed UID before the auto-push |
| ScaleController.ManualPushChecks | src/main.cpp:559-576 | the handler's refusals in order (missing weight, bad JSON, invalid weight, missing key, missing UID) and that a refused request changes nothing |
| ScaleController.ManualPushOfTextChecks | src/main.cpp:573-576 | the refusals from the number text on, and that a refused request changes nothing |
| ScaleController.ManualPushNeedsTag | src/main.cpp:576 | without an armed tag no request leaves the device and the answer is 400 |
| ScaleController.ManualPushRequest | src/main.cpp:571-585 | a request goes upstream only for accepted weight text and carries its value rounded half away from zero |
| ScaleController.ManualPushOfTextRequest | src/main.cpp:571-585 | the same, once the number text is known |
| ScaleController.AcceptedWeightTextNonNegative | src/main.cpp:573 | weight text that passes the check reads as a non-negative number |
| ScaleController.ManualPushWeightNonNegative | src/main.cpp:571-585 | a weight that is sent upstream is never negative |
| ScaleController.ManualPushOutcome | src/main.cpp:589-609 | a 2xx answer disarms the tag, clears window and throttle, shows the rounded weight and broadcasts it with an empty UID; any other answer changes nothing |
| ScaleController.ManualPushOfTextOutcome | src/main.cpp:589-609 | the same outcome, once the number text is known |
| ScaleController.ManualPushAccepted | src/main.cpp:571-605 | accepted text with key, tag and a 2xx answer is synced with the rounded value |
| ScaleController.ManualPushPageBody | src/main.cpp:555-605 | the body `{"weight":n}`, for every n including 0, pushes exactly n grams for the armed tag |
| ScaleController.ScanOneFieldObject | src/main.cpp:559-570 | a one-field object `{"key":n}` scans to exactly the digits of n |
| ScaleController.CalibrationSavesNonZero | src/main.cpp:634-637 | a saved factor is never 0, and a refused body changes nothing |
| ScaleController.CalibrationPageBody | src/main.cpp:624-642 | the body `{"factor":n}` stores n |
| ScaleController.NoOccurrenceWithout | src/main.cpp:627 | text that lacks one of the pattern's characters has no occurrence of it |
| ScaleController.CalibrationRefusesWizardBody | src/main.cpp:627-628 | the wizard's `{"value":<f>}` body is answered "missing factor" and the factor is kept |
| ScaleController.ConfigStoresPostedKey | src/main.cpp:506-511 | the config handler stores exactly the posted key and changes nothing else |
| ScaleController.TareKeepsAutoPush | src/main.cpp:614-620 | taring changes no auto-push decision: the outcome and broadcasts that follow are those of the untared globals, and the next globals differ only in currentWeight |
| ScaleController.ThrottleStaysCleared | src/main.cpp:82 | from start-up, over any interleaving of ticks and requests, lastPushedWeight stays NaN |
| ScaleController.ThrottleNeverEngages | src/main.cpp:695-698 | no tick of any run of ticks from start-up returns "too similar" or "cooldown" |
| ScaleController.NoPushWithoutNewTag | src/main.cpp:676 | with no tag armed and no card read, no tick attempts a push |
| ScaleController.StableScenario | src/main.cpp:671-714 | 100.0, 100.4, 99.7, 100.1 g at 500 ms spacing push 100 g on the fourth sample and disarm the tag |
| ScaleController.FastScenarioWaits | src/main.cpp:692 | the same samples at 300 ms spacing are still waiting after the fourth |
| ScaleController.NoCooldownBetweenPushes | src/main.cpp:695-714 | after a push, presenting the tag again lets a new weight be pushed 5 s later |
| ScaleFirmware.Scale.constructor | src/main.cpp:855-858 | the globals start as the initial globals and nothing has been broadcast; the key is the one in effect after `setupWiFi` |
| ScaleFirmware.Scale.HandleAutoPush | src/main.cpp:671-727 | the in-place auto-push makes exactly the step of the auto-push function |
| ScaleFirmware.Scale.ReadRfid | src/main.cpp:815-836 | reading the tag records its hex form and returns its decimal key, or "" when no card answers |
| ScaleFirmware.Scale.ReadAndRefresh | src/main.cpp:783-789 | reading the tag and the scale and the heartbeat make exactly the step before the auto-push, and return readWeight's sample |
| ScaleFirmware.Scale.Loop | src/main.cpp:879-910 | one loop pass makes exactly the tick step |
| ScaleFirmware.Scale.PushWeight | src/main.cpp:555-611 | the push-weight handler makes exactly the manual-push step and answers with its status |
| ScaleFirmware.Scale.PushWeightText | src/main.cpp:571-609 | the same from the number text on |
| ScaleFirmware.Scale.MarkSynced | src/main.cpp:589-602 | the 2xx branch sets the pushed weight, disarms, clears window and throttle, and broadcasts with an empty UID |
| ScaleFirmware.Scale.TareScale | src/main.cpp:614-621 | the tare handler makes exactly the tare step |
| ScaleFirmware.Scale.SetCalibration | src/main.cpp:624-644 | the calibration handler makes exactly the calibration step and answers 200 only when it saved |
| ScaleFirmware.Scale.SetConfig | src/main.cpp:506-518 | the config handler makes exactly the config step |
| ScaleFirmware.ScanBody | src/main.cpp:559-570 | the key search, the colon search and the scrape give exactly the field scan |
| WebUi.TranslationOrKey | web-src/script.js:176-178 | t gives the current language's text for a key exactly when that text exists and is non-empty, else the key itself, so a non-empty key never shows empty |
| WebUi.CloudStatusOf | web-src/script.js:256-258 | the cloud status is set to up or down, never left unknown |
| WebUi.CloudUpIff | web-src/script.js:256-258 | the status is up iff the text is "up" or "ok" in any letter case |
| WebUi.CloudStatusIgnoresCase | web-src/script.js:257 | upper-casing the text does not change the status |
| WebUi.Pad2 | web-src/script.js:320 | padStart(2,'0') yields at least two characters, ends with the input itself and adds only '0's in front |
| WebUi.HmsFieldsOfNat | web-src/script.js:315-321 | for whole seconds the fields are hours, minutes under 60 and seconds under 60 that add back to the input |
| WebUi.Div3600 | web-src/script.js:317 | `Math.floor(secs / 3600)` of whole seconds is integer division by 3600 |
| WebUi.Div60 | web-src/script.js:318-319 | flooring a division of whole seconds by 60 is integer division by 60 |
| WebUi.FormatHmsOfNat | web-src/script.js:315-321 | the uptime text of n whole seconds is the padded hours, minutes and seconds joined by ':' |
| WebUi.ParseHmsFields | web-src/script.js:320 | padded fields with minutes and seconds under 60 read back as their total in seconds |
| WebUi.Pad2Digits | web-src/script.js:320 | a padded field of n is digits and reads back as n, two characters when n < 100 |
| WebUi.FormatHmsRoundTrip | web-src/script.js:315-321 | the uptime text of n whole seconds reads back as n |
| WebUi.JsTrimEmptyIff | web-src/script.js:808 | trim leaves nothing iff every character is ECMAScript white space |
| WebUi.ApiStatusIff | web-src/script.js:807-811 | the API status is "none" iff the key is blank, and "valid" iff apiValid holds and the key is not blank |
| WebUi.SendStateIff | web-src/script.js:829-844 | a countdown is shown iff the trimmed text is non-empty digits other than "0", and only the four keywords and digit text change the banner |
| WebUi.CalibStep2Sends | web-src/script.js:658-692 | a factor is sent iff the entered weight is at least 200 g, both readings are there and the factor is positive, and it scales the old factor by measured over entered weight |
| WebUi.CalibStep2Order | web-src/script.js:658-676 | the checks run in order: invalid entry, under 200 g, then missing data |
| WebUi.DotCounts | web-src/script.js:629-640 | at step s of n dots exactly one dot is active, s-1 are completed and the rest plain |
| WebUi.DotCountsAllCompleted | web-src/script.js:629-640 | past the last dot every dot is completed |
| WebUi.UpdateProgressDots | web-src/script.js:629-640 | each dot gets the class its position and the active step call for |
| WebUi.ApplyIdentityFields | web-src/script.js:779-811 | weight, UID, cloud and API key fields each update only their own variable |
| WebUi.ApplyProgressFields | web-src/script.js:814-844 | calibration factor, uptime and send-to-cloud fields each update only their own variable |
| WebUi.ApplyStatusFields | web-src/script.js:776-845 | each present field of a snapshot sets its own variable as the page does, and absent fields leave theirs |
| WebUi.ApplyStatusIdempotent | web-src/script.js:776-845 | applying the same snapshot twice is the same as once |
| WebUi.StatusView.constructor | web-src/script.js:220-225 | the page starts with nothing known, cloud unknown and no API key |
| WebUi.StatusView.SetCloudStatus | web-src/script.js:256-266 | only the cloud status changes, to the status of the text |
| WebUi.StatusView.ApplyUid | web-src/script.js:786-792 | a changed UID is stored and shown, the empty one as the waiting text |
| WebUi.StatusView.ApplyApiKey | web-src/script.js:800-811 | the key is stored and its status set |
| WebUi.StatusView.ApplySendToCloud | web-src/script.js:829-844 | the banner is set as the send-to-cloud text asks |
| WebUi.StatusView.ApplySnapshot | web-src/script.js:776-845 | the status variables change exactly as the snapshot step says |
| WebUi.StatusView.ApplyIdentityPart | web-src/script.js:779-811 | the first half of the snapshot step |
| WebUi.StatusView.ApplyProgressPart | web-src/script.js:814-844 | the second half of the snapshot step |

## Left out

- Wi-Fi and WiFiManager, mDNS, the web server's routing, HTTPS, the
  cloud health check, the OLED, the LED blink, `Preferences` storage and
  `delay()` are outside the model. Their effects enter as parameters:
  `wifiUp`, `pushOk`, the `Upstream` result, and the stored key and factor.
- The response body of an upstream error, the `/api/status` JSON the
  firmware serves, `/api/reset-wifi` and `/api/factory-reset` are not part
  of this model.
- Floats are modelled as exact reals. The `float` precision of samples,
  factors and `toFloat` results is not modelled. The HX711 sample is an
  input, and a NaN sample is not modelled.
- ArduinoString.ToFloat models `atof` on sign, digits, fraction and
  exponent. Hex floats, "inf" and "nan" are not modelled.
- The `(int)` cast of a rounded weight outside the `int` range is not
  modelled. C leaves that case undefined.
- A request body is taken to be the whole posted text. Chunked bodies
  (`index`/`total`) and bodies that are not null-terminated are not
  modelled.
- One `loop()` pass reads the clock once. The separate `millis()` calls
  within a pass are taken to see the same value.
- Handlers run atomically between loop passes. The concurrency of the
  async web server is not modelled.
- The `/api/tare` handler's `scale.tare()` and the calibration handler's
  `scale.set_scale` act on the HX711 driver, which is outside the model.
  Only the globals are modelled.
- ScaleController.Initial: the API key is the one in effect after
  `setupWiFi` (src/main.cpp:180-195), which replaces the stored key with
  the WiFiManager portal parameter (at most 64 characters, editable in the
  portal). The portal is outside the model, so the key enters as a
  parameter.
- ScaleFirmware.Scale.ReadRfid: requires a UID shorter than 256 bytes. The
  RC522 reports at most 10 bytes.
- The page's DOM updates, timers (the banner hiding after 1.5 s or 2 s),
  `fetch` and its error alerts, the language selector, the masterspool
  list, `computeFactor`, `updateCalibration` and `updateApiKey` are not
  modelled. `updateApiKey` posts to `/api/apikey`, which the firmware does
  not serve.
- WebUi.T: requires the current language to be in the table. The page
  would throw for an unknown language. Keys inherited from
  `Object.prototype` are not modelled.
- WebUi.CloudStatusOf: lower-casing uses the ASCII map, not full Unicode
  case mapping. `String(state || '')` is taken as already applied: a
  missing or falsy state is the empty text.
- WebUi.CalibStep2: a calibration factor that is NaN (from
  `Number(...)` of a non-number) is not modelled. With a NaN factor, the
  page would send NaN, because `NaN <= 0` is false.
- WebUi.ApplyStatus: `s.displayName` and the user-name texts of
  `setApiStatus` are not modelled. `apiValid` is taken as its truthiness.
  The weight's text form `String(s.weight)` and the factor's `toFixed(2)`
  are not modelled.
  A `null` weight in the snapshot is not modelled (`Snapshot.weight` is
  absent or a number). `View.calFactor` is `None` both before any factor
  arrives and after a factor that is not a number (NaN on the page); the
  page tells the two apart, the model does not.
- WebUi.FormatHms: JavaScript number-to-text conversion is modelled only
  for integral fields. Exponent notation for huge values is not modelled.
