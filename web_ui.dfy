/** The decisions the configuration page (web-src/script.js) takes on what
    it shows: translation lookup, the cloud and API-key status, the uptime
    text, the send-to-cloud banner, the calibration wizard's checks and the
    progress dots. The DOM, timers and requests are outside the model. */
module WebUi {
  import opened Wrappers
  import opened Decimal
  import opened ArduinoString
  import opened Rounding

  // ---------------------------------------------------------------------
  // Translations

  /** Language code to (key to text). */
  type Translations = map<string, map<string, string>>

  /** `t(key)`: the current language's text for `key`, or the key itself
      when the text is missing or empty (an empty string is falsy). */
  function T(translations: Translations, lang: string, key: string): (r: string)
    requires lang in translations
  {
    if key in translations[lang] && translations[lang][key] != "" then translations[lang][key] else key
  }

  /** `t` yields a non-empty translation when there is one, and the key
      otherwise; so a non-empty key never shows as empty text. */
  lemma TranslationOrKey(translations: Translations, lang: string, key: string)
    requires lang in translations
    ensures var r := T(translations, lang, key);
            (r != key ==> key in translations[lang] && r == translations[lang][key] && r != "")
            && (key !in translations[lang] ==> r == key)
            && (key != "" ==> r != "")
    ensures key in translations[lang] && translations[lang][key] != "" ==>
              T(translations, lang, key) == translations[lang][key]
  {
  }

  // ---------------------------------------------------------------------
  // Cloud status

  datatype CloudStatus = Unknown | Up | Down

  /** `setCloudStatus(state)` on the text of `state`: "up" or "ok" in any
      letter case is up, everything else (the empty text included) down. */
  function CloudStatusOf(state: string): (c: CloudStatus)
    ensures c != Unknown
  {
    var s := ToLower(state);
    if s == "up" || s == "ok" then Up else Down
  }

  /** Up exactly for two-letter texts spelling "up" or "ok" in either
      case. */
  lemma CloudUpIff(state: string)
    ensures CloudStatusOf(state) == Up <==>
              |state| == 2 && ((LowerChar(state[0]) == 'u' && LowerChar(state[1]) == 'p')
                              || (LowerChar(state[0]) == 'o' && LowerChar(state[1]) == 'k'))
  {
    var s := ToLower(state);
    if |state| == 2 {
      assert s == [LowerChar(state[0]), LowerChar(state[1])];
    }
  }

  /** Letter case does not matter. */
  lemma CloudStatusIgnoresCase(state: string)
    ensures CloudStatusOf(ToUpper(state)) == CloudStatusOf(state)
  {
    assert ToLower(ToUpper(state)) == ToLower(state);
  }

  // ---------------------------------------------------------------------
  // Uptime

  /** JavaScript's `%` on numbers with a positive divisor: the remainder
      takes the sign of the dividend. */
  function JsRem(x: real, y: real): real
    requires y > 0.0
  {
    x - y * TruncateTowardZero(x / y) as real
  }

  /** `String(n)` for an integral number of moderate size. */
  function IntText(i: int): string {
    if i < 0 then "-" + DecString(-i) else DecString(i)
  }

  /** `padStart(2, '0')`. */
  function Pad2(s: string): (r: string)
    ensures |r| >= 2 && |r| >= |s|
    ensures r[|r| - |s|..] == s && forall i :: 0 <= i < |r| - |s| ==> r[i] == '0'
  {
    if |s| >= 2 then s else if |s| == 1 then "0" + s else "00"
  }

  /** Hours, minutes and seconds as `formatHMS` computes them. */
  function HmsFields(secs: real): (int, int, int) {
    ((secs / 3600.0).Floor, (JsRem(secs, 3600.0) / 60.0).Floor, JsRem(secs, 60.0).Floor)
  }

  /** `formatHMS(secs)`; `None` is a non-finite number. */
  function FormatHms(secs: Option<real>): string {
    match secs
    case None => "--:--:--"
    case Some(x) =>
      var (h, m, s) := HmsFields(x);
      Pad2(IntText(h)) + ":" + Pad2(IntText(m)) + ":" + Pad2(IntText(s))
  }

  /** Dividing a whole number by 3600 as a number and cutting off the
      fraction (either way: the value is not negative) is integer division. */
  lemma Div3600(n: nat)
    ensures (n as real / 3600.0).Floor == n / 3600
    ensures TruncateTowardZero(n as real / 3600.0) == n / 3600
  {
    var q, r := n / 3600, n % 3600;
    assert n as real / 3600.0 == q as real + r as real / 3600.0;
  }

  /** The same for 60. */
  lemma Div60(n: nat)
    ensures (n as real / 60.0).Floor == n / 60
    ensures TruncateTowardZero(n as real / 60.0) == n / 60
  {
    var q, r := n / 60, n % 60;
    assert n as real / 60.0 == q as real + r as real / 60.0;
  }

  /** For a whole number of seconds the three fields are hours, minutes
      under 60 and seconds under 60 that add back up to the input. */
  lemma HmsFieldsOfNat(n: nat)
    ensures var (h, m, s) := HmsFields(n as real);
            h == n / 3600 && m == (n % 3600) / 60 && s == n % 60
            && 0 <= m < 60 && 0 <= s < 60 && h >= 0
            && 3600 * h + 60 * m + s == n
  {
    var x := n as real;
    Div3600(n);
    Div60(n);
    Div60(n % 3600);
    assert JsRem(x, 3600.0) == (n % 3600) as real;
    assert JsRem(x, 60.0) == (n % 60) as real;
  }

  /** The text `formatHMS` gives for whole seconds. */
  lemma FormatHmsOfNat(n: nat)
    ensures FormatHms(Some(n as real)) == HmsText(n / 3600, (n % 3600) / 60, n % 60)
  {
    HmsFieldsOfNat(n);
  }

  /** The text `formatHMS` builds from non-negative fields. */
  function HmsText(h: nat, m: nat, s: nat): string {
    Pad2(DecString(h)) + ":" + Pad2(DecString(m)) + ":" + Pad2(DecString(s))
  }

  /** Reads "h...h:mm:ss" back as seconds. */
  function ParseHms(t: string): Option<nat> {
    if |t| >= 8 && t[|t| - 3] == ':' && t[|t| - 6] == ':'
       && AllDigits(t[..|t| - 6]) && AllDigits(t[|t| - 5..|t| - 3]) && AllDigits(t[|t| - 2..])
    then Some(ParseDec(t[..|t| - 6]) * 3600 + ParseDec(t[|t| - 5..|t| - 3]) * 60 + ParseDec(t[|t| - 2..]))
    else None
  }

  /** A padded field of a natural number is digits and reads back as it. */
  lemma Pad2Digits(k: nat)
    ensures AllDigits(Pad2(DecString(k))) && ParseDec(Pad2(DecString(k))) == k
    ensures k < 100 ==> |Pad2(DecString(k))| == 2
  {
    var d := DecString(k);
    DecStringRoundTrip(k);
    DecStringCanonical(k);
    if |d| == 1 {
      ParseDecLeadingZero(d);
    }
    if k < 100 && k > 0 {
      assert Pow10(2) == 100;
      DigitsOfLength(k, 2);
    }
  }

  /** Three padded fields, minutes and seconds under 60, read back. */
  lemma ParseHmsFields(h: nat, m: nat, s: nat)
    requires m < 60 && s < 60
    ensures ParseHms(HmsText(h, m, s)) == Some(h * 3600 + m * 60 + s)
  {
    var a, b, c := Pad2(DecString(h)), Pad2(DecString(m)), Pad2(DecString(s));
    Pad2Digits(h);
    Pad2Digits(m);
    Pad2Digits(s);
    var t := a + ":" + b + ":" + c;
    var k := |t|;
    assert k == |a| + 6;
    assert t[..k - 6] == a;
    assert t[k - 5..k - 3] == b;
    assert t[k - 2..] == c;
    assert t[k - 3] == ':' && t[k - 6] == ':';
  }

  /** The uptime text of a whole number of seconds reads back as it. */
  lemma FormatHmsRoundTrip(n: nat)
    ensures ParseHms(FormatHms(Some(n as real))) == Some(n)
  {
    var h, m, sec := n / 3600, (n % 3600) / 60, n % 60;
    calc {
      ParseHms(FormatHms(Some(n as real)));
      { FormatHmsOfNat(n); }
      ParseHms(HmsText(h, m, sec));
      { ParseHmsFields(h, m, sec); }
      Some(h * 3600 + m * 60 + sec);
      { HmsSum(n); }
      Some(n);
    }
  }

  lemma HmsSum(n: nat)
    ensures (n / 3600) * 3600 + ((n % 3600) / 60) * 60 + n % 60 == n
  {
  }

  // ---------------------------------------------------------------------
  // API key status

  /** ECMAScript white space and line terminators, which `trim` removes. */
  predicate JsIsSpace(c: char) {
    c == '\t' || c == '\n' || c as int == 11 || c as int == 12 || c == '\r' || c == ' '
    || c as int == 0xA0 || c as int == 0x1680 || (0x2000 <= c as int <= 0x200A)
    || c as int == 0x2028 || c as int == 0x2029 || c as int == 0x202F || c as int == 0x205F
    || c as int == 0x3000 || c as int == 0xFEFF
  }

  /** `String.prototype.trim`. */
  function JsTrim(s: string): string {
    DropWhileEnd(DropWhile(s, JsIsSpace), JsIsSpace)
  }

  /** Trimming leaves nothing exactly when every character is white space. */
  lemma JsTrimEmptyIff(s: string)
    ensures JsTrim(s) == "" <==> forall i :: 0 <= i < |s| ==> JsIsSpace(s[i])
  {
    var k := PrefixLength(s, JsIsSpace);
    var rest := s[k..];
    if k < |s| {
      assert rest[0] == s[k] && !JsIsSpace(rest[0]);
      assert KeptLength(rest, JsIsSpace) > 0;
    }
  }

  datatype ApiStatus = KeyMissing | KeyValid | KeyInvalid

  /** The API-key status a snapshot sets: none when its `apiKey` is not a
      string, else no key for a blank key, else valid or invalid by the
      truthiness of `apiValid`. */
  function ApiStatusOf(apiKey: Option<string>, apiValid: bool): Option<ApiStatus> {
    match apiKey
    case None => None
    case Some(k) => Some(if |JsTrim(k)| > 0 then (if apiValid then KeyValid else KeyInvalid) else KeyMissing)
  }

  /** A blank key (white space only) counts as no key; any other key is
      valid exactly when the device says so. */
  lemma ApiStatusIff(key: string, apiValid: bool)
    ensures ApiStatusOf(Some(key), apiValid) == Some(KeyMissing) <==> forall i :: 0 <= i < |key| ==> JsIsSpace(key[i])
    ensures ApiStatusOf(Some(key), apiValid) == Some(KeyValid) <==>
              apiValid && exists i :: 0 <= i < |key| && !JsIsSpace(key[i])
  {
    JsTrimEmptyIff(key);
  }

  // ---------------------------------------------------------------------
  // Send-to-cloud banner

  datatype SendState = Hidden | Sending | Sent | SendError | Countdown(seconds: string)

  /** The banner a snapshot's `sendToCloud` text asks for, after `trim`;
      `None` leaves the banner as it is. */
  function SendStateOf(raw: string): Option<SendState> {
    var v := JsTrim(raw);
    if v == "" || v == "0" then Some(Hidden)
    else if v == "send" then Some(Sending)
    else if v == "success" then Some(Sent)
    else if v == "error" then Some(SendError)
    else if AllDigits(v) then Some(Countdown(v))
    else None
  }

  /** A countdown is shown exactly for digit text other than "0"; only the
      four keywords and digit text change the banner. */
  lemma SendStateIff(raw: string)
    ensures var v := JsTrim(raw);
            (SendStateOf(raw).Some? && SendStateOf(raw).value.Countdown?) <==> (v != "" && v != "0" && AllDigits(v))
    ensures var v := JsTrim(raw);
            SendStateOf(raw) == None <==>
              (v != "send" && v != "success" && v != "error" && !AllDigits(v))
  {
    var v := JsTrim(raw);
    assert AllDigits("");
    assert AllDigits("0");
    assert !AllDigits("send") by { assert !IsDigit("send"[0]); }
    assert !AllDigits("success") by { assert !IsDigit("success"[0]); }
    assert !AllDigits("error") by { assert !IsDigit("error"[0]); }
  }

  // ---------------------------------------------------------------------
  // Calibration wizard, step 2

  datatype CalibrationCheck =
    | InvalidWeightModal
    | TooLightModal
    | DataUnavailable
    | NegativeFactor
    | SendFactor(factor: real)

  /** `calibStep2`: `known` is the entered weight (`None` for NaN),
      `current` and `factor` the last weight and factor the page received
      (`None` for null). */
  function CalibStep2(known: Option<real>, current: Option<real>, factor: Option<real>): CalibrationCheck {
    if known.None? || known.value <= 0.0 then InvalidWeightModal
    else if known.value < 200.0 then TooLightModal
    else if current.None? || factor.None? then DataUnavailable
    else
      var f := factor.value * (current.value / known.value);
      if f <= 0.0 then NegativeFactor else SendFactor(f)
  }

  /** Nothing is sent unless the entered weight is at least 200 g, both
      readings are there and the new factor is positive; the factor scales
      the old one by the ratio of measured to entered weight. */
  lemma CalibStep2Sends(known: Option<real>, current: Option<real>, factor: Option<real>)
    ensures CalibStep2(known, current, factor).SendFactor? <==>
              known.Some? && known.value >= 200.0 && current.Some? && factor.Some?
              && factor.value * current.value > 0.0
    ensures CalibStep2(known, current, factor).SendFactor? ==>
              CalibStep2(known, current, factor).factor * known.value == factor.value * current.value
  {
    if known.Some? && known.value >= 200.0 && current.Some? && factor.Some? {
      var k, c, f := known.value, current.value, factor.value;
      assert f * (c / k) * k == f * c;
      assert f * (c / k) > 0.0 <==> f * c > 0.0 by {
        assert f * (c / k) == (f * c) / k;
      }
    }
  }

  /** The checks run in order: a weight entry under 200 g is reported
      whatever the readings, and missing readings before the factor sign. */
  lemma CalibStep2Order(known: Option<real>, current: Option<real>, factor: Option<real>)
    ensures (known.None? || known.value <= 0.0) ==> CalibStep2(known, current, factor) == InvalidWeightModal
    ensures known.Some? && 0.0 < known.value < 200.0 ==> CalibStep2(known, current, factor) == TooLightModal
    ensures (known.Some? && known.value >= 200.0 && (current.None? || factor.None?)) ==>
              CalibStep2(known, current, factor) == DataUnavailable
  {
  }

  // ---------------------------------------------------------------------
  // Progress dots

  datatype DotClass = Plain | Active | Completed

  /** The class of dot number `index + 1` at wizard step `step`. */
  function DotClassFor(index: nat, step: int): DotClass {
    if index + 1 == step then Active else if index + 1 < step then Completed else Plain
  }

  function CountOf(dots: seq<DotClass>, c: DotClass): nat {
    if dots == [] then 0 else CountOf(dots[..|dots| - 1], c) + (if dots[|dots| - 1] == c then 1 else 0)
  }

  /** At step `step` of `n` dots, the dots before it are completed, it is
      the one active dot, and the rest are plain. */
  lemma {:induction false} DotCounts(dots: seq<DotClass>, step: int)
    requires forall i :: 0 <= i < |dots| ==> dots[i] == DotClassFor(i, step)
    requires 1 <= step <= |dots| + 1
    ensures CountOf(dots, Active) == (if step <= |dots| then 1 else 0)
    ensures CountOf(dots, Completed) == step - 1
    ensures CountOf(dots, Plain) == |dots| - (if step <= |dots| then step else |dots|)
    decreases |dots|
  {
    if dots != [] {
      var front := dots[..|dots| - 1];
      if step <= |front| + 1 {
        DotCounts(front, step);
      } else {
        DotCountsAllCompleted(front, step);
      }
    }
  }

  lemma {:induction false} DotCountsAllCompleted(dots: seq<DotClass>, step: int)
    requires forall i :: 0 <= i < |dots| ==> dots[i] == DotClassFor(i, step)
    requires step > |dots| + 1
    ensures CountOf(dots, Active) == 0 && CountOf(dots, Plain) == 0 && CountOf(dots, Completed) == |dots|
    decreases |dots|
  {
    if dots != [] {
      DotCountsAllCompleted(dots[..|dots| - 1], step);
    }
  }

  /** `updateProgressDots(activeStep)` on the wizard's dots. */
  method UpdateProgressDots(dots: array<DotClass>, activeStep: int)
    modifies dots
    ensures forall i :: 0 <= i < dots.Length ==> dots[i] == DotClassFor(i, activeStep)
  {
    for index := 0 to dots.Length
      invariant forall i :: 0 <= i < index ==> dots[i] == DotClassFor(i, activeStep)
    {
      var step := index + 1;
      dots[index] := Plain;
      if step == activeStep {
        dots[index] := Active;
      } else if step < activeStep {
        dots[index] := Completed;
      }
    }
  }

  // ---------------------------------------------------------------------
  // The page's status state

  /** The fields of a `/api/status` snapshot the page reads. The outer
      `None` is an absent field; `uid` and `sendToCloud` hold their text
      after `|| ''` (so `null` is ""); `apiKey` is `None` also when it is
      not a string; a number that is not finite is an inner `None`. */
  datatype Snapshot = Snapshot(
    weight: Option<real>,
    uid: Option<string>,
    cloud: Option<string>,
    apiKey: Option<string>,
    apiValid: bool,
    calibrationFactor: Option<Option<real>>,
    uptimeSecs: Option<Option<real>>,
    sendToCloud: Option<string>)

  /** The page's status variables, with the texts it shows for them. */
  datatype View = View(
    currentWeight: Option<real>,
    currentUid: Option<string>,
    uidText: string,
    cloudStatus: CloudStatus,
    apiKey: string,
    apiStatus: ApiStatus,
    calFactor: Option<real>,
    uptimeText: string,
    sendState: Option<SendState>)

  /** The page as loaded: nothing known, cloud unknown, no API key. */
  const InitialView := View(None, None, "", Unknown, "", KeyMissing, None, "", None)

  /** A snapshot's UID: a changed UID is stored and shown, the empty UID as
      the translated waiting text. */
  function WithUid(v: View, translations: Translations, lang: string, u: string): View
    requires lang in translations
  {
    if v.currentUid == Some(u) then v
    else v.(currentUid := Some(u), uidText := if u == "" then T(translations, lang, "waiting") else u)
  }

  /** A snapshot's API key (a string): it is stored and its status set. */
  function WithApiKey(v: View, key: string, apiValid: bool): View {
    v.(apiKey := key, apiStatus := ApiStatusOf(Some(key), apiValid).value)
  }

  /** A snapshot's send-to-cloud text: the banner it asks for, if any. */
  function WithSendToCloud(v: View, raw: string): View {
    var b := SendStateOf(raw);
    if b.Some? then v.(sendState := b) else v
  }

  /** The first half of `applyStatusSnapshot(s)`: weight, UID, cloud and
      API key. */
  function ApplyIdentity(v: View, translations: Translations, lang: string, s: Snapshot): View
    requires lang in translations
  {
    var v1 := if s.weight.Some? then v.(currentWeight := s.weight) else v;
    var v2 := if s.uid.Some? then WithUid(v1, translations, lang, s.uid.value) else v1;
    var v3 := if s.cloud.Some? then v2.(cloudStatus := CloudStatusOf(s.cloud.value)) else v2;
    if s.apiKey.Some? then WithApiKey(v3, s.apiKey.value, s.apiValid) else v3
  }

  /** The second half: calibration factor, uptime and send-to-cloud. */
  function ApplyProgress(v: View, s: Snapshot): View {
    var v5 := if s.calibrationFactor.Some? then v.(calFactor := s.calibrationFactor.value) else v;
    var v6 := if s.uptimeSecs.Some? then v5.(uptimeText := FormatHms(s.uptimeSecs.value)) else v5;
    if s.sendToCloud.Some? then WithSendToCloud(v6, s.sendToCloud.value) else v6
  }

  /** `applyStatusSnapshot(s)` on the status variables. */
  function ApplyStatus(v: View, translations: Translations, lang: string, s: Snapshot): View
    requires lang in translations
  {
    ApplyProgress(ApplyIdentity(v, translations, lang, s), s)
  }

  /** The UID text a snapshot leaves: unchanged unless the UID changes. */
  function UidTextAfter(v: View, translations: Translations, lang: string, s: Snapshot): string
    requires lang in translations
  {
    if s.uid.None? || v.currentUid == s.uid then v.uidText
    else if s.uid.value == "" then T(translations, lang, "waiting") else s.uid.value
  }

  lemma ApplyIdentityFields(v: View, translations: Translations, lang: string, s: Snapshot)
    requires lang in translations
    ensures var w := ApplyIdentity(v, translations, lang, s);
            w.currentWeight == (if s.weight.Some? then s.weight else v.currentWeight)
            && w.currentUid == (if s.uid.Some? then s.uid else v.currentUid)
            && w.uidText == UidTextAfter(v, translations, lang, s)
            && w.cloudStatus == (if s.cloud.Some? then CloudStatusOf(s.cloud.value) else v.cloudStatus)
            && w.apiKey == s.apiKey.GetOr(v.apiKey)
            && w.apiStatus == ApiStatusOf(s.apiKey, s.apiValid).GetOr(v.apiStatus)
            && w.calFactor == v.calFactor && w.uptimeText == v.uptimeText && w.sendState == v.sendState
  {
  }

  lemma ApplyProgressFields(v: View, s: Snapshot)
    ensures var w := ApplyProgress(v, s);
            w.currentWeight == v.currentWeight && w.currentUid == v.currentUid && w.uidText == v.uidText
            && w.cloudStatus == v.cloudStatus && w.apiKey == v.apiKey && w.apiStatus == v.apiStatus
            && w.calFactor == (if s.calibrationFactor.Some? then s.calibrationFactor.value else v.calFactor)
            && w.uptimeText == (if s.uptimeSecs.Some? then FormatHms(s.uptimeSecs.value) else v.uptimeText)
            && w.sendState == (if s.sendToCloud.Some? && SendStateOf(s.sendToCloud.value).Some?
                               then SendStateOf(s.sendToCloud.value) else v.sendState)
  {
  }

  /** Each field of a snapshot updates its own status variable and no
      other; an absent field leaves its variable as it was. */
  lemma {:induction false} ApplyStatusFields(v: View, translations: Translations, lang: string, s: Snapshot)
    requires lang in translations
    ensures var w := ApplyStatus(v, translations, lang, s);
            w.currentWeight == (if s.weight.Some? then s.weight else v.currentWeight)
            && w.currentUid == (if s.uid.Some? then s.uid else v.currentUid)
            && w.uidText == UidTextAfter(v, translations, lang, s)
            && w.cloudStatus == (if s.cloud.Some? then CloudStatusOf(s.cloud.value) else v.cloudStatus)
            && w.apiKey == s.apiKey.GetOr(v.apiKey)
            && w.apiStatus == ApiStatusOf(s.apiKey, s.apiValid).GetOr(v.apiStatus)
            && w.calFactor == (if s.calibrationFactor.Some? then s.calibrationFactor.value else v.calFactor)
            && w.uptimeText == (if s.uptimeSecs.Some? then FormatHms(s.uptimeSecs.value) else v.uptimeText)
            && w.sendState == (if s.sendToCloud.Some? && SendStateOf(s.sendToCloud.value).Some?
                               then SendStateOf(s.sendToCloud.value) else v.sendState)
  {
    ApplyIdentityFields(v, translations, lang, s);
    ApplyProgressFields(ApplyIdentity(v, translations, lang, s), s);
  }

  /** Applying the same snapshot twice is the same as applying it once. */
  lemma {:induction false} ApplyStatusIdempotent(v: View, translations: Translations, lang: string, s: Snapshot)
    requires lang in translations
    ensures var w := ApplyStatus(v, translations, lang, s);
            ApplyStatus(w, translations, lang, s) == w
  {
    var w := ApplyStatus(v, translations, lang, s);
    ApplyStatusFields(v, translations, lang, s);
    ApplyStatusFields(w, translations, lang, s);
  }

  /** The page's status variables as an object that the snapshot handlers
      update in place. */
  class StatusView {
    const translations: Translations
    const lang: string
    var currentWeight: Option<real>
    var currentUid: Option<string>
    var uidText: string
    var cloudStatus: CloudStatus
    var apiKey: string
    var apiStatus: ApiStatus
    var calFactor: Option<real>
    var uptimeText: string
    var sendState: Option<SendState>

    /** The variables as a value. */
    function Current(): View
      reads this
    {
      View(currentWeight, currentUid, uidText, cloudStatus, apiKey, apiStatus, calFactor, uptimeText, sendState)
    }

    constructor (translations: Translations, lang: string)
      requires lang in translations
      ensures this.translations == translations && this.lang == lang && Current() == InitialView
    {
      this.translations := translations;
      this.lang := lang;
      currentWeight := None;
      currentUid := None;
      uidText := "";
      cloudStatus := Unknown;
      apiKey := "";
      apiStatus := KeyMissing;
      calFactor := None;
      uptimeText := "";
      sendState := None;
    }

    /** `setCloudStatus(state)`. */
    method SetCloudStatus(state: string)
      modifies this
      ensures Current() == old(Current()).(cloudStatus := CloudStatusOf(state))
    {
      var s := ToLower(state);
      cloudStatus := if s == "up" || s == "ok" then Up else Down;
    }

    /** The UID part of `applyStatusSnapshot`. */
    method ApplyUid(u: string)
      requires lang in translations
      modifies this
      ensures Current() == WithUid(old(Current()), translations, lang, u)
    {
      if currentUid != Some(u) {
        currentUid := Some(u);
        uidText := if u == "" then T(translations, lang, "waiting") else u;
      }
    }

    /** The API-key part of `applyStatusSnapshot`. */
    method ApplyApiKey(key: string, apiValid: bool)
      modifies this
      ensures Current() == WithApiKey(old(Current()), key, apiValid)
    {
      if apiKey != key {
        apiKey := key;
      }
      var hasKey := |JsTrim(key)| > 0;
      apiStatus := if hasKey then (if apiValid then KeyValid else KeyInvalid) else KeyMissing;
    }

    /** The send-to-cloud part of `applyStatusSnapshot`. */
    method ApplySendToCloud(raw: string)
      modifies this
      ensures Current() == WithSendToCloud(old(Current()), raw)
    {
      var v := JsTrim(raw);
      if v == "" || v == "0" {
        sendState := Some(Hidden);
      } else if v == "send" {
        sendState := Some(Sending);
      } else if v == "success" {
        sendState := Some(Sent);
      } else if v == "error" {
        sendState := Some(SendError);
      } else if AllDigits(v) {
        sendState := Some(Countdown(v));
      }
    }

    /** `applyStatusSnapshot(s)`. */
    method ApplySnapshot(s: Snapshot)
      requires lang in translations
      modifies this
      ensures Current() == ApplyStatus(old(Current()), translations, lang, s)
    {
      ApplyIdentityPart(s);
      ApplyProgressPart(s);
    }

    method ApplyIdentityPart(s: Snapshot)
      requires lang in translations
      modifies this
      ensures Current() == ApplyIdentity(old(Current()), translations, lang, s)
    {
      if s.weight.Some? && currentWeight != s.weight {
        currentWeight := s.weight;
      }
      if s.uid.Some? {
        ApplyUid(s.uid.value);
      }
      if s.cloud.Some? {
        SetCloudStatus(s.cloud.value);
      }
      if s.apiKey.Some? {
        ApplyApiKey(s.apiKey.value, s.apiValid);
      }
    }

    method ApplyProgressPart(s: Snapshot)
      modifies this
      ensures Current() == ApplyProgress(old(Current()), s)
    {
      if s.calibrationFactor.Some? {
        calFactor := s.calibrationFactor.value;
      }
      if s.uptimeSecs.Some? {
        uptimeText := FormatHms(s.uptimeSecs.value);
      }
      if s.sendToCloud.Some? {
        ApplySendToCloud(s.sendToCloud.value);
      }
    }
  }
}
