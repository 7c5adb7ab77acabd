/** The firmware's controller state and event handlers (src/main.cpp) as
    values: `Globals` holds the global variables the handlers share, and
    each handler is a function from the globals before to the globals
    after, with what it broadcast to WebSocket clients and what it sent
    upstream. The clock reading, the scale sample, the card read, the Wi-Fi
    state and the outcome of the HTTPS call are inputs. */
module ScaleController {
  import opened Wrappers
  import opened Decimal
  import opened ArduinoString
  import opened Rounding
  import opened RfidUid
  import opened BodyScrape

  /** `uint32_t`, the type of `millis()` and of the stored timestamps. */
  type U32 = x: int | 0 <= x < 0x1_0000_0000

  const StableEpsilonG: real := 1.0
  const StableWindowMs: nat := 1500
  const MinWeightToSendG: real := 5.0
  const ResendDeltaG: real := 2.0
  const ResendCooldownMs: nat := 15000
  const DefaultCalibrationFactor: real := 406.0
  /** `loop()` refreshes the OLED and broadcasts once this much has passed. */
  const DisplayPeriodMs: nat := 500

  /** `now - since` on `uint32_t`, which wraps around. */
  function Elapsed(now: U32, since: U32): (d: U32)
    ensures since <= now ==> d == now - since
    ensures now < since ==> d == now - since + 0x1_0000_0000
  {
    (now - since) % 0x1_0000_0000
  }

  /** The globals: a NaN float is `None`. */
  datatype Globals = Globals(
    apiKey: string,
    calibrationFactor: real,
    currentWeight: real,
    lastUID: string,
    lastUIDHex: string,
    lastPushedWeight: Option<real>,
    stableSinceMs: U32,
    stableCandidate: Option<real>,
    lastPushMs: U32,
    lastUpdateMs: U32)

  /** The globals after `setup()` has read the stored preferences. */
  function Initial(storedApiKey: Option<string>, storedFactor: Option<real>): (g: Globals)
    ensures g.lastUID == "" && g.lastPushedWeight == None && g.stableCandidate == None
    ensures g.apiKey == storedApiKey.GetOr("")
    ensures g.calibrationFactor == storedFactor.GetOr(DefaultCalibrationFactor)
  {
    Globals(storedApiKey.GetOr(""), storedFactor.GetOr(DefaultCalibrationFactor),
            0.0, "", "", None, 0, None, 0, 0)
  }

  /** A WebSocket text frame: `{"weight":%d,"uid":"%s"}`, or the tare
      handler's `{"weight":%.2f,"uid":"%s"}`. */
  datatype Broadcast = WeightInt(weight: int, uid: string) | WeightFixed2(grams: real, uid: string)

  /** What a push to the cloud function carries: the decimal UID, the
      rounded weight and the API key header. */
  datatype PushRequest = PushRequest(uid: string, weight: int, apiKey: string)

  datatype AutoPushOutcome =
    | BelowMinimum
    | NotReady
    | WindowRestarted
    | Waiting
    | TooSimilar
    | Cooldown
    | Attempted(request: PushRequest, ok: bool)

  datatype AutoPushStep = AutoPushStep(next: Globals, outcome: AutoPushOutcome, sent: seq<Broadcast>)

  /** `handleAutoPush(w)` with `millis() == now`, `WiFi.isConnected() ==
      wifiUp` and `pushWeightToCloud(w) == pushOk`. */
  function AutoPush(g: Globals, w: real, now: U32, wifiUp: bool, pushOk: bool): AutoPushStep {
    if w < MinWeightToSendG then
      AutoPushStep(g.(stableSinceMs := 0, stableCandidate := None), BelowMinimum, [])
    else if |g.apiKey| == 0 || |g.lastUID| == 0 || !wifiUp then
      AutoPushStep(g, NotReady, [])
    else
      var g1 := if g.stableCandidate.None? then g.(stableCandidate := Some(w), stableSinceMs := now) else g;
      if Abs(w - g1.stableCandidate.value) > StableEpsilonG then
        AutoPushStep(g1.(stableCandidate := Some(w), stableSinceMs := now), WindowRestarted, [])
      else if Elapsed(now, g1.stableSinceMs) < StableWindowMs then
        AutoPushStep(g1, Waiting, [])
      else if g1.lastPushedWeight.Some? && Abs(w - g1.lastPushedWeight.value) < ResendDeltaG then
        AutoPushStep(g1, TooSimilar, [])
      else if g1.lastPushedWeight.Some? && Elapsed(now, g1.lastPushMs) < ResendCooldownMs then
        AutoPushStep(g1, Cooldown, [])
      else
        var wInt := RoundHalfAway(w);
        var request := PushRequest(g1.lastUID, wInt, g1.apiKey);
        if pushOk then
          AutoPushStep(
            g1.(lastPushMs := now, lastUID := "", lastPushedWeight := None,
                stableSinceMs := 0, stableCandidate := None),
            Attempted(request, true), [WeightInt(wInt, "")])
        else
          AutoPushStep(g1, Attempted(request, false), [])
  }

  /** `readRFID()`: the decimal key of the card read (empty when no new card
      is there), recording its hex form in `lastUIDHex`. */
  function ReadTag(g: Globals, card: Option<seq<Byte>>): (Globals, string) {
    match card
    case None => (g, "")
    case Some(bytes) =>
      (g.(lastUIDHex := ToUpper(LowerHex(bytes))), DecString(BigEndian(bytes) % Two64))
  }

  /** The arming block of `loop()`. */
  function Arm(g: Globals, uid: string): Globals {
    if |uid| > 0 && uid != g.lastUID then g.(lastUID := uid) else g
  }

  datatype LoopStep = LoopStep(next: Globals, outcome: AutoPushOutcome, sent: seq<Broadcast>)

  /** The part of a `loop()` pass before `handleAutoPush`: read the tag
      reader and arm, read the scale (`None` when the HX711 is not ready:
      `readWeight` then returns 0 and leaves `currentWeight` alone), and
      refresh observers every 500 ms. */
  function BeforePush(g: Globals, card: Option<seq<Byte>>, reading: Option<real>, now: U32): (Globals, seq<Broadcast>) {
    var (g1, uid) := ReadTag(g, card);
    var g2 := Arm(g1, uid);
    var g3 := if reading.Some? then g2.(currentWeight := reading.value) else g2;
    if Elapsed(now, g3.lastUpdateMs) > DisplayPeriodMs then
      (g3.(lastUpdateMs := now), [WeightInt(RoundHalfAway(reading.GetOr(0.0)), g3.lastUID)])
    else (g3, [])
  }

  /** One pass of `loop()`; every `millis()` call of the pass reads `now`. */
  function LoopTick(g: Globals, card: Option<seq<Byte>>, reading: Option<real>,
                    now: U32, wifiUp: bool, pushOk: bool): LoopStep
  {
    var (g4, beat) := BeforePush(g, card, reading, now);
    var r := AutoPush(g4, reading.GetOr(0.0), now, wifiUp, pushOk);
    LoopStep(r.next, r.outcome, beat + r.sent)
  }

  /** What the HTTPS client reports: `begin` failed, or a status code. */
  datatype Upstream = BeginFailed | Answered(code: int)

  datatype PushReply =
    | MissingWeight
    | BadJson
    | InvalidWeight
    | MissingApiKey
    | MissingUid
    | HttpBeginFailed
    | UpstreamError(code: int)
    | Synced(weight: int)

  /** The HTTP status the handler answers with. */
  function HttpStatus(r: PushReply): int {
    match r
    case HttpBeginFailed => 500
    case UpstreamError(_) => 502
    case Synced(_) => 200
    case _ => 400
  }

  datatype ManualPushStep = ManualPushStep(next: Globals, reply: PushReply, sent: seq<Broadcast>,
                                           request: Option<PushRequest>)

  /** The weight text check of the push-weight handler: a value that reads
      as 0 or less is refused unless the text starts with '0' or '.'. */
  predicate WeightTextRejected(num: string) {
    ToFloat(num) <= 0.0 && IndexOf(num, "0", 0) != 0 && IndexOf(num, ".", 0) != 0
  }

  /** What the handlers find after a field name: no such name, no ':'
      after it, or the number text scraped from after that ':'. */
  datatype Field = NoKey | NoColon | NumberText(num: string)

  /** The scan shared by the push-weight and calibration handlers. */
  function ScanField(body: string, key: string, keepMinusAtEnd: bool): Field {
    var p := IndexOf(body, key, 0);
    if p < 0 then NoKey
    else
      var colon := IndexOf(body, ":", p);
      if colon < 0 then NoColon
      else NumberText(ScrapedNumber(body, colon + 1, keepMinusAtEnd))
  }

  /** The `/api/push-weight` handler. */
  function ManualPush(g: Globals, body: string, upstream: Upstream): ManualPushStep {
    match ScanField(body, "weight", false)
    case NoKey => ManualPushStep(g, MissingWeight, [], None)
    case NoColon => ManualPushStep(g, BadJson, [], None)
    case NumberText(num) => ManualPushOfText(g, num, upstream)
  }

  /** The push-weight handler once it has the number text. */
  function ManualPushOfText(g: Globals, num: string, upstream: Upstream): ManualPushStep {
    if WeightTextRejected(num) then ManualPushStep(g, InvalidWeight, [], None)
    else if |g.apiKey| == 0 then ManualPushStep(g, MissingApiKey, [], None)
    else if |g.lastUID| == 0 then ManualPushStep(g, MissingUid, [], None)
    else
      var wi := RoundHalfAway(ToFloat(num));
      var request := PushRequest(g.lastUID, wi, g.apiKey);
      match upstream
      case BeginFailed => ManualPushStep(g, HttpBeginFailed, [], None)
      case Answered(code) =>
        if 200 <= code < 300 then
          ManualPushStep(
            g.(currentWeight := wi as real, lastUID := "", lastPushedWeight := None,
               stableSinceMs := 0, stableCandidate := None),
            Synced(wi), [WeightInt(wi, "")], Some(request))
        else
          ManualPushStep(g, UpstreamError(code), [], Some(request))
  }

  datatype CalibrationReply = MissingFactor | CalibrationBadJson | InvalidFactor | FactorSaved(factor: real)

  /** The `/api/calibration` handler (the HX711 `set_scale` call and the
      preference write are outside the model). */
  function Calibration(g: Globals, body: string): (Globals, CalibrationReply) {
    match ScanField(body, "factor", true)
    case NoKey => (g, MissingFactor)
    case NoColon => (g, CalibrationBadJson)
    case NumberText(num) =>
      var f := ToFloat(num);
      if f == 0.0 then (g, InvalidFactor)
      else (g.(calibrationFactor := f), FactorSaved(f))
  }

  /** The `/api/config` handler: the key is always replaced. */
  function Config(g: Globals, body: string): Globals {
    g.(apiKey := ExtractApiKey(body))
  }

  /** The `/api/tare` handler (the HX711 tare itself is outside the model). */
  function Tare(g: Globals): (Globals, Broadcast) {
    (g.(currentWeight := 0.0), WeightFixed2(0.0, g.lastUID))
  }

  // ---------------------------------------------------------------------
  // Properties of one automatic-push tick

  /** A sample under 5 g resets the stability window and never pushes. */
  lemma AutoPushBelowMinimum(g: Globals, w: real, now: U32, wifiUp: bool, pushOk: bool)
    requires w < MinWeightToSendG
    ensures var r := AutoPush(g, w, now, wifiUp, pushOk);
            r.next == g.(stableSinceMs := 0, stableCandidate := None)
            && r.outcome == BelowMinimum && r.sent == []
  {
  }

  /** Without an API key, an armed tag or Wi-Fi, nothing changes. */
  lemma AutoPushNotReady(g: Globals, w: real, now: U32, wifiUp: bool, pushOk: bool)
    requires w >= MinWeightToSendG
    requires |g.apiKey| == 0 || |g.lastUID| == 0 || !wifiUp
    ensures var r := AutoPush(g, w, now, wifiUp, pushOk);
            r.next == g && r.outcome == NotReady && r.sent == []
  {
  }

  /** A sample more than 1 g away from the candidate restarts the window on
      it, with no push. */
  lemma AutoPushRestartsWindow(g: Globals, w: real, now: U32, wifiUp: bool, pushOk: bool)
    requires w >= MinWeightToSendG && |g.apiKey| > 0 && |g.lastUID| > 0 && wifiUp
    requires g.stableCandidate.Some? && Abs(w - g.stableCandidate.value) > StableEpsilonG
    ensures var r := AutoPush(g, w, now, wifiUp, pushOk);
            r.next == g.(stableCandidate := Some(w), stableSinceMs := now)
            && r.outcome == WindowRestarted && r.sent == []
  {
  }

  /** The first qualifying sample only opens the window. */
  lemma AutoPushOpensWindow(g: Globals, w: real, now: U32, wifiUp: bool, pushOk: bool)
    requires w >= MinWeightToSendG && |g.apiKey| > 0 && |g.lastUID| > 0 && wifiUp
    requires g.stableCandidate.None?
    ensures var r := AutoPush(g, w, now, wifiUp, pushOk);
            r.next == g.(stableCandidate := Some(w), stableSinceMs := now)
            && r.outcome == Waiting && r.sent == []
  {
    assert Abs(w - w) == 0.0;
  }

  /** The invariant the handlers keep: `lastPushedWeight` is NaN. */
  predicate ThrottleCleared(g: Globals) {
    g.lastPushedWeight.None?
  }

  /** While the invariant holds, a push is attempted exactly when the sample
      is at least 5 g, key, tag and Wi-Fi are there, a candidate exists
      within 1 g of the sample, and at least 1500 ms (modulo 2^32) have
      passed since the window opened; the request carries the armed UID,
      the key and the sample rounded half away from zero. */
  lemma AutoPushAttempt(g: Globals, w: real, now: U32, wifiUp: bool, pushOk: bool)
    requires ThrottleCleared(g)
    ensures var r := AutoPush(g, w, now, wifiUp, pushOk);
            r.outcome.Attempted? <==>
              (w >= MinWeightToSendG && |g.apiKey| > 0 && |g.lastUID| > 0 && wifiUp
               && g.stableCandidate.Some? && Abs(w - g.stableCandidate.value) <= StableEpsilonG
               && Elapsed(now, g.stableSinceMs) >= StableWindowMs)
    ensures var r := AutoPush(g, w, now, wifiUp, pushOk);
            r.outcome.Attempted? ==>
              r.outcome == Attempted(PushRequest(g.lastUID, RoundHalfAway(w), g.apiKey), pushOk)
  {
    if w >= MinWeightToSendG && |g.apiKey| > 0 && |g.lastUID| > 0 && wifiUp && g.stableCandidate.None? {
      AutoPushOpensWindow(g, w, now, wifiUp, pushOk);
    }
  }

  /** A successful push disarms the tag, clears the window and the throttle,
      stamps `lastPushMs`, and broadcasts the rounded weight with an empty
      UID. */
  lemma AutoPushSuccess(g: Globals, w: real, now: U32, wifiUp: bool)
    requires AutoPush(g, w, now, wifiUp, true).outcome.Attempted?
    ensures var r := AutoPush(g, w, now, wifiUp, true);
            r.next == g.(lastUID := "", stableCandidate := None, stableSinceMs := 0,
                         lastPushedWeight := None, lastPushMs := now)
            && r.outcome.ok
            && r.sent == [WeightInt(RoundHalfAway(w), "")]
  {
    assert g.stableCandidate.Some?;
  }

  /** A failed push changes no state and broadcasts nothing. */
  lemma AutoPushFailure(g: Globals, w: real, now: U32, wifiUp: bool)
    requires AutoPush(g, w, now, wifiUp, false).outcome.Attempted?
    ensures var r := AutoPush(g, w, now, wifiUp, false);
            r.next == g && !r.outcome.ok && r.sent == []
  {
    assert g.stableCandidate.Some?;
  }

  /** There is no backoff: after a failed push, the next tick whose clock is
      still at least 1500 ms past the window start tries again with a
      sample within 1 g of the candidate. */
  lemma RetryAfterFailure(g: Globals, w: real, now: U32, wifiUp: bool,
                          w': real, now': U32, pushOk': bool)
    requires ThrottleCleared(g)
    requires AutoPush(g, w, now, wifiUp, false).outcome.Attempted?
    requires w' >= MinWeightToSendG && Abs(w' - g.stableCandidate.value) <= StableEpsilonG
    requires Elapsed(now', g.stableSinceMs) >= StableWindowMs
    ensures var r := AutoPush(g, w, now, wifiUp, false);
            AutoPush(r.next, w', now', wifiUp, pushOk').outcome.Attempted?
  {
    AutoPushAttempt(g, w, now, wifiUp, false);
    AutoPushFailure(g, w, now, wifiUp);
    AutoPushAttempt(g, w', now', wifiUp, pushOk');
  }

  /** `lastPushedWeight` is NaN again on every return, so the resend-delta
      and cooldown returns are never taken. */
  lemma AutoPushKeepsThrottleCleared(g: Globals, w: real, now: U32, wifiUp: bool, pushOk: bool)
    requires ThrottleCleared(g)
    ensures var r := AutoPush(g, w, now, wifiUp, pushOk);
            ThrottleCleared(r.next) && r.outcome != TooSimilar && r.outcome != Cooldown
  {
  }

  // ---------------------------------------------------------------------
  // Tag arming and the loop

  /** Arming replaces the UID with any non-empty read and nothing else: an
      empty read never clears it, and the window and throttle are left as
      they were. */
  lemma ArmTag(g: Globals, uid: string)
    ensures Arm(g, uid) == g.(lastUID := if |uid| > 0 then uid else g.lastUID)
  {
  }

  /** Any card that is read yields a non-empty key, so reading one always
      arms that card's key. */
  lemma CardReadArms(g: Globals, bytes: seq<Byte>)
    ensures var (g1, uid) := ReadTag(g, Some(bytes));
            |uid| > 0 && Arm(g1, uid).lastUID == DecString(BigEndian(bytes) % Two64)
  {
    DecStringCanonical(BigEndian(bytes) % Two64);
  }

  /** A scale that is not ready reads 0 g, which resets the window. */
  lemma ScaleNotReadyResetsWindow(g: Globals, card: Option<seq<Byte>>, now: U32, wifiUp: bool, pushOk: bool)
    ensures var r := LoopTick(g, card, None, now, wifiUp, pushOk);
            r.outcome == BelowMinimum && r.next.stableCandidate == None && r.next.stableSinceMs == 0
            && r.next.currentWeight == g.currentWeight
  {
  }

  /** Every 500 ms the loop broadcasts the rounded sample with the armed
      UID, before the automatic push runs. */
  lemma LoopHeartbeat(g: Globals, card: Option<seq<Byte>>, reading: Option<real>,
                      now: U32, wifiUp: bool, pushOk: bool)
    requires Elapsed(now, g.lastUpdateMs) > DisplayPeriodMs
    ensures var r := LoopTick(g, card, reading, now, wifiUp, pushOk);
            var armed := Arm(ReadTag(g, card).0, ReadTag(g, card).1).lastUID;
            |r.sent| >= 1 && r.sent[0] == WeightInt(RoundHalfAway(reading.GetOr(0.0)), armed)
  {
  }

  // ---------------------------------------------------------------------
  // The manual push handler

  /** The handler's checks in their order: a missing "weight", a missing
      ':', refused weight text, an empty key (checked before the tag), then
      no armed tag. A refused request changes nothing and sends nothing. */
  lemma ManualPushChecks(g: Globals, body: string, upstream: Upstream)
    ensures var r := ManualPush(g, body, upstream);
            var f := ScanField(body, "weight", false);
            && (f == NoKey ==> r.reply == MissingWeight)
            && (f == NoColon ==> r.reply == BadJson)
            && (f.NumberText? && WeightTextRejected(f.num) ==> r.reply == InvalidWeight)
            && (f.NumberText? && !WeightTextRejected(f.num) && |g.apiKey| == 0 ==> r.reply == MissingApiKey)
            && (f.NumberText? && !WeightTextRejected(f.num) && |g.apiKey| > 0 && |g.lastUID| == 0
                ==> r.reply == MissingUid)
            && (HttpStatus(r.reply) == 400 ==> r.next == g && r.sent == [] && r.request == None)
  {
    match ScanField(body, "weight", false)
    case NoKey =>
    case NoColon =>
    case NumberText(num) =>
      assert ManualPush(g, body, upstream) == ManualPushOfText(g, num, upstream);
      ManualPushOfTextChecks(g, num, upstream);
  }

  /** The checks once the number text is known. */
  lemma ManualPushOfTextChecks(g: Globals, num: string, upstream: Upstream)
    ensures var r := ManualPushOfText(g, num, upstream);
            && (WeightTextRejected(num) ==> r.reply == InvalidWeight)
            && (!WeightTextRejected(num) && |g.apiKey| == 0 ==> r.reply == MissingApiKey)
            && (!WeightTextRejected(num) && |g.apiKey| > 0 && |g.lastUID| == 0 ==> r.reply == MissingUid)
            && (HttpStatus(r.reply) == 400 ==> r.next == g && r.sent == [] && r.request == None)
  {
  }

  /** With no tag armed, no request ever leaves the device. */
  lemma ManualPushNeedsTag(g: Globals, body: string, upstream: Upstream)
    requires g.lastUID == ""
    ensures var r := ManualPush(g, body, upstream);
            r.request == None && r.next == g && r.sent == [] && HttpStatus(r.reply) == 400
  {
  }

  /** A request goes upstream only for accepted weight text, and carries
      that text's value rounded half away from zero. */
  lemma ManualPushRequest(g: Globals, body: string, upstream: Upstream)
    ensures var r := ManualPush(g, body, upstream);
            var f := ScanField(body, "weight", false);
            r.request.Some? ==>
              && f.NumberText? && !WeightTextRejected(f.num)
              && r.request.value == PushRequest(g.lastUID, RoundHalfAway(ToFloat(f.num)), g.apiKey)
  {
    match ScanField(body, "weight", false)
    case NoKey =>
    case NoColon =>
    case NumberText(num) =>
      assert ManualPush(g, body, upstream) == ManualPushOfText(g, num, upstream);
      ManualPushOfTextRequest(g, num, upstream);
  }

  /** The same, once the number text is known. */
  lemma ManualPushOfTextRequest(g: Globals, num: string, upstream: Upstream)
    ensures var r := ManualPushOfText(g, num, upstream);
            r.request.Some? ==>
              !WeightTextRejected(num)
              && r.request.value == PushRequest(g.lastUID, RoundHalfAway(ToFloat(num)), g.apiKey)
  {
  }

  /** Weight text that passes the check never reads as negative: text that
      reads as 0 or less passes only when it starts with '0' or '.', and
      such text reads as 0. */
  lemma AcceptedWeightTextNonNegative(num: string)
    requires !WeightTextRejected(num)
    ensures ToFloat(num) >= 0.0
  {
    if ToFloat(num) <= 0.0 {
      if IndexOf(num, "0", 0) == 0 {
        assert OccursAt(num, "0", 0);
        assert num[0] == '0';
      } else {
        assert OccursAt(num, ".", 0);
        assert num[0] == '.';
      }
      ToFloatUnsigned(num);
    }
  }

  /** Hence a weight that goes upstream is never negative. */
  lemma ManualPushWeightNonNegative(g: Globals, body: string, upstream: Upstream)
    ensures var r := ManualPush(g, body, upstream);
            r.request.Some? ==> r.request.value.weight >= 0
  {
    var f := ScanField(body, "weight", false);
    ManualPushRequest(g, body, upstream);
    if f.NumberText? && !WeightTextRejected(f.num) {
      AcceptedWeightTextNonNegative(f.num);
      RoundMonotonic(0.0, ToFloat(f.num));
      RoundOfInteger(0);
    }
  }

  /** A 2xx answer disarms the tag, clears the window and the throttle, sets
      `currentWeight` to the rounded weight (leaving `lastPushMs` alone) and
      broadcasts it with an empty UID; any other answer changes nothing. */
  lemma ManualPushOutcome(g: Globals, body: string, upstream: Upstream)
    ensures var r := ManualPush(g, body, upstream);
            r.reply.Synced? ==>
              && upstream.Answered? && 200 <= upstream.code < 300
              && r.request == Some(PushRequest(g.lastUID, r.reply.weight, g.apiKey))
              && r.next == g.(currentWeight := r.reply.weight as real, lastUID := "",
                              lastPushedWeight := None, stableSinceMs := 0, stableCandidate := None)
              && r.sent == [WeightInt(r.reply.weight, "")]
    ensures var r := ManualPush(g, body, upstream);
            !r.reply.Synced? ==> r.next == g && r.sent == []
  {
    match ScanField(body, "weight", false)
    case NoKey =>
    case NoColon =>
    case NumberText(num) =>
      assert ManualPush(g, body, upstream) == ManualPushOfText(g, num, upstream);
      ManualPushOfTextOutcome(g, num, upstream);
  }

  /** The same, once the number text is known. */
  lemma ManualPushOfTextOutcome(g: Globals, num: string, upstream: Upstream)
    ensures var r := ManualPushOfText(g, num, upstream);
            r.reply.Synced? ==>
              && upstream.Answered? && 200 <= upstream.code < 300
              && r.request == Some(PushRequest(g.lastUID, r.reply.weight, g.apiKey))
              && r.next == g.(currentWeight := r.reply.weight as real, lastUID := "",
                              lastPushedWeight := None, stableSinceMs := 0, stableCandidate := None)
              && r.sent == [WeightInt(r.reply.weight, "")]
    ensures var r := ManualPushOfText(g, num, upstream);
            !r.reply.Synced? ==> r.next == g && r.sent == []
  {
  }

  /** The request body `{"<key>":<value>}`. */
  function OneFieldObject(key: string, value: string): string {
    "{\"" + key + "\":" + value + "}"
  }

  /** The one-field object `{"<key>":<n>}` scans to exactly the digits of
      `n`, whichever trailing filter is used. */
  lemma ScanOneFieldObject(key: string, n: nat, keepMinusAtEnd: bool)
    requires |key| > 0 && key[0] != '{' && key[0] != '"'
    requires forall i :: 0 <= i < |key| ==> key[i] != ':'
    ensures ScanField(OneFieldObject(key, DecString(n)), key, keepMinusAtEnd) == NumberText(DecString(n))
  {
    var d := DecString(n);
    var body := "{\"" + key + "\":" + d + "}";
    var m := |key|;
    assert body == "{\"" + key + "\":" + (d + "}");
    assert !OccursAt(body, key, 0) && !OccursAt(body, key, 1) by {
      assert body[0] == '{' && body[1] == '"';
      assert body[0..m][0] == '{' && body[1..1 + m][0] == '"';
    }
    assert body[2..2 + m] == key;
    IndexOfAt(body, key, 0, 2);
    assert body[2 + m] == '"' && body[3 + m] == ':';
    forall i | 2 <= i < 3 + m
      ensures body[i] != ':'
    {
      if i < 2 + m {
        assert body[i] == key[i - 2];
      }
    }
    IndexOfCharAt(body, ':', 2, 3 + m);
    assert ":" == [':'];
    assert body[4 + m..] == d + "}";
    ScrapesCanonicalNumber(n, "}", keepMinusAtEnd);
  }

  /** The body the device's own page posts, `{"weight":<n>}`, pushes exactly
      `n` grams for the armed tag. */
  lemma ManualPushPageBody(g: Globals, n: nat, code: int)
    requires |g.apiKey| > 0 && |g.lastUID| > 0 && 200 <= code < 300
    ensures var r := ManualPush(g, OneFieldObject("weight", DecString(n)), Answered(code));
            r.reply == Synced(n) && r.request == Some(PushRequest(g.lastUID, n, g.apiKey))
  {
    var d := DecString(n);
    ScanOneFieldObject("weight", n, false);
    ToFloatDecString(n);
    RoundOfInteger(n);
    if n == 0 {
      assert OccursAt(d, "0", 0);
      assert IndexOf(d, "0", 0) == 0;
    }
    assert !WeightTextRejected(d);
    ManualPushAccepted(g, OneFieldObject("weight", d), d, code);
  }

  /** Accepted weight text with a key, a tag and a 2xx answer is synced. */
  lemma ManualPushAccepted(g: Globals, body: string, num: string, code: int)
    requires ScanField(body, "weight", false) == NumberText(num) && !WeightTextRejected(num)
    requires |g.apiKey| > 0 && |g.lastUID| > 0 && 200 <= code < 300
    ensures var r := ManualPush(g, body, Answered(code));
            var wi := RoundHalfAway(ToFloat(num));
            r.reply == Synced(wi) && r.request == Some(PushRequest(g.lastUID, wi, g.apiKey))
  {
  }

  // ---------------------------------------------------------------------
  // Calibration, configuration, tare

  /** A saved factor is never 0; a refused body changes nothing. */
  lemma CalibrationSavesNonZero(g: Globals, body: string)
    ensures var (g', reply) := Calibration(g, body);
            (reply.FactorSaved? ==> reply.factor != 0.0 && g' == g.(calibrationFactor := reply.factor))
            && (!reply.FactorSaved? ==> g' == g)
  {
  }

  /** The body the device's own page posts, `{"factor":<n>}`, stores `n`. */
  lemma CalibrationPageBody(g: Globals, n: nat)
    requires n > 0
    ensures Calibration(g, OneFieldObject("factor", DecString(n))) == (g.(calibrationFactor := n as real), FactorSaved(n as real))
  {
    ScanOneFieldObject("factor", n, true);
    ToFloatDecString(n);
  }

  /** Text that lacks one of the characters of `pat` has no occurrence. */
  lemma NoOccurrenceWithout(s: string, pat: string, k: nat, c: char)
    requires k < |pat| && pat[k] == c
    requires forall i :: 0 <= i < |s| ==> s[i] != c
    ensures IndexOf(s, pat, 0) == -1
  {
    forall j | 0 <= j
      ensures !OccursAt(s, pat, j)
    {
      if j + |pat| <= |s| {
        assert s[j..j + |pat|][k] == s[j + k];
      }
    }
  }

  /** The calibration wizard of web-src/script.js posts `{"value":<f>}`;
      JSON number text has no 'f', so the handler never finds "factor" and
      answers 400 "missing factor", leaving the factor as it was. */
  lemma CalibrationRefusesWizardBody(g: Globals, num: string)
    requires forall i :: 0 <= i < |num| ==> num[i] != 'f'
    ensures Calibration(g, OneFieldObject("value", num)) == (g, MissingFactor)
  {
    var body := OneFieldObject("value", num);
    forall i | 0 <= i < |body|
      ensures body[i] != 'f'
    {
      if 9 <= i < 9 + |num| {
        assert body[i] == num[i - 9];
      }
    }
    NoOccurrenceWithout(body, "factor", 0, 'f');
  }

  /** The config handler stores the key the page posts as
      `{"apiKey":"<key>"}`, and nothing else changes. */
  lemma ConfigStoresPostedKey(g: Globals, key: string)
    requires forall i :: 0 <= i < |key| ==> key[i] != '"'
    requires |key| < 0x1_0000_0000 - 16
    ensures Config(g, "{" + ApiKeyMarker + key + "\"}") == g.(apiKey := key)
  {
    ApiKeyRoundTrip(key);
  }

  /** Tare only zeroes the displayed weight: the auto-push decision that
      follows is the one the untared globals would have taken, with the
      same broadcasts, and the next globals differ only in `currentWeight`. */
  lemma TareKeepsAutoPush(g: Globals, w: real, now: U32, wifiUp: bool, pushOk: bool)
    ensures var before := AutoPush(g, w, now, wifiUp, pushOk);
            var after := AutoPush(Tare(g).0, w, now, wifiUp, pushOk);
            after.outcome == before.outcome && after.sent == before.sent
            && after.next == before.next.(currentWeight := 0.0)
  {
  }

  // ---------------------------------------------------------------------
  // Whole runs

  /** One invocation of a handler or of `loop()`, each taken as atomic. */
  datatype Event =
    | Tick(card: Option<seq<Byte>>, reading: Option<real>, now: U32, wifiUp: bool, pushOk: bool)
    | PushWeight(body: string, upstream: Upstream)
    | SetCalibration(body: string)
    | SetConfig(body: string)
    | TareScale

  function Apply(g: Globals, e: Event): Globals {
    match e
    case Tick(card, reading, now, wifiUp, pushOk) => LoopTick(g, card, reading, now, wifiUp, pushOk).next
    case PushWeight(body, upstream) => ManualPush(g, body, upstream).next
    case SetCalibration(body) => Calibration(g, body).0
    case SetConfig(body) => Config(g, body)
    case TareScale => Tare(g).0
  }

  function Run(g: Globals, events: seq<Event>): Globals
    decreases |events|
  {
    if events == [] then g else Run(Apply(g, events[0]), events[1..])
  }

  /** Every loop tick outcome along a run of ticks. */
  function TickOutcomes(g: Globals, events: seq<Event>): seq<AutoPushOutcome>
    requires forall i :: 0 <= i < |events| ==> events[i].Tick?
    decreases |events|
  {
    if events == [] then []
    else
      var e := events[0];
      var r := LoopTick(g, e.card, e.reading, e.now, e.wifiUp, e.pushOk);
      [r.outcome] + TickOutcomes(r.next, events[1..])
  }

  /** From start-up, whatever the interleaving of ticks and requests,
      `lastPushedWeight` stays NaN. */
  lemma {:induction false} ThrottleStaysCleared(g: Globals, events: seq<Event>)
    requires ThrottleCleared(g)
    ensures ThrottleCleared(Run(g, events))
    decreases |events|
  {
    if events != [] {
      var e := events[0];
      match e {
      case Tick(card, reading, now, wifiUp, pushOk) =>
        AutoPushKeepsThrottleCleared(BeforePush(g, card, reading, now).0, reading.GetOr(0.0), now, wifiUp, pushOk);
      case PushWeight(body, upstream) =>
        ManualPushOutcome(g, body, upstream);
      case SetCalibration(body) =>
        CalibrationSavesNonZero(g, body);
      case SetConfig(_) =>
      case TareScale =>
      }
      ThrottleStaysCleared(Apply(g, e), events[1..]);
    }
  }

  /** Hence the resend-delta and cooldown returns are never taken, on any
      tick of any run from start-up. */
  lemma {:induction false} ThrottleNeverEngages(g: Globals, events: seq<Event>)
    requires ThrottleCleared(g)
    requires forall i :: 0 <= i < |events| ==> events[i].Tick?
    ensures forall i :: 0 <= i < |TickOutcomes(g, events)| ==>
              TickOutcomes(g, events)[i] != TooSimilar && TickOutcomes(g, events)[i] != Cooldown
    decreases |events|
  {
    if events != [] {
      var e := events[0];
      AutoPushKeepsThrottleCleared(BeforePush(g, e.card, e.reading, e.now).0, e.reading.GetOr(0.0), e.now, e.wifiUp, e.pushOk);
      var r := LoopTick(g, e.card, e.reading, e.now, e.wifiUp, e.pushOk);
      ThrottleNeverEngages(r.next, events[1..]);
    }
  }

  /** One push per tag presentation: with no tag armed and no card read,
      no tick attempts a push, however stable the weight. */
  lemma {:induction false} NoPushWithoutNewTag(g: Globals, events: seq<Event>)
    requires g.lastUID == ""
    requires forall i :: 0 <= i < |events| ==> events[i].Tick? && events[i].card == None
    ensures forall i :: 0 <= i < |TickOutcomes(g, events)| ==> !TickOutcomes(g, events)[i].Attempted?
    decreases |events|
  {
    if events != [] {
      var e := events[0];
      var r := LoopTick(g, e.card, e.reading, e.now, e.wifiUp, e.pushOk);
      assert r.next.lastUID == "";
      NoPushWithoutNewTag(r.next, events[1..]);
    }
  }

  // ---------------------------------------------------------------------
  // Scenarios

  /** Samples of 100.0, 100.4, 99.7 and 100.1 g, 500 ms apart, with a tag
      armed: the fourth sample is 1500 ms after the window opened and is
      pushed as 100 g, after which the tag is disarmed. */
  lemma StableScenario(g: Globals)
    requires |g.apiKey| > 0 && |g.lastUID| > 0 && g.stableCandidate == None && ThrottleCleared(g)
    ensures var r1 := AutoPush(g, 100.0, 1000, true, true);
            var r2 := AutoPush(r1.next, 100.4, 1500, true, true);
            var r3 := AutoPush(r2.next, 99.7, 2000, true, true);
            var r4 := AutoPush(r3.next, 100.1, 2500, true, true);
            r1.outcome == Waiting && r2.outcome == Waiting && r3.outcome == Waiting
            && r4.outcome == Attempted(PushRequest(g.lastUID, 100, g.apiKey), true)
            && r4.next.lastUID == ""
  {
    AutoPushOpensWindow(g, 100.0, 1000, true, true);
  }

  /** The same samples 300 ms apart span only 900 ms: no push yet. */
  lemma FastScenarioWaits(g: Globals)
    requires |g.apiKey| > 0 && |g.lastUID| > 0 && g.stableCandidate == None && ThrottleCleared(g)
    ensures var r1 := AutoPush(g, 100.0, 1000, true, true);
            var r2 := AutoPush(r1.next, 100.4, 1300, true, true);
            var r3 := AutoPush(r2.next, 99.7, 1600, true, true);
            var r4 := AutoPush(r3.next, 100.1, 1900, true, true);
            r4.outcome == Waiting && r4.next.lastUID == g.lastUID
  {
    AutoPushOpensWindow(g, 100.0, 1000, true, true);
  }

  /** No cooldown applies between pushes: 12 g is pushed, the same tag is
      presented again, and 20 g is pushed 5 s after the first push. */
  lemma NoCooldownBetweenPushes(g: Globals, uid: string)
    requires |g.apiKey| > 0 && g.lastUID == uid && |uid| > 0
    requires g.stableCandidate == Some(12.0) && g.stableSinceMs == 8000 && ThrottleCleared(g)
    ensures var r1 := AutoPush(g, 12.0, 10000, true, true);
            var g2 := Arm(r1.next, uid);
            var r2 := AutoPush(g2, 20.0, 13500, true, true);
            var r3 := AutoPush(r2.next, 20.0, 15000, true, true);
            r1.outcome.Attempted? && r1.outcome.ok && r2.outcome == Waiting
            && r3.outcome == Attempted(PushRequest(uid, 20, g.apiKey), true)
  {
    var r1 := AutoPush(g, 12.0, 10000, true, true);
    AutoPushSuccess(g, 12.0, 10000, true);
    AutoPushOpensWindow(Arm(r1.next, uid), 20.0, 13500, true, true);
  }
}
