/** The firmware's globals as one object whose handlers update them in
    place, each proved to make exactly the step its ScaleController
    function describes. `broadcasts` is every text frame sent to the
    WebSocket clients so far. */
module ScaleFirmware {
  import opened Wrappers
  import opened ArduinoString
  import opened Rounding
  import opened RfidUid
  import opened BodyScrape
  import opened ScaleController

  class Scale {
    var apiKey: string
    var calibrationFactor: real
    var currentWeight: real
    var lastUID: string
    var lastUIDHex: string
    var lastPushedWeight: Option<real>
    var stableSinceMs: U32
    var stableCandidate: Option<real>
    var lastPushMs: U32
    var lastUpdateMs: U32
    var broadcasts: seq<Broadcast>

    /** The globals as a value. */
    function State(): Globals
      reads this
    {
      Globals(apiKey, calibrationFactor, currentWeight, lastUID, lastUIDHex,
              lastPushedWeight, stableSinceMs, stableCandidate, lastPushMs, lastUpdateMs)
    }

    /** `setup()`: the key and calibration factor come from the stored
        preferences when present. */
    constructor (storedApiKey: Option<string>, storedFactor: Option<real>)
      ensures State() == Initial(storedApiKey, storedFactor) && broadcasts == []
    {
      apiKey := storedApiKey.GetOr("");
      calibrationFactor := storedFactor.GetOr(DefaultCalibrationFactor);
      currentWeight := 0.0;
      lastUID := "";
      lastUIDHex := "";
      lastPushedWeight := None;
      stableSinceMs := 0;
      stableCandidate := None;
      lastPushMs := 0;
      lastUpdateMs := 0;
      broadcasts := [];
    }

    method HandleAutoPush(w: real, now: U32, wifiUp: bool, pushOk: bool) returns (outcome: AutoPushOutcome)
      modifies this
      ensures var r := AutoPush(old(State()), w, now, wifiUp, pushOk);
              State() == r.next && outcome == r.outcome && broadcasts == old(broadcasts) + r.sent
    {
      if w < MinWeightToSendG {
        stableSinceMs := 0;
        stableCandidate := None;
        return BelowMinimum;
      }
      if |apiKey| == 0 || |lastUID| == 0 || !wifiUp {
        return NotReady;
      }
      if stableCandidate.None? {
        stableCandidate := Some(w);
        stableSinceMs := now;
      }
      if Abs(w - stableCandidate.value) > StableEpsilonG {
        stableCandidate := Some(w);
        stableSinceMs := now;
        return WindowRestarted;
      }
      if Elapsed(now, stableSinceMs) < StableWindowMs {
        return Waiting;
      }
      if lastPushedWeight.Some? {
        if Abs(w - lastPushedWeight.value) < ResendDeltaG {
          return TooSimilar;
        }
        if Elapsed(now, lastPushMs) < ResendCooldownMs {
          return Cooldown;
        }
      }
      var request := PushRequest(lastUID, RoundHalfAway(w), apiKey);
      if pushOk {
        var wInt := RoundHalfAway(w);
        lastPushedWeight := Some(w);
        lastPushMs := now;
        lastUID := "";
        lastPushedWeight := None;
        stableSinceMs := 0;
        stableCandidate := None;
        broadcasts := broadcasts + [WeightInt(wInt, lastUID)];
        outcome := Attempted(request, true);
      } else {
        outcome := Attempted(request, false);
      }
    }

    /** `readRFID()`; the card's UID, if a new card answered, is an input. */
    method ReadRfid(card: Option<seq<Byte>>) returns (uid: string)
      requires card.Some? ==> |card.value| < 256
      modifies this
      ensures (State(), uid) == ReadTag(old(State()), card) && broadcasts == old(broadcasts)
    {
      if card.None? {
        return "";
      }
      var hex, dec := UidRenderings(card.value);
      lastUIDHex := hex;
      uid := dec;
    }

    /** The part of a `loop()` pass before `handleAutoPush`; returns the
        sample `readWeight` gave. */
    method ReadAndRefresh(card: Option<seq<Byte>>, reading: Option<real>, now: U32) returns (weight: real)
      requires card.Some? ==> |card.value| < 256
      modifies this
      ensures State() == BeforePush(old(State()), card, reading, now).0
      ensures broadcasts == old(broadcasts) + BeforePush(old(State()), card, reading, now).1
      ensures weight == reading.GetOr(0.0)
    {
      var uid := ReadRfid(card);
      if |uid| > 0 && uid != lastUID {
        lastUID := uid;
      }
      weight := 0.0;
      if reading.Some? {
        currentWeight := reading.value;
        weight := currentWeight;
      }
      if Elapsed(now, lastUpdateMs) > DisplayPeriodMs {
        broadcasts := broadcasts + [WeightInt(RoundHalfAway(weight), lastUID)];
        lastUpdateMs := now;
      }
    }

    /** One pass of `loop()`. */
    method Loop(card: Option<seq<Byte>>, reading: Option<real>, now: U32, wifiUp: bool, pushOk: bool)
      returns (outcome: AutoPushOutcome)
      requires card.Some? ==> |card.value| < 256
      modifies this
      ensures var r := LoopTick(old(State()), card, reading, now, wifiUp, pushOk);
              State() == r.next && outcome == r.outcome && broadcasts == old(broadcasts) + r.sent
    {
      var weight := ReadAndRefresh(card, reading, now);
      outcome := HandleAutoPush(weight, now, wifiUp, pushOk);
    }

    /** The `/api/push-weight` handler; `upstream` is what the HTTPS client
        reports when a request is made. */
    method PushWeight(body: string, upstream: Upstream) returns (status: int, reply: PushReply, request: Option<PushRequest>)
      modifies this
      ensures var r := ManualPush(old(State()), body, upstream);
              State() == r.next && reply == r.reply && request == r.request
              && status == HttpStatus(r.reply) && broadcasts == old(broadcasts) + r.sent
    {
      var field := ScanBody(body, "weight", false);
      if field == NoKey {
        return 400, MissingWeight, None;
      }
      if field == NoColon {
        return 400, BadJson, None;
      }
      status, reply, request := PushWeightText(field.num, upstream);
    }

    /** The push-weight handler from the number text on. */
    method PushWeightText(num: string, upstream: Upstream) returns (status: int, reply: PushReply, request: Option<PushRequest>)
      modifies this
      ensures var r := ManualPushOfText(old(State()), num, upstream);
              State() == r.next && reply == r.reply && request == r.request
              && status == HttpStatus(r.reply) && broadcasts == old(broadcasts) + r.sent
    {
      var w := ToFloat(num);
      var wi := RoundHalfAway(w);
      if w <= 0.0 && IndexOf(num, "0", 0) != 0 && IndexOf(num, ".", 0) != 0 {
        return 400, InvalidWeight, None;
      }
      if |apiKey| == 0 {
        return 400, MissingApiKey, None;
      }
      if |lastUID| == 0 {
        return 400, MissingUid, None;
      }
      if upstream.BeginFailed? {
        return 500, HttpBeginFailed, None;
      }
      request := Some(PushRequest(lastUID, wi, apiKey));
      var code := upstream.code;
      if 200 <= code < 300 {
        MarkSynced(wi);
        status, reply := 200, Synced(wi);
      } else {
        status, reply := 502, UpstreamError(code);
      }
    }

    /** The push-weight handler's reaction to a 2xx answer: the scale shows
        the pushed weight, the tag is disarmed, the window and throttle are
        cleared, and observers see the weight with an empty UID. */
    method MarkSynced(wi: int)
      modifies this
      ensures State() == old(State()).(currentWeight := wi as real, lastUID := "", lastPushedWeight := None,
                                       stableSinceMs := 0, stableCandidate := None)
      ensures broadcasts == old(broadcasts) + [WeightInt(wi, "")]
    {
      currentWeight := wi as real;
      lastUID := "";
      lastPushedWeight := None;
      stableSinceMs := 0;
      stableCandidate := None;
      broadcasts := broadcasts + [WeightInt(wi, lastUID)];
    }

    /** The `/api/tare` handler. */
    method TareScale()
      modifies this
      ensures State() == Tare(old(State())).0 && broadcasts == old(broadcasts) + [Tare(old(State())).1]
    {
      currentWeight := 0.0;
      broadcasts := broadcasts + [WeightFixed2(currentWeight, lastUID)];
    }

    /** The `/api/calibration` handler. */
    method SetCalibration(body: string) returns (status: int, reply: CalibrationReply)
      modifies this
      ensures var (next, expected) := Calibration(old(State()), body);
              State() == next && reply == expected && broadcasts == old(broadcasts)
              && status == (if reply.FactorSaved? then 200 else 400)
    {
      var field := ScanBody(body, "factor", true);
      if field == NoKey {
        return 400, MissingFactor;
      }
      if field == NoColon {
        return 400, CalibrationBadJson;
      }
      var num := field.num;
      var f := ToFloat(num);
      if f == 0.0 {
        return 400, InvalidFactor;
      }
      calibrationFactor := f;
      status, reply := 200, FactorSaved(f);
    }

    /** The `/api/config` handler. */
    method SetConfig(body: string)
      modifies this
      ensures State() == Config(old(State()), body) && broadcasts == old(broadcasts)
    {
      var keyStart := IndexOf(body, ApiKeyMarker, 0) + 10;
      var keyEnd := IndexOf(body, "\"", keyStart);
      apiKey := Substring(body, keyStart, ToUnsigned(keyEnd));
    }
  }

  /** The scan both handlers make: the first `key`, the first ':' after
      it, then the number text after that ':'. */
  method ScanBody(body: string, key: string, keepMinusAtEnd: bool) returns (field: Field)
    ensures field == ScanField(body, key, keepMinusAtEnd)
  {
    var p := IndexOf(body, key, 0);
    if p < 0 {
      return NoKey;
    }
    var colon := IndexOf(body, ":", p);
    if colon < 0 {
      return NoColon;
    }
    var num := ScrapeNumber(body, colon, keepMinusAtEnd);
    return NumberText(num);
  }
}
