/**
 The rider kiosk at a pickup block: a tick-driven state machine that detects a
 person standing on the block (ultrasonic), checks the privilege card (laser on
 a light sensor), sends a ride request on a button press, then polls the
 backend for the ride's status until it completes or the request times out.
 Sensor readings, the button level, WiFi status, backend replies and the
 millisecond clock `now` are inputs.
 */
module Kiosk {
  import opened Common
  import opened Text

  /** `SystemState`, in the source's order. */
  datatype SystemState =
    | Idle
    | Detecting
    | PrivilegeCheck
    | WaitingConfirm
    | RequestSent
    | WaitingAcceptance
    | RideAccepted
    | RideActive
    | TimeoutError

  /** Position of a state in the declared order of `SystemState`. */
  function Stage(s: SystemState): nat
  {
    match s
    case Idle => 0
    case Detecting => 1
    case PrivilegeCheck => 2
    case WaitingConfirm => 3
    case RequestSent => 4
    case WaitingAcceptance => 5
    case RideAccepted => 6
    case RideActive => 7
    case TimeoutError => 8
  }

  const DebounceMs: nat := 200
  const UltrasonicThresholdMs: nat := 3000
  const RequestTimeoutMs: nat := 60000
  const StatusIntervalMs: nat := 2000
  const LdrThreshold: int := 3000
  /** A person counts as present within 10 m (scaled centimetres). */
  const DetectRangeCm: int := 1000

  /** One ultrasonic measurement: no echo at all, or the scaled distance in centimetres. */
  datatype Echo = NoEcho | Echo(scaledCm: int)

  /** An HTTP reply: status code and body text. */
  datatype HttpReply = HttpReply(code: int, body: string)

  datatype Leds = Leds(yellow: bool, red: bool, green: bool)

  const AllOff := Leds(false, false, false)

  // ---------------------------------------------------------------------
  // Reply scraping (sendRideRequest, checkRideStatus)
  // ---------------------------------------------------------------------

  /** The key that precedes the ride ID in the request reply: `"rideID":`. */
  const RideIdKey: string := "\"rideID\":"

  /**
   The text of `body` from `start` up to the next comma; without a comma after
   `start`, up to the next `}`; without either, the rest of the body.
   */
  function IdFrom(body: string, start: nat): string
    requires start <= |body|
  {
    var comma := IndexOf(body, ",", start);
    var end := if comma == -1 then IndexOf(body, "}", start) else comma;
    // `substring(start, -1)`: -1 becomes the largest unsigned value, which is clamped to the length.
    body[start..if end == -1 then |body| else end]
  }

  /**
   The ride ID in a request reply: the text right after the first `"rideID":`
   up to the next comma or `}`. None when the key is absent.
   */
  function ExtractRideId(body: string): (id: Option<string>)
    ensures id.Some? <==> Contains(body, RideIdKey)
  {
    var k := IndexOf(body, RideIdKey, 0);
    if k < 0 then None else Some(IdFrom(body, k + |RideIdKey|))
  }

  /**
   `IdFrom` is the slice of the body that starts at `start` and holds no comma;
   it ends at the first comma, else at the first `}`, else at the end of the body.
   */
  lemma IdFromSlice(body: string, start: nat)
    requires start <= |body|
    ensures var id := IdFrom(body, start);
            var end := start + |id|;
            && end <= |body| && body[start..end] == id
            && (forall k :: start <= k < end ==> body[k] != ',')
            && (end < |body| ==> body[end] == ',' || body[end] == '}')
            && ((exists k :: start <= k < |body| && body[k] == ',') ==> end < |body| && body[end] == ',')
    ensures var end := start + |IdFrom(body, start)|;
            (forall k :: start <= k < |body| ==> body[k] != ',') ==>
              && (forall k :: start <= k < end ==> body[k] != '}')
              && (end == |body| ==> forall k :: start <= k < |body| ==> body[k] != '}')
  {
    var comma := IndexOf(body, ",", start);
    var brace := IndexOf(body, "}", start);
    IndexOfChar(body, ',', start);
    IndexOfChar(body, '}', start);
    var end := if comma != -1 then comma else if brace != -1 then brace else |body|;
    assert IdFrom(body, start) == body[start..end];
  }

  /** The extracted ride ID is `IdFrom` applied right after the first `"rideID":`. */
  lemma ExtractRideIdSlice(body: string)
    requires Contains(body, RideIdKey)
    ensures var start := IndexOf(body, RideIdKey, 0) + |RideIdKey|;
            && start <= |body|
            && ExtractRideId(body) == Some(IdFrom(body, start))
            && body[start - |RideIdKey|..start] == RideIdKey
    ensures var start := IndexOf(body, RideIdKey, 0) + |RideIdKey|;
            forall k :: 0 <= k < start - |RideIdKey| ==> !OccursAt(body, RideIdKey, k)
  {
  }

  /**
   sendRideRequest's outcome: a ride ID exactly when WiFi is up, the reply is
   200 and it carries `"rideID":`.
   */
  function SendRideRequest(wifi: bool, reply: HttpReply): (id: Option<string>)
    ensures id.Some? <==> wifi && reply.code == 200 && Contains(reply.body, RideIdKey)
    ensures id.Some? ==> id == ExtractRideId(reply.body)
  {
    if !wifi || reply.code != 200 then None else ExtractRideId(reply.body)
  }

  /** The status word a poll reply is read as. */
  datatype RideStatus = StatusAccepted | StatusPickup | StatusCompleted | StatusOther

  /** `body.indexOf(word) > 0`: found, but not at the very first character. */
  predicate Mentions(body: string, word: string)
  {
    IndexOf(body, word, 0) > 0
  }

  /** The words are tested in a fixed order; the first one mentioned decides. */
  function StatusOf(body: string): (st: RideStatus)
    ensures st == StatusAccepted <==> Mentions(body, "\"ACCEPTED\"")
    ensures st == StatusPickup <==> !Mentions(body, "\"ACCEPTED\"") && Mentions(body, "\"PICKUP\"")
    ensures st == StatusCompleted <==>
              !Mentions(body, "\"ACCEPTED\"") && !Mentions(body, "\"PICKUP\"") && Mentions(body, "\"COMPLETED\"")
  {
    if Mentions(body, "\"ACCEPTED\"") then StatusAccepted
    else if Mentions(body, "\"PICKUP\"") then StatusPickup
    else if Mentions(body, "\"COMPLETED\"") then StatusCompleted
    else StatusOther
  }

  // ---------------------------------------------------------------------
  // The kiosk's state
  // ---------------------------------------------------------------------

  /** Everything the kiosk keeps between ticks. */
  datatype KioskView = KioskView(
    state: SystemState,
    ultrasonicTriggered: bool,
    privilegeVerified: bool,
    requestSent: bool,
    rideID: string,
    ultrasonicStart: nat,
    requestSentAt: nat,
    lastButton: nat,
    lastStatusCheck: nat,
    leds: Leds)

  /** The LEDs each settled state shows: yellow while the rickshaw is coming, green once it is here. */
  function LedsFor(s: SystemState): Leds
  {
    Leds(s == RideAccepted, false, s == RideActive)
  }

  /**
   The states the kiosk can be in between ticks: the flags record how far the
   session has come, no ride ID is kept before a request was sent, the LEDs
   match the state, and the two transient states are never left behind.
   */
  predicate Consistent(v: KioskView)
  {
    && v.state != RequestSent && v.state != TimeoutError
    && (v.state == Idle ==> v.ultrasonicStart == 0)
    && (v.ultrasonicTriggered <==> Stage(v.state) >= Stage(PrivilegeCheck))
    && (v.privilegeVerified <==> Stage(v.state) >= Stage(WaitingConfirm))
    && (v.requestSent <==> Stage(v.state) >= Stage(WaitingAcceptance))
    && (!v.requestSent ==> v.rideID == "" && v.requestSentAt == 0)
    && v.leds == LedsFor(v.state)
  }

  /** resetSystem's effect: back to IDLE with the session forgotten; the debounce and poll timers stay. */
  function Reset(v: KioskView): (r: KioskView)
    ensures Consistent(r) && r.state == Idle && r.rideID == "" && r.leds == AllOff
    ensures r.lastButton == v.lastButton && r.lastStatusCheck == v.lastStatusCheck
  {
    v.(state := Idle, ultrasonicTriggered := false, privilegeVerified := false, requestSent := false,
       ultrasonicStart := 0, requestSentAt := 0, rideID := "", leds := AllOff)
  }

  /** The lifecycle's edges: one tick moves the kiosk along at most one of them. */
  predicate Edge(from: SystemState, to: SystemState)
  {
    || from == to
    || (from == Idle && to == Detecting)
    || (from == Detecting && (to == PrivilegeCheck || to == Idle))
    || (from == PrivilegeCheck && to == WaitingConfirm)
    || (from == WaitingConfirm && (to == WaitingAcceptance || to == Idle))
    || (from == WaitingAcceptance && (to == RideAccepted || to == RideActive || to == Idle))
    || (from == RideAccepted && (to == RideActive || to == Idle))
    || (from == RideActive && to == Idle)
  }

  /** What the sensors, the button and the backend give one pass of `loop`. */
  datatype Sample = Sample(echo: Echo, ldr: int, buttonHigh: bool, wifi: bool,
                           requestReply: HttpReply, statusReply: HttpReply)

  /** No timer lies in the future of `now` (the clock is monotonic and does not wrap). */
  predicate TimersBy(v: KioskView, now: nat)
  {
    && v.ultrasonicStart <= now && v.requestSentAt <= now
    && v.lastButton <= now && v.lastStatusCheck <= now
  }

  // ---------------------------------------------------------------------
  // What each handler does, as a function of the kiosk's view
  // ---------------------------------------------------------------------

  /** A handler's effect: the new view and the states it assigned, in order. */
  datatype Outcome = Outcome(view: KioskView, visited: seq<SystemState>)

  /**
   checkUltrasonicSensor. No echo: forget the start time, keep the state. In
   range (0 < d <= 1000): the first reading records the start and enters
   DETECTING; once 3000 ms have elapsed, and only if not yet triggered, enter
   PRIVILEGE_CHECK. Out of range before the trigger: back to IDLE.
   */
  function Ultrasonic(v: KioskView, now: nat, echo: Echo): Outcome
    requires v.ultrasonicStart <= now
  {
    match echo
    case NoEcho => Outcome(v.(ultrasonicStart := 0), [])
    case Echo(d) =>
      if 0 < d <= DetectRangeCm then
        var seen :=
          if v.ultrasonicStart == 0 then Outcome(v.(state := Detecting, ultrasonicStart := now), [Detecting])
          else Outcome(v, []);
        if now - seen.view.ultrasonicStart >= UltrasonicThresholdMs && !v.ultrasonicTriggered then
          Outcome(seen.view.(state := PrivilegeCheck, ultrasonicTriggered := true), seen.visited + [PrivilegeCheck])
        else
          seen
      else if v.ultrasonicStart > 0 && !v.ultrasonicTriggered then
        Outcome(v.(state := Idle, ultrasonicStart := 0), [Idle])
      else
        Outcome(v, [])
  }

  /** checkPrivilegeVerification: a reading above 3000 verifies once and enters WAITING_CONFIRM. */
  function Privilege(v: KioskView, ldr: int): Outcome
  {
    if ldr > LdrThreshold && !v.privilegeVerified then
      Outcome(v.(privilegeVerified := true, state := WaitingConfirm), [WaitingConfirm])
    else
      Outcome(v, [])
  }

  /**
   checkButtonPress: a press more than 200 ms after the last accepted one sends
   the request; on success wait for acceptance with the LEDs off, on failure reset.
   */
  function Button(v: KioskView, now: nat, buttonHigh: bool, wifi: bool, reply: HttpReply): Outcome
    requires v.lastButton <= now
  {
    if !buttonHigh || now - v.lastButton <= DebounceMs then
      Outcome(v, [])
    else
      var pressed := v.(lastButton := now);
      match SendRideRequest(wifi, reply)
      case Some(id) =>
        Outcome(pressed.(rideID := id, requestSent := true, requestSentAt := now,
                         state := WaitingAcceptance, leds := AllOff), [WaitingAcceptance])
      case None =>
        Outcome(Reset(pressed), [Idle])
  }

  /**
   checkRideStatus: with WiFi up and at least 2000 ms since the last poll, poll;
   on a 200 reply, "ACCEPTED" moves only WAITING_ACCEPTANCE on (yellow LED),
   otherwise "PICKUP" makes any other state RIDE_ACTIVE (green LED), otherwise
   "COMPLETED" resets.
   */
  function Status(v: KioskView, now: nat, wifi: bool, reply: HttpReply): Outcome
    requires v.lastStatusCheck <= now
  {
    if !wifi || now - v.lastStatusCheck < StatusIntervalMs then
      Outcome(v, [])
    else
      var polled := v.(lastStatusCheck := now);
      var st := if reply.code == 200 then StatusOf(reply.body) else StatusOther;
      if st == StatusAccepted then
        if v.state == WaitingAcceptance then
          Outcome(polled.(state := RideAccepted, leds := Leds(true, false, false)), [RideAccepted])
        else
          Outcome(polled, [])
      else if st == StatusPickup then
        if v.state != RideActive then
          Outcome(polled.(state := RideActive, leds := Leds(false, false, true)), [RideActive])
        else
          Outcome(polled, [])
      else if st == StatusCompleted then
        Outcome(Reset(polled), [Idle])
      else
        Outcome(polled, [])
  }

  /**
   checkTimeout: in WAITING_ACCEPTANCE, a wait of more than 60000 ms enters
   TIMEOUT_ERROR (red LED) and then resets.
   */
  function Timeout(v: KioskView, now: nat): Outcome
    requires v.requestSentAt <= now
  {
    if v.state == WaitingAcceptance && now - v.requestSentAt > RequestTimeoutMs then
      Outcome(Reset(v.(state := TimeoutError, leds := Leds(false, true, false))), [TimeoutError, Idle])
    else
      Outcome(v, [])
  }

  /** One pass of `loop`: the handler(s) serving the current state; the transient states have none. */
  function Step(v: KioskView, now: nat, s: Sample): Outcome
    requires TimersBy(v, now)
  {
    match v.state
    case Idle => Ultrasonic(v, now, s.echo)
    case Detecting => Ultrasonic(v, now, s.echo)
    case PrivilegeCheck => Privilege(v, s.ldr)
    case WaitingConfirm => Button(v, now, s.buttonHigh, s.wifi, s.requestReply)
    case WaitingAcceptance =>
      var polled := Status(v, now, s.wifi, s.statusReply);
      var timed := Timeout(polled.view, now);
      Outcome(timed.view, polled.visited + timed.visited)
    case RideAccepted => Status(v, now, s.wifi, s.statusReply)
    case RideActive => Status(v, now, s.wifi, s.statusReply)
    case RequestSent => Outcome(v, [])
    case TimeoutError => Outcome(v, [])
  }

  // ---------------------------------------------------------------------
  // Properties of the handlers and of one pass of the loop
  // ---------------------------------------------------------------------

  lemma UltrasonicKeepsConsistent(v: KioskView, now: nat, echo: Echo)
    requires Consistent(v) && TimersBy(v, now) && (v.state == Idle || v.state == Detecting)
    ensures var o := Ultrasonic(v, now, echo);
            Consistent(o.view) && TimersBy(o.view, now) && Edge(v.state, o.view.state)
  {
  }

  lemma PrivilegeKeepsConsistent(v: KioskView, ldr: int)
    requires Consistent(v) && v.state == PrivilegeCheck
    ensures var o := Privilege(v, ldr);
            Consistent(o.view) && Edge(v.state, o.view.state)
  {
  }

  lemma ButtonKeepsConsistent(v: KioskView, now: nat, buttonHigh: bool, wifi: bool, reply: HttpReply)
    requires Consistent(v) && TimersBy(v, now) && v.state == WaitingConfirm
    ensures var o := Button(v, now, buttonHigh, wifi, reply);
            Consistent(o.view) && TimersBy(o.view, now) && Edge(v.state, o.view.state)
  {
  }

  lemma StatusKeepsConsistent(v: KioskView, now: nat, wifi: bool, reply: HttpReply)
    requires Consistent(v) && TimersBy(v, now) && Stage(v.state) >= Stage(WaitingAcceptance)
    ensures var o := Status(v, now, wifi, reply);
            Consistent(o.view) && TimersBy(o.view, now) && Edge(v.state, o.view.state)
  {
  }

  lemma TimeoutKeepsConsistent(v: KioskView, now: nat)
    requires Consistent(v) && TimersBy(v, now)
    ensures var o := Timeout(v, now);
            Consistent(o.view) && TimersBy(o.view, now) && Edge(v.state, o.view.state)
  {
  }

  /** One pass of the loop keeps the kiosk consistent and moves it along one lifecycle edge at most. */
  lemma StepKeepsConsistent(v: KioskView, now: nat, s: Sample)
    requires Consistent(v) && TimersBy(v, now)
    ensures var o := Step(v, now, s);
            Consistent(o.view) && TimersBy(o.view, now) && Edge(v.state, o.view.state)
  {
    match v.state
    case Idle => UltrasonicKeepsConsistent(v, now, s.echo);
    case Detecting => UltrasonicKeepsConsistent(v, now, s.echo);
    case PrivilegeCheck => PrivilegeKeepsConsistent(v, s.ldr);
    case WaitingConfirm => ButtonKeepsConsistent(v, now, s.buttonHigh, s.wifi, s.requestReply);
    case WaitingAcceptance =>
      var polled := Status(v, now, s.wifi, s.statusReply);
      StatusKeepsConsistent(v, now, s.wifi, s.statusReply);
      TimeoutKeepsConsistent(polled.view, now);
    case RideAccepted => StatusKeepsConsistent(v, now, s.wifi, s.statusReply);
    case RideActive => StatusKeepsConsistent(v, now, s.wifi, s.statusReply);
  }

  /**
   A pass enters TIMEOUT_ERROR exactly when the kiosk was waiting for
   acceptance, the status poll did not move it on, and more than 60000 ms have
   passed since the request; it then ends IDLE with the ride ID forgotten.
   */
  lemma StepTimesOut(v: KioskView, now: nat, s: Sample)
    requires Consistent(v) && TimersBy(v, now)
    ensures var o := Step(v, now, s);
            TimeoutError in o.visited <==>
              && v.state == WaitingAcceptance
              && Status(v, now, s.wifi, s.statusReply).view.state == WaitingAcceptance
              && now - v.requestSentAt > RequestTimeoutMs
    ensures var o := Step(v, now, s);
            TimeoutError in o.visited ==> o.view.state == Idle && o.view.rideID == "" && o.view.leds == AllOff
  {
    if v.state == WaitingAcceptance {
      var polled := Status(v, now, s.wifi, s.statusReply);
      assert TimeoutError !in polled.visited;
    } else if v.state == Idle || v.state == Detecting {
      assert TimeoutError !in Ultrasonic(v, now, s.echo).visited;
    }
  }

  /**
   PRIVILEGE_CHECK is entered exactly when the kiosk is DETECTING with a
   recorded start, the reading is in range, and 3000 ms or more have passed;
   once the trigger has fired it cannot fire again.
   */
  lemma StepReachesPrivilege(v: KioskView, now: nat, s: Sample)
    requires Consistent(v) && TimersBy(v, now)
    ensures var o := Step(v, now, s);
            PrivilegeCheck in o.visited <==>
              && v.state == Detecting && s.echo.Echo? && 0 < s.echo.scaledCm <= DetectRangeCm
              && 0 < v.ultrasonicStart && now - v.ultrasonicStart >= UltrasonicThresholdMs
    ensures v.ultrasonicTriggered ==> PrivilegeCheck !in Step(v, now, s).visited
  {
    if v.state == WaitingAcceptance {
      var polled := Status(v, now, s.wifi, s.statusReply);
      assert PrivilegeCheck !in polled.visited;
    } else if v.state == Idle || v.state == Detecting {
      var o := Ultrasonic(v, now, s.echo);
      if PrivilegeCheck in o.visited {
        assert v.ultrasonicStart != 0;
      }
    }
  }

  /**
   The yellow LED comes on exactly when the kiosk was waiting for acceptance
   and a due status poll gets a 200 reply mentioning "ACCEPTED"; the green one
   exactly when a ride was requested but is not yet active and a due poll gets
   a 200 reply mentioning "PICKUP" and not "ACCEPTED". Red is never left on.
   */
  lemma StepLightsLeds(v: KioskView, now: nat, s: Sample)
    requires Consistent(v) && TimersBy(v, now)
    ensures var o := Step(v, now, s);
            (o.view.leds.yellow && !v.leds.yellow) <==>
              && v.state == WaitingAcceptance
              && s.wifi && now - v.lastStatusCheck >= StatusIntervalMs && s.statusReply.code == 200
              && Mentions(s.statusReply.body, "\"ACCEPTED\"")
    ensures var o := Step(v, now, s);
            (o.view.leds.green && !v.leds.green) <==>
              && (v.state == WaitingAcceptance || v.state == RideAccepted)
              && s.wifi && now - v.lastStatusCheck >= StatusIntervalMs && s.statusReply.code == 200
              && !Mentions(s.statusReply.body, "\"ACCEPTED\"") && Mentions(s.statusReply.body, "\"PICKUP\"")
    ensures !Step(v, now, s).view.leds.red
  {
    StepKeepsConsistent(v, now, s);
    if v.state == WaitingAcceptance {
      var polled := Status(v, now, s.wifi, s.statusReply);
      StatusKeepsConsistent(v, now, s.wifi, s.statusReply);
    }
  }

  /**
   A ride request succeeds exactly when the kiosk is in WAITING_CONFIRM, the
   button is pressed past the debounce, WiFi is up and the reply is 200 and
   carries `"rideID":`; the kiosk then holds the extracted ride ID and the
   request time `now`.
   */
  lemma StepSendsRequest(v: KioskView, now: nat, s: Sample)
    requires Consistent(v) && TimersBy(v, now)
    ensures var o := Step(v, now, s);
            (o.view.requestSent && !v.requestSent) <==>
              && v.state == WaitingConfirm
              && s.buttonHigh && now - v.lastButton > DebounceMs
              && s.requestReply.code == 200 && s.wifi && Contains(s.requestReply.body, RideIdKey)
    ensures var o := Step(v, now, s);
            o.view.requestSent && !v.requestSent ==>
              && o.view.state == WaitingAcceptance
              && Some(o.view.rideID) == ExtractRideId(s.requestReply.body)
              && o.view.requestSentAt == now
  {
    if v.state == WaitingAcceptance {
      StatusKeepsConsistent(v, now, s.wifi, s.statusReply);
    }
  }

  class Kiosk {
    var currentState: SystemState
    var ultrasonicTriggered: bool
    var privilegeVerified: bool
    var requestSent: bool
    var currentRideID: string
    var ultrasonicStartTime: nat
    var requestSentTime: nat
    var lastButtonTime: nat
    var lastStatusCheck: nat
    var leds: Leds
    /** Every state assigned to `currentState`, in order. */
    ghost var entered: seq<SystemState>

    function View(): KioskView
      reads this
    {
      KioskView(currentState, ultrasonicTriggered, privilegeVerified, requestSent, currentRideID,
                ultrasonicStartTime, requestSentTime, lastButtonTime, lastStatusCheck, leds)
    }

    ghost predicate Valid()
      reads this
    {
      Consistent(View())
    }

    predicate ClockAt(now: nat)
      reads this
    {
      TimersBy(View(), now)
    }

    /** Power-on: the globals' initial values, then `setup` resets the system. */
    constructor ()
      ensures Valid() && ClockAt(0)
      ensures View() == KioskView(Idle, false, false, false, "", 0, 0, 0, 0, AllOff)
      ensures entered == []
    {
      currentState := Idle;
      ultrasonicTriggered, privilegeVerified, requestSent := false, false, false;
      currentRideID := "";
      ultrasonicStartTime, requestSentTime, lastButtonTime, lastStatusCheck := 0, 0, 0, 0;
      leds := AllOff;
      entered := [];
    }

    /** resetSystem: back to IDLE, flags cleared, session timers zeroed, ride ID emptied, LEDs off. */
    method ResetSystem()
      modifies this
      ensures View() == Reset(old(View()))
      ensures Valid()
      ensures entered == old(entered) + [Idle]
    {
      currentState := Idle;
      entered := entered + [Idle];
      ultrasonicTriggered := false;
      privilegeVerified := false;
      requestSent := false;
      ultrasonicStartTime := 0;
      requestSentTime := 0;
      currentRideID := "";
      leds := AllOff;
    }

    method CheckUltrasonicSensor(now: nat, echo: Echo)
      requires ultrasonicStartTime <= now
      modifies this
      ensures View() == Ultrasonic(old(View()), now, echo).view
      ensures entered == old(entered) + Ultrasonic(old(View()), now, echo).visited
      ensures old(Valid() && ClockAt(now) && (currentState == Idle || currentState == Detecting)) ==>
                Valid() && ClockAt(now) && Edge(old(currentState), currentState)
    {
      if Valid() && ClockAt(now) && (currentState == Idle || currentState == Detecting) {
        UltrasonicKeepsConsistent(View(), now, echo);
      }
      if echo.NoEcho? {
        if ultrasonicStartTime > 0 {
          ultrasonicStartTime := 0;
        }
        return;
      }
      var d := echo.scaledCm;
      if d > 0 && d <= DetectRangeCm {
        if ultrasonicStartTime == 0 {
          ultrasonicStartTime := now;
          currentState := Detecting;
          entered := entered + [Detecting];
        }
        var elapsed := now - ultrasonicStartTime;
        if elapsed >= UltrasonicThresholdMs && !ultrasonicTriggered {
          ultrasonicTriggered := true;
          currentState := PrivilegeCheck;
          entered := entered + [PrivilegeCheck];
        }
      } else {
        if ultrasonicStartTime > 0 && !ultrasonicTriggered {
          ultrasonicStartTime := 0;
          currentState := Idle;
          entered := entered + [Idle];
        }
      }
    }

    method CheckPrivilegeVerification(ldr: int)
      modifies this
      ensures View() == Privilege(old(View()), ldr).view
      ensures entered == old(entered) + Privilege(old(View()), ldr).visited
      ensures old(Valid() && currentState == PrivilegeCheck) ==> Valid() && Edge(old(currentState), currentState)
    {
      if Valid() && currentState == PrivilegeCheck {
        PrivilegeKeepsConsistent(View(), ldr);
      }
      if ldr > LdrThreshold {
        if !privilegeVerified {
          privilegeVerified := true;
          currentState := WaitingConfirm;
          entered := entered + [WaitingConfirm];
        }
      }
    }

    method CheckButtonPress(now: nat, buttonHigh: bool, wifi: bool, reply: HttpReply)
      requires lastButtonTime <= now
      modifies this
      ensures View() == Button(old(View()), now, buttonHigh, wifi, reply).view
      ensures entered == old(entered) + Button(old(View()), now, buttonHigh, wifi, reply).visited
      ensures old(Valid() && ClockAt(now) && currentState == WaitingConfirm) ==>
                Valid() && ClockAt(now) && Edge(old(currentState), currentState)
    {
      ghost var v := View();
      if buttonHigh {
        if now - lastButtonTime > DebounceMs {
          lastButtonTime := now;
          ghost var pressed := View();
          var sent := SendRideRequest(wifi, reply);
          if sent.Some? {
            currentRideID := sent.value;
            requestSent := true;
            requestSentTime := now;
            currentState := WaitingAcceptance;
            entered := entered + [WaitingAcceptance];
            leds := AllOff;
            assert View() == pressed.(rideID := sent.value, requestSent := true, requestSentAt := now,
                                      state := WaitingAcceptance, leds := AllOff);
          } else {
            ResetSystem();
            assert View() == Reset(pressed);
          }
        }
      }
      assert View() == Button(v, now, buttonHigh, wifi, reply).view;
      if Consistent(v) && TimersBy(v, now) && v.state == WaitingConfirm {
        ButtonKeepsConsistent(v, now, buttonHigh, wifi, reply);
      }
    }

    method CheckRideStatus(now: nat, wifi: bool, reply: HttpReply)
      requires lastStatusCheck <= now
      modifies this
      ensures View() == Status(old(View()), now, wifi, reply).view
      ensures entered == old(entered) + Status(old(View()), now, wifi, reply).visited
      ensures old(Valid() && ClockAt(now) && Stage(currentState) >= Stage(WaitingAcceptance)) ==>
                Valid() && ClockAt(now) && Edge(old(currentState), currentState)
    {
      ghost var v := View();
      if Valid() && ClockAt(now) && Stage(currentState) >= Stage(WaitingAcceptance) {
        StatusKeepsConsistent(v, now, wifi, reply);
      }
      if !wifi { return; }
      if now - lastStatusCheck < StatusIntervalMs { return; }
      lastStatusCheck := now;
      ghost var polled := View();
      if reply.code == 200 {
        var st := StatusOf(reply.body);
        if st == StatusAccepted {
          if currentState == WaitingAcceptance {
            currentState := RideAccepted;
            entered := entered + [RideAccepted];
            leds := Leds(true, false, false);
            assert View() == polled.(state := RideAccepted, leds := Leds(true, false, false));
          }
        } else if st == StatusPickup {
          if currentState != RideActive {
            currentState := RideActive;
            entered := entered + [RideActive];
            leds := Leds(false, false, true);
            assert View() == polled.(state := RideActive, leds := Leds(false, false, true));
          }
        } else if st == StatusCompleted {
          ResetSystem();
          assert View() == Reset(polled);
        }
      }
      assert View() == Status(v, now, wifi, reply).view;
    }

    method CheckTimeout(now: nat)
      requires requestSentTime <= now
      modifies this
      ensures View() == Timeout(old(View()), now).view
      ensures entered == old(entered) + Timeout(old(View()), now).visited
      ensures old(Valid() && ClockAt(now)) ==> Valid() && ClockAt(now) && Edge(old(currentState), currentState)
    {
      if Valid() && ClockAt(now) {
        TimeoutKeepsConsistent(View(), now);
      }
      if currentState == WaitingAcceptance {
        var waitTime := now - requestSentTime;
        if waitTime > RequestTimeoutMs {
          currentState := TimeoutError;
          entered := entered + [TimeoutError];
          leds := Leds(false, true, false);
          ResetSystem();
        }
      }
    }

    /**
     One pass of `loop`: dispatch on the current state to the handler that
     serves it. The kiosk stays consistent and moves along one lifecycle edge
     at most.
     */
    method Loop(now: nat, sample: Sample)
      requires Valid() && ClockAt(now)
      modifies this
      ensures View() == Step(old(View()), now, sample).view
      ensures entered == old(entered) + Step(old(View()), now, sample).visited
      ensures Valid() && ClockAt(now) && Edge(old(currentState), currentState)
    {
      ghost var v := View();
      StepKeepsConsistent(v, now, sample);
      match currentState
      case Idle =>
        CheckUltrasonicSensor(now, sample.echo);
      case Detecting =>
        CheckUltrasonicSensor(now, sample.echo);
      case PrivilegeCheck =>
        CheckPrivilegeVerification(sample.ldr);
      case WaitingConfirm =>
        CheckButtonPress(now, sample.buttonHigh, sample.wifi, sample.requestReply);
      case WaitingAcceptance =>
        CheckRideStatus(now, sample.wifi, sample.statusReply);
        CheckTimeout(now);
      case RideAccepted =>
        CheckRideStatus(now, sample.wifi, sample.statusReply);
      case RideActive =>
        CheckRideStatus(now, sample.wifi, sample.statusReply);
      case RequestSent =>
      case TimeoutError =>
    }
  }
}
