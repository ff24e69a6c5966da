/**
 The rickshaw unit's control loop: a single-threaded, tick-driven state machine
 over the session globals of the vehicle side. Backend replies, WiFi status, the
 operator's serial command and the geometry (distance to the target, and the
 position one simulated step closer) are inputs; the millisecond clock is `now`.
 */
module Rickshaw {
  import opened Common
  import opened Text
  import opened Navigation

  /** Offers are polled at most this often. */
  const PollIntervalMs: nat := 3000
  /** The simulated position moves once per this interval (strictly more must pass). */
  const MoveIntervalMs: nat := 1000
  /** The position is reported to the backend at most this often. */
  const LocationIntervalMs: nat := 5000

  /** The first pending ride found in the backend's reply. */
  datatype Offer = Offer(rideID: string, pickup: string, destination: string, distanceKm: real)

  /** Reply to the pending-rides poll: HTTP status and the offer it carried, if any. */
  datatype PollReply = PollReply(httpCode: int, offer: Option<Offer>)

  /** Reply to accepting a ride: HTTP status and whether the body reported success (else: taken). */
  datatype AcceptReply = AcceptReply(httpCode: int, success: bool)

  /** Reply to completing a ride: HTTP status and the points the backend awarded. */
  datatype CompleteReply = CompleteReply(httpCode: int, pointsEarned: int)

  /** A serial command line, already trimmed and upper-cased, with the backend reply it provokes. */
  datatype Command =
    | NoCommand
    | AcceptCmd(acceptReply: AcceptReply)
    | RejectCmd
    | PickupCmd(pickupCode: int)
    | CompleteCmd(completeReply: CompleteReply)
    | StatusCmd
    | HelpCmd
    | UnknownCmd

  /** Everything the unit keeps between ticks. */
  datatype UnitView = UnitView(
    totalPoints: int,
    position: Position,
    rideID: string,
    pickup: string,
    destination: string,
    onActiveRide: bool,
    pickupConfirmed: bool,
    target: Location,
    lastMoveTime: nat,
    lastLocationUpdate: nat,
    lastRideCheck: nat)

  /**
   The states the unit can reach: a pickup is only ever confirmed during an
   active ride, and the target is either unset or a table waypoint.
   */
  predicate Sound(v: UnitView)
  {
    && (v.pickupConfirmed ==> v.onActiveRide)
    && (v.target == NoTarget || v.target in Waypoints)
  }

  /** No timer lies in the future of `now` (the clock is monotonic and does not wrap). */
  predicate TimersBy(v: UnitView, now: nat)
  {
    v.lastMoveTime <= now && v.lastLocationUpdate <= now && v.lastRideCheck <= now
  }

  // ---------------------------------------------------------------------
  // What each operation does, as a function of the unit's view
  // ---------------------------------------------------------------------

  /** setTargetLocation's effect: only the target changes, to the resolved waypoint. */
  function Retarget(v: UnitView, name: string): UnitView
  {
    v.(target := ResolveTarget(name, v.target))
  }

  /**
   checkForRideRequests: with WiFi up and at least 3000 ms since the last poll,
   poll; a 200 reply carrying an offer is stored when its ride ID differs from
   the stored one or none is stored, and its points estimate is shown.
   */
  function Poll(v: UnitView, now: nat, wifi: bool, reply: PollReply): (UnitView, Option<OfferEstimate>)
    requires v.lastRideCheck <= now
  {
    if !wifi || now - v.lastRideCheck < PollIntervalMs then
      (v, None)
    else
      var polled := v.(lastRideCheck := now);
      if reply.httpCode == 200 && reply.offer.Some? && (reply.offer.value.rideID != v.rideID || v.rideID == "") then
        var offer := reply.offer.value;
        (polled.(rideID := offer.rideID, pickup := offer.pickup, destination := offer.destination),
         Some(OfferPointsEstimate(offer.distanceKm)))
      else
        (polled, None)
  }

  /**
   acceptRide: only with a stored offer and no active ride. On a 200 reply that
   reports success the ride starts, heading for the pickup; on a 200 reply
   without it the ride was taken and the offer is dropped; otherwise nothing.
   */
  function Accept(v: UnitView, wifi: bool, reply: AcceptReply): UnitView
  {
    if v.rideID == "" || v.onActiveRide || !wifi || reply.httpCode != 200 then v
    else if reply.success then Retarget(v.(onActiveRide := true, pickupConfirmed := false), v.pickup)
    else v.(rideID := "")
  }

  /** The REJECT command: forget the stored ride ID, whatever else is going on. */
  function Rejected(v: UnitView): UnitView
  {
    v.(rideID := "")
  }

  /**
   confirmPickup: only during a ride whose pickup is not yet confirmed, and only
   within 100 m of the target; on a 200 reply the pickup is confirmed and the
   target becomes the destination.
   */
  function Pickup(v: UnitView, distance: real, httpCode: int): UnitView
  {
    if !v.onActiveRide || v.pickupConfirmed || !WithinGeofence(distance) || httpCode != 200 then v
    else Retarget(v.(pickupConfirmed := true), v.destination)
  }

  /**
   completeRide: only during a ride with the pickup confirmed, and only within
   100 m of the target (farther away the ride is left pending); on a 200 reply
   the awarded points are added, the session is cleared and the completion
   screen's label is chosen.
   */
  function Complete(v: UnitView, distance: real, reply: CompleteReply): (UnitView, Option<DropLabel>)
  {
    if !v.onActiveRide || !v.pickupConfirmed || !WithinGeofence(distance) || reply.httpCode != 200 then
      (v, None)
    else
      (v.(totalPoints := v.totalPoints + reply.pointsEarned, onActiveRide := false, pickupConfirmed := false,
          rideID := "", pickup := "", destination := ""),
       Some(CompletionLabel(reply.pointsEarned)))
  }

  /**
   simulateMovement: during a ride, once more than 1000 ms have passed since the
   last step, move to `next` unless within 5 m of the target (then report
   arrival), and restart the step timer either way.
   */
  function Move(v: UnitView, now: nat, distance: real, next: Position): (UnitView, bool)
    requires v.lastMoveTime <= now
  {
    if !v.onActiveRide || now - v.lastMoveTime <= MoveIntervalMs then (v, false)
    else if distance > ArrivalMeters then (v.(position := next, lastMoveTime := now), false)
    else (v.(lastMoveTime := now), true)
  }

  /** sendLocationUpdate: report the position when WiFi is up and 5000 ms have passed. */
  function Report(v: UnitView, now: nat, wifi: bool): (UnitView, bool)
    requires v.lastLocationUpdate <= now
  {
    if !wifi || now - v.lastLocationUpdate < LocationIntervalMs then (v, false)
    else (v.(lastLocationUpdate := now), true)
  }

  /** handleSerialCommand: run the operator's command; STATUS, HELP and others only print. */
  function Handle(v: UnitView, cmd: Command, wifi: bool, distance: real): UnitView
  {
    match cmd
    case AcceptCmd(reply) => Accept(v, wifi, reply)
    case RejectCmd => Rejected(v)
    case PickupCmd(code) => Pickup(v, distance, code)
    case CompleteCmd(reply) => Complete(v, distance, reply).0
    case _ => v
  }

  /**
   The first half of a pass of `loop`: report the position, then poll for
   offers while no ride is active, otherwise advance the simulated movement.
   `distanceTo` and `stepToward` stand for the haversine distance and the
   one-step move toward a target.
   */
  function Advance(v: UnitView, now: nat, wifi: bool, poll: PollReply,
                   distanceTo: (Position, Location) -> real, stepToward: (Position, Location) -> Position): UnitView
    requires TimersBy(v, now)
  {
    var reported := Report(v, now, wifi).0;
    if !reported.onActiveRide then Poll(reported, now, wifi, poll).0
    else Move(reported, now, distanceTo(reported.position, reported.target),
              stepToward(reported.position, reported.target)).0
  }

  /** One pass of `loop`: advance, then run the operator's command, if any. */
  function Step(v: UnitView, now: nat, wifi: bool, poll: PollReply, cmd: Command,
                distanceTo: (Position, Location) -> real, stepToward: (Position, Location) -> Position): UnitView
    requires TimersBy(v, now)
  {
    var advanced := Advance(v, now, wifi, poll, distanceTo, stepToward);
    Handle(advanced, cmd, wifi, distanceTo(advanced.position, advanced.target))
  }

  // ---------------------------------------------------------------------
  // Properties of one pass of the loop
  // ---------------------------------------------------------------------

  /**
   The first half of a pass touches only the timers, the position and the
   stored offer. The stored offer changes only to a polled offer whose ride ID
   is new or arrives when none is stored. Offers are polled only while no ride is active, with WiFi up,
   and at least 3000 ms after the previous poll; the position moves only during
   a ride, more than 1000 ms after the previous step, while farther than 5 m
   from the target, and then by exactly one step toward it.
   */
  lemma AdvanceGates(v: UnitView, now: nat, wifi: bool, poll: PollReply,
                     distanceTo: (Position, Location) -> real, stepToward: (Position, Location) -> Position)
    requires Sound(v) && TimersBy(v, now)
    ensures var a := Advance(v, now, wifi, poll, distanceTo, stepToward);
            && Sound(a) && TimersBy(a, now)
            && a.onActiveRide == v.onActiveRide && a.pickupConfirmed == v.pickupConfirmed
            && a.totalPoints == v.totalPoints && a.target == v.target
    ensures var a := Advance(v, now, wifi, poll, distanceTo, stepToward);
            && (v.onActiveRide ==> a.lastRideCheck == v.lastRideCheck)
            && (a.lastRideCheck != v.lastRideCheck ==>
                  !v.onActiveRide && wifi && now - v.lastRideCheck >= PollIntervalMs && a.lastRideCheck == now)
    ensures var a := Advance(v, now, wifi, poll, distanceTo, stepToward);
            a.position != v.position ==>
              && v.onActiveRide && now - v.lastMoveTime > MoveIntervalMs
              && distanceTo(v.position, v.target) > ArrivalMeters
              && a.position == stepToward(v.position, v.target)
    ensures var a := Advance(v, now, wifi, poll, distanceTo, stepToward);
            (a.rideID, a.pickup, a.destination) != (v.rideID, v.pickup, v.destination) ==>
              && !v.onActiveRide && wifi && poll.httpCode == 200 && poll.offer.Some?
              && (poll.offer.value.rideID != v.rideID || v.rideID == "")
              && a.rideID == poll.offer.value.rideID
              && a.pickup == poll.offer.value.pickup && a.destination == poll.offer.value.destination
  {
  }

  /**
   A command keeps the unit sound and leaves the position and the timers
   alone; only ACCEPT and PICKUP move the target. A ride starts only by a
   successful ACCEPT, with the pickup still to be confirmed, and ends only by a
   successful COMPLETE, which adds exactly the awarded points; the points
   change at no other time, and a confirmed pickup is forgotten only when its
   ride ends.
   */
  lemma HandleKeepsSound(v: UnitView, cmd: Command, wifi: bool, distance: real)
    requires Sound(v)
    ensures var r := Handle(v, cmd, wifi, distance);
            && Sound(r)
            && r.position == v.position && r.lastMoveTime == v.lastMoveTime
            && r.lastLocationUpdate == v.lastLocationUpdate && r.lastRideCheck == v.lastRideCheck
            && (!cmd.AcceptCmd? && !cmd.PickupCmd? ==> r.target == v.target)
    ensures var r := Handle(v, cmd, wifi, distance);
            (r.onActiveRide && !v.onActiveRide) <==>
              && !v.onActiveRide && v.rideID != "" && wifi
              && cmd.AcceptCmd? && cmd.acceptReply == AcceptReply(200, true)
    ensures var r := Handle(v, cmd, wifi, distance);
            r.onActiveRide && !v.onActiveRide ==>
              !r.pickupConfirmed && r.target == ResolveTarget(v.pickup, v.target)
    ensures var r := Handle(v, cmd, wifi, distance);
            (v.onActiveRide && !r.onActiveRide) <==>
              && v.onActiveRide && v.pickupConfirmed && WithinGeofence(distance)
              && cmd.CompleteCmd? && cmd.completeReply.httpCode == 200
    ensures var r := Handle(v, cmd, wifi, distance);
            && (v.onActiveRide && !r.onActiveRide ==>
                  cmd.CompleteCmd? && r.totalPoints == v.totalPoints + cmd.completeReply.pointsEarned)
            && (!(v.onActiveRide && !r.onActiveRide) ==> r.totalPoints == v.totalPoints)
            && (v.pickupConfirmed && !r.pickupConfirmed ==> !r.onActiveRide)
  {
  }

  /**
   One pass keeps the unit sound and its timers within the clock; it polls
   only while idle and moves only by a step (see `AdvanceGates`); rides start
   and end only by the operator's commands (see `HandleKeepsSound`).
   */
  lemma StepKeepsSound(v: UnitView, now: nat, wifi: bool, poll: PollReply, cmd: Command,
                       distanceTo: (Position, Location) -> real, stepToward: (Position, Location) -> Position)
    requires Sound(v) && TimersBy(v, now)
    ensures var r := Step(v, now, wifi, poll, cmd, distanceTo, stepToward);
            Sound(r) && TimersBy(r, now)
    ensures var r := Step(v, now, wifi, poll, cmd, distanceTo, stepToward);
            && (v.onActiveRide ==> r.lastRideCheck == v.lastRideCheck)
            && (r.lastRideCheck != v.lastRideCheck ==>
                  !v.onActiveRide && wifi && now - v.lastRideCheck >= PollIntervalMs && r.lastRideCheck == now)
    ensures var r := Step(v, now, wifi, poll, cmd, distanceTo, stepToward);
            r.position != v.position ==>
              && v.onActiveRide && now - v.lastMoveTime > MoveIntervalMs
              && distanceTo(v.position, v.target) > ArrivalMeters
              && r.position == stepToward(v.position, v.target)
    ensures var r := Step(v, now, wifi, poll, cmd, distanceTo, stepToward);
            r.onActiveRide && !v.onActiveRide ==>
              && wifi && cmd.AcceptCmd? && cmd.acceptReply == AcceptReply(200, true)
              && !r.pickupConfirmed
    ensures var a := Advance(v, now, wifi, poll, distanceTo, stepToward);
            var r := Step(v, now, wifi, poll, cmd, distanceTo, stepToward);
            v.onActiveRide && !r.onActiveRide ==>
              && v.pickupConfirmed && WithinGeofence(distanceTo(a.position, a.target))
              && cmd.CompleteCmd? && cmd.completeReply.httpCode == 200
    ensures var r := Step(v, now, wifi, poll, cmd, distanceTo, stepToward);
            && (v.onActiveRide && !r.onActiveRide ==>
                  cmd.CompleteCmd? && r.totalPoints == v.totalPoints + cmd.completeReply.pointsEarned)
            && (!(v.onActiveRide && !r.onActiveRide) ==> r.totalPoints == v.totalPoints)
            && (v.pickupConfirmed && !r.pickupConfirmed ==> !r.onActiveRide)
  {
    var a := Advance(v, now, wifi, poll, distanceTo, stepToward);
    AdvanceGates(v, now, wifi, poll, distanceTo, stepToward);
    HandleKeepsSound(a, cmd, wifi, distanceTo(a.position, a.target));
  }

  class Unit {
    var totalPoints: int
    var position: Position
    var currentRideID: string
    var pickupLocation: string
    var destinationLocation: string
    var onActiveRide: bool
    var pickupConfirmed: bool
    var targetLocation: Location
    var lastMoveTime: nat
    var lastLocationUpdate: nat
    var lastRideCheck: nat

    function View(): UnitView
      reads this
    {
      UnitView(totalPoints, position, currentRideID, pickupLocation, destinationLocation,
               onActiveRide, pickupConfirmed, targetLocation,
               lastMoveTime, lastLocationUpdate, lastRideCheck)
    }

    ghost predicate Valid()
      reads this
    {
      Sound(View())
    }

    predicate ClockAt(now: nat)
      reads this
    {
      TimersBy(View(), now)
    }

    /** The globals as initialised at power-on. */
    constructor ()
      ensures Valid() && ClockAt(0)
      ensures View() == UnitView(0, StartPosition, "", "", "", false, false, NoTarget, 0, 0, 0)
    {
      totalPoints := 0;
      position := StartPosition;
      currentRideID, pickupLocation, destinationLocation := "", "", "";
      onActiveRide, pickupConfirmed := false, false;
      targetLocation := NoTarget;
      lastMoveTime, lastLocationUpdate, lastRideCheck := 0, 0, 0;
    }

    /** setTargetLocation: scan the table in order; the first matching entry wins. */
    method SetTargetLocation(name: string)
      modifies this
      ensures View() == old(View()).(target := ResolveTarget(name, old(targetLocation)))
      ensures old(Valid()) ==> Valid()
    {
      var u := Upper(name);
      var i := 0;
      while i < 4
        invariant 0 <= i <= |Waypoints|
        invariant forall j :: 0 <= j < i ==> !Matches(Waypoints[j], u)
        invariant unchanged(this)
      {
        var w := Waypoints[i];
        // exact name, entry contains the name, or one of the four aliases
        var found := Matches(w, u);
        if found {
          FirstMatchIs(u, i);
          assert ResolveTarget(name, targetLocation) == w;
          targetLocation := w;
          return;
        }
        i := i + 1;
      }
      NoFirstMatch(u);
      UpperHasNoPahar(name);
      assert ResolveTarget(name, targetLocation) == (if Contains(u, "PAHAR") then Pahartoli else targetLocation);
      if IndexOf(u, "PAHAR", 0) >= 0 || IndexOf(u, "Pahar", 0) >= 0 {
        targetLocation := Waypoints[1];
      }
    }

    method CheckForRideRequests(now: nat, wifi: bool, reply: PollReply) returns (shown: Option<OfferEstimate>)
      requires lastRideCheck <= now
      modifies this
      ensures (View(), shown) == Poll(old(View()), now, wifi, reply)
      ensures old(Valid()) ==> Valid()
    {
      shown := None;
      if !wifi { return; }
      if now - lastRideCheck < PollIntervalMs { return; }
      lastRideCheck := now;
      if reply.httpCode == 200 && reply.offer.Some? {
        var offer := reply.offer.value;
        if offer.rideID != currentRideID || currentRideID == "" {
          shown := Some(OfferPointsEstimate(offer.distanceKm));
          currentRideID := offer.rideID;
          pickupLocation := offer.pickup;
          destinationLocation := offer.destination;
        }
      }
    }

    method AcceptRide(wifi: bool, reply: AcceptReply)
      modifies this
      ensures View() == Accept(old(View()), wifi, reply)
      ensures old(Valid()) ==> Valid()
    {
      if currentRideID == "" || onActiveRide { return; }
      if !wifi { return; }
      if reply.httpCode == 200 {
        if reply.success {
          onActiveRide := true;
          pickupConfirmed := false;
          SetTargetLocation(pickupLocation);
        } else {
          currentRideID := "";
        }
      }
    }

    method Reject()
      modifies this
      ensures View() == Rejected(old(View()))
      ensures old(Valid()) ==> Valid()
    {
      currentRideID := "";
    }

    method ConfirmPickup(distance: real, httpCode: int)
      modifies this
      ensures View() == Pickup(old(View()), distance, httpCode)
      ensures old(Valid()) ==> Valid()
    {
      if !onActiveRide || pickupConfirmed { return; }
      if distance > GeofenceMeters { return; }
      if httpCode == 200 {
        pickupConfirmed := true;
        SetTargetLocation(destinationLocation);
      }
    }

    method CompleteRide(distance: real, reply: CompleteReply) returns (headline: Option<DropLabel>)
      modifies this
      ensures (View(), headline) == Complete(old(View()), distance, reply)
      ensures old(Valid()) ==> Valid()
    {
      headline := None;
      if !onActiveRide || !pickupConfirmed { return; }
      if distance > GeofenceMeters { return; }
      if reply.httpCode == 200 {
        totalPoints := totalPoints + reply.pointsEarned;
        headline := Some(CompletionLabel(reply.pointsEarned));
        onActiveRide := false;
        pickupConfirmed := false;
        currentRideID := "";
        pickupLocation := "";
        destinationLocation := "";
      }
    }

    method SimulateMovement(now: nat, distance: real, next: Position) returns (arrived: bool)
      requires lastMoveTime <= now
      modifies this
      ensures (View(), arrived) == Move(old(View()), now, distance, next)
      ensures old(Valid()) ==> Valid()
    {
      arrived := false;
      if !onActiveRide { return; }
      if now - lastMoveTime > MoveIntervalMs {
        if distance > ArrivalMeters {
          position := next;
        } else {
          arrived := true;
        }
        lastMoveTime := now;
      }
    }

    method SendLocationUpdate(now: nat, wifi: bool) returns (sent: bool)
      requires lastLocationUpdate <= now
      modifies this
      ensures (View(), sent) == Report(old(View()), now, wifi)
      ensures old(Valid()) ==> Valid()
    {
      sent := false;
      if !wifi { return; }
      if now - lastLocationUpdate < LocationIntervalMs { return; }
      lastLocationUpdate := now;
      sent := true;
    }

    method HandleCommand(cmd: Command, wifi: bool, distance: real)
      modifies this
      ensures View() == Handle(old(View()), cmd, wifi, distance)
      ensures old(Valid()) ==> Valid()
    {
      match cmd
      case AcceptCmd(reply) =>
        AcceptRide(wifi, reply);
      case RejectCmd =>
        Reject();
      case PickupCmd(code) =>
        ConfirmPickup(distance, code);
      case CompleteCmd(reply) =>
        var _ := CompleteRide(distance, reply);
      case _ =>
    }

    /**
     One pass of `loop`, with the distance and the step computed from the
     unit's position and target at the time they are needed.
     */
    method Tick(now: nat, wifi: bool, poll: PollReply, cmd: Command,
                distanceTo: (Position, Location) -> real, stepToward: (Position, Location) -> Position)
      requires Valid() && ClockAt(now)
      modifies this
      ensures View() == Step(old(View()), now, wifi, poll, cmd, distanceTo, stepToward)
      ensures Valid() && ClockAt(now)
    {
      StepKeepsSound(View(), now, wifi, poll, cmd, distanceTo, stepToward);
      ghost var v := View();
      var _ := SendLocationUpdate(now, wifi);
      if !onActiveRide {
        var _ := CheckForRideRequests(now, wifi, poll);
      } else {
        var _ := SimulateMovement(now, distanceTo(position, targetLocation), stepToward(position, targetLocation));
      }
      assert View() == Advance(v, now, wifi, poll, distanceTo, stepToward);
      HandleCommand(cmd, wifi, distanceTo(position, targetLocation));
    }
  }
}
