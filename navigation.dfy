/**
 The rickshaw unit's navigation data: the fixed table of named waypoints, the
 name lookup that picks a navigation target from it, and the classifiers the
 unit shows on its display (compass octant, point estimates, completion label,
 ride timer). Coordinates are kept as given in the table; distances and
 bearings are computed by trigonometry that is not part of this model, so they
 enter as `real` arguments.
 */
module Navigation {
  import opened Common
  import opened Text

  datatype Position = Position(lat: real, lng: real)

  /** A named waypoint: the source's `Location` record. */
  datatype Location = Location(lat: real, lng: real, name: string)

  const CuetCampus := Location(22.4633, 91.9714, "CUET_CAMPUS")
  const Pahartoli := Location(22.4725, 91.9845, "PAHARTOLI")
  const Noapara := Location(22.4580, 91.9920, "NOAPARA")
  const Raojan := Location(22.4520, 91.9650, "RAOJAN")

  /** The four-entry table `locations[]`, in order. */
  const Waypoints: seq<Location> := [CuetCampus, Pahartoli, Noapara, Raojan]

  /** The zero-initialised global `targetLocation` before any lookup succeeded. */
  const NoTarget := Location(0.0, 0.0, "")

  /** The unit starts at CUET campus. */
  const StartPosition := Position(22.4633, 91.9714)

  /** Pickup and drop-off are accepted within this many metres of the target. */
  const GeofenceMeters: real := 100.0

  /** Within this many metres the unit has arrived and stops moving. */
  const ArrivalMeters: real := 5.0

  predicate WithinGeofence(distance: real)
  {
    distance <= GeofenceMeters
  }

  // ---------------------------------------------------------------------
  // Waypoint lookup (setTargetLocation)
  // ---------------------------------------------------------------------

  /**
   The matching strategies tried, in order, for table entry `w` and the
   upper-cased search name `u`: exact name, entry name contains the search
   name, and the four aliases (the search name contains an entry's key word).
   */
  predicate Matches(w: Location, u: string)
  {
    || w.name == u
    || Contains(w.name, u)
    || (Contains(u, "PAHARTOLI") && w.name == "PAHARTOLI")
    || (Contains(u, "CUET") && w.name == "CUET_CAMPUS")
    || (Contains(u, "NOAPARA") && w.name == "NOAPARA")
    || (Contains(u, "RAOJAN") && w.name == "RAOJAN")
  }

  /** The index of the first table entry at or after `from` that matches `u`. */
  function FirstMatch(u: string, from: nat): (r: Option<nat>)
    requires from <= |Waypoints|
    decreases |Waypoints| - from
    ensures r.Some? ==> from <= r.value < |Waypoints| && Matches(Waypoints[r.value], u)
    ensures forall j :: from <= j < (if r.Some? then r.value else |Waypoints|) ==> !Matches(Waypoints[j], u)
  {
    if from == |Waypoints| then None
    else if Matches(Waypoints[from], u) then Some(from)
    else FirstMatch(u, from + 1)
  }

  /** The scan stops at entry `i` when it matches and no earlier entry does. */
  lemma FirstMatchIs(u: string, i: nat)
    requires i < |Waypoints| && Matches(Waypoints[i], u)
    requires forall j :: 0 <= j < i ==> !Matches(Waypoints[j], u)
    ensures FirstMatch(u, 0) == Some(i)
  {
  }

  /** The scan finds nothing when no entry matches. */
  lemma NoFirstMatch(u: string)
    requires forall j :: 0 <= j < |Waypoints| ==> !Matches(Waypoints[j], u)
    ensures FirstMatch(u, 0) == None
  {
  }

  /**
   The target chosen for `name` when the current target is `current`: the first
   matching table entry; failing that PAHARTOLI when the upper-cased name
   contains "PAHAR" (the source also tests for "Pahar", which an upper-cased
   name never contains); failing that the current target.
   */
  function ResolveTarget(name: string, current: Location): (r: Location)
    ensures r == current || r in Waypoints
    ensures FirstMatch(Upper(name), 0).Some? ==> r == Waypoints[FirstMatch(Upper(name), 0).value]
    ensures FirstMatch(Upper(name), 0).None? ==>
              r == (if Contains(Upper(name), "PAHAR") then Pahartoli else current)
  {
    var u := Upper(name);
    UpperHasNoPahar(name);
    match FirstMatch(u, 0)
    case Some(i) => Waypoints[i]
    case None =>
      if Contains(u, "PAHAR") || Contains(u, "Pahar") then Waypoints[1] else current
  }

  /** The lookup ignores letter case. */
  lemma ResolveIgnoresCase(name: string, current: Location)
    ensures ResolveTarget(name, current) == ResolveTarget(Upper(name), current)
  {
    UpperIdempotent(name);
  }

  /** Every waypoint is found by its own name, in any letter case. */
  lemma ResolveByName(name: string, k: nat, current: Location)
    requires k < |Waypoints| && Upper(name) == Waypoints[k].name
    ensures ResolveTarget(name, current) == Waypoints[k]
  {
    var u := Upper(name);
    assert Matches(Waypoints[k], u);
    forall j | 0 <= j < k
      ensures !Matches(Waypoints[j], u)
    {
      NoOtherMatch(j, k);
    }
  }

  /**
   An empty name is contained in every entry's name, so it resolves to the
   first entry, CUET_CAMPUS, whatever the current target.
   */
  lemma ResolveEmptyName(current: Location)
    ensures ResolveTarget("", current) == CuetCampus
  {
    assert Upper("") == "";
    assert Matches(Waypoints[0], "");
  }

  /** Table entry `j` does not match the name of a later entry `k`. */
  lemma NoOtherMatch(j: nat, k: nat)
    requires j < k < |Waypoints|
    ensures !Matches(Waypoints[j], Waypoints[k].name)
  {
    if j == 0 && k == 1 { CuetNotPahartoli(); }
    else if j == 0 && k == 2 { CuetNotNoapara(); }
    else if j == 0 { CuetNotRaojan(); }
    else if j == 1 && k == 2 { PahartoliNotNoapara(); }
    else if j == 1 { PahartoliNotRaojan(); }
    else { NoaparaNotRaojan(); }
  }

  lemma CuetNotPahartoli()
    ensures !Matches(Waypoints[0], Waypoints[1].name)
  {
    NoMatchOfCuet(Pahartoli.name, 2);
  }

  lemma CuetNotNoapara()
    ensures !Matches(Waypoints[0], Waypoints[2].name)
  {
    NoMatchOfCuet(Noapara.name, 0);
  }

  lemma CuetNotRaojan()
    ensures !Matches(Waypoints[0], Waypoints[3].name)
  {
    NoMatchOfCuet(Raojan.name, 0);
  }

  lemma PahartoliNotNoapara()
    ensures !Matches(Waypoints[1], Waypoints[2].name)
  {
    NoMatchOfPahartoli(Noapara.name, 0);
  }

  lemma PahartoliNotRaojan()
    ensures !Matches(Waypoints[1], Waypoints[3].name)
  {
    NoMatchOfPahartoli(Raojan.name, 3);
  }

  /** NOAPARA does not match RAOJAN: "NOAPARA" has no 'J' and "RAOJAN" has no 'P'. */
  lemma NoaparaNotRaojan()
    ensures !Matches(Waypoints[2], Waypoints[3].name)
  {
    NotContainsChar("NOAPARA", "RAOJAN", 3);
    NotContainsChar("RAOJAN", "NOAPARA", 3);
  }

  /** CUET_CAMPUS does not match a name with a character it lacks and without "CUET". */
  lemma NoMatchOfCuet(u: string, i: nat)
    requires i < |u| && u[i] !in "CUET_CAMPUS" && 'C' !in u
    ensures !Matches(CuetCampus, u)
  {
    NotContainsChar("CUET_CAMPUS", u, i);
    NotContainsChar(u, "CUET", 0);
  }

  /** PAHARTOLI does not match a name with a character it lacks and without an 'H'. */
  lemma NoMatchOfPahartoli(u: string, i: nat)
    requires i < |u| && u[i] !in "PAHARTOLI" && 'H' !in u
    ensures !Matches(Pahartoli, u)
  {
    NotContainsChar("PAHARTOLI", u, i);
    NotContainsChar(u, "PAHARTOLI", 2);
  }

  // ---------------------------------------------------------------------
  // Display classifiers (updateNavigationDisplay, checkForRideRequests, completeRide)
  // ---------------------------------------------------------------------

  datatype Heading = N | NE | E | SE | S | SW | W | NW
  {
    /** The compass direction at the centre of the sector, in degrees. */
    function Centre(): real
    {
      match this
      case N => 0.0
      case NE => 45.0
      case E => 90.0
      case SE => 135.0
      case S => 180.0
      case SW => 225.0
      case W => 270.0
      case NW => 315.0
    }
  }

  /**
   `bearing` lies in the 45-degree sector of `h`: from 22.5 degrees before its
   centre (inclusive) to 22.5 degrees after it (exclusive), going round past 360.
   */
  predicate InSector(bearing: real, h: Heading)
  {
    || (h.Centre() - 22.5 <= bearing < h.Centre() + 22.5)
    || (h.Centre() - 22.5 <= bearing - 360.0 < h.Centre() + 22.5)
  }

  /** The direction arrow for a bearing in [0, 360). */
  function Octant(bearing: real): (h: Heading)
    ensures 0.0 <= bearing < 360.0 ==> InSector(bearing, h)
  {
    if bearing >= 337.5 || bearing < 22.5 then N
    else if bearing >= 22.5 && bearing < 67.5 then NE
    else if bearing >= 67.5 && bearing < 112.5 then E
    else if bearing >= 112.5 && bearing < 157.5 then SE
    else if bearing >= 157.5 && bearing < 202.5 then S
    else if bearing >= 202.5 && bearing < 247.5 then SW
    else if bearing >= 247.5 && bearing < 292.5 then W
    else NW
  }

  /** The eight sectors do not overlap: a bearing in [0, 360) lies in exactly one. */
  lemma SectorsDisjoint(bearing: real, h1: Heading, h2: Heading)
    requires 0.0 <= bearing < 360.0
    requires InSector(bearing, h1) && InSector(bearing, h2)
    ensures h1 == h2
  {
  }

  /** So the arrow shown is exactly the sector the bearing lies in. */
  lemma OctantIsSector(bearing: real, h: Heading)
    requires 0.0 <= bearing < 360.0
    ensures Octant(bearing) == h <==> InSector(bearing, h)
  {
    if InSector(bearing, h) {
      SectorsDisjoint(bearing, h, Octant(bearing));
    }
  }

  /** The estimate shown while navigating, from the remaining distance in metres. */
  datatype NavEstimate = EightToTen | FiveToEight | Review
  {
    function Text(): string
    {
      match this
      case EightToTen => "8-10"
      case FiveToEight => "5-8"
      case Review => "Review"
    }
  }

  function NavPointsEstimate(distance: real): (e: NavEstimate)
    ensures e == Review <==> !WithinGeofence(distance)
    ensures e == EightToTen <==> distance <= GeofenceMeters / 2.0
    ensures e == FiveToEight <==> GeofenceMeters / 2.0 < distance <= GeofenceMeters
  {
    if distance <= 50.0 then EightToTen
    else if distance <= 100.0 then FiveToEight
    else Review
  }

  /** The estimate shown with a new ride offer, from the offer's distance in kilometres. */
  datatype OfferEstimate = Ten | EightToTenPoints | FiveToTen
  {
    function Text(): string
    {
      match this
      case Ten => "10"
      case EightToTenPoints => "8-10"
      case FiveToTen => "5-10"
    }

    /** The least number of points the estimate promises. */
    function Least(): int
    {
      match this
      case Ten => 10
      case EightToTenPoints => 8
      case FiveToTen => 5
    }
  }

  function OfferPointsEstimate(km: real): (e: OfferEstimate)
    ensures e == Ten <==> km <= 2.0
    ensures e == FiveToTen <==> km > 5.0
  {
    if km <= 2.0 then Ten
    else if km <= 5.0 then EightToTenPoints
    else FiveToTen
  }

  /** A shorter offer is never estimated lower than a longer one. */
  lemma OfferEstimateMonotone(near: real, far: real)
    requires near <= far
    ensures OfferPointsEstimate(near).Least() >= OfferPointsEstimate(far).Least()
  {
  }

  /** The headline of the completion screen, from the points the backend awarded. */
  datatype DropLabel = PerfectDrop | GreatDrop | GoodDrop | CompletedDrop | UnderReview
  {
    function Text(): string
    {
      match this
      case PerfectDrop => "PERFECT DROP!"
      case GreatDrop => "GREAT DROP!"
      case GoodDrop => "GOOD DROP"
      case CompletedDrop => "COMPLETED"
      case UnderReview => "UNDER REVIEW"
    }

    function Rank(): nat
    {
      match this
      case UnderReview => 0
      case CompletedDrop => 1
      case GoodDrop => 2
      case GreatDrop => 3
      case PerfectDrop => 4
    }
  }

  function CompletionLabel(points: int): (l: DropLabel)
    ensures l == PerfectDrop <==> points == 10
    ensures l == UnderReview <==> points <= 0
    ensures l == GreatDrop <==> points >= 8 && points != 10
    ensures l == GoodDrop <==> 5 <= points < 8
    ensures l == CompletedDrop <==> 0 < points < 5
  {
    if points == 10 then PerfectDrop
    else if points >= 8 then GreatDrop
    else if points >= 5 then GoodDrop
    else if points > 0 then CompletedDrop
    else UnderReview
  }

  /** Up to the full ten points, more points never give a worse label. */
  lemma LabelMonotone(p: int, q: int)
    requires p <= q <= 10
    ensures CompletionLabel(p).Rank() <= CompletionLabel(q).Rank()
  {
  }

  /** The ride timer: elapsed milliseconds as whole minutes and remaining seconds. */
  function SplitDuration(elapsedMs: nat): (t: (nat, nat))
    ensures t.1 < 60
    ensures t.0 * 60 + t.1 == elapsedMs / 1000
  {
    var seconds := elapsedMs / 1000;
    (seconds / 60, seconds % 60)
  }
}
