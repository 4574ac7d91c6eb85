/** The AI starfighter combat controller: a per-ship state machine that tracks a
    target, decides whether to close in or fight, holds a standoff position on a
    cardinal axis of the target, and hands control back when it disengages.

    Host-engine effects (turning, shift-flying, cruising, firing, the speed cap)
    are not performed: each tick appends the commands it would issue to the
    controller's `intents`. */
module StarfighterCombat {
  import opened Wrappers
  import opened Vectors

  // ---------------------------------------------------------------------------
  // Worlds, locations and policy
  // ---------------------------------------------------------------------------

  datatype World = World(name: string)

  /** A point in a given world. */
  datatype Location = Location(world: World, pos: Vec3)

  /** A planet as the world cache knows it: where it sits in its space world. */
  datatype Planet = Planet(location: Vec3, spaceWorld: World)

  datatype State = Combat | FocusLocation

  /** Position of HIGH in the ordering LOW, MEDIUM, HIGH, ... of aggressiveness levels. */
  const HighOrdinal: nat := 2

  /** An aggressiveness level: its position in the ordering and its engagement range. */
  datatype AggressivenessLevel = AggressivenessLevel(ordinal: nat, engagementDistance: real)

  /** Levels at or above HIGH keep pursuing a target that leaves range or world. */
  predicate Pursues(level: AggressivenessLevel) {
    level.ordinal >= HighOrdinal
  }

  /** Lower edge of the standoff distance. */
  const MinStandoff: real := 25.0
  /** The band of distances in which the controller only closes in on the target. */
  const ApproachBandLow: real := 500.0
  const ApproachBandHigh: real := 1500.0
  /** From this distance to the objective on, navigation also cruises. */
  const CruiseDistance: real := 500.0

  /** A command the controller issues to the host engine. */
  datatype Intent =
    | FaceDirection(direction: Vec3)
    | ShiftFlyTo(objective: Location)
    | StartCruising(direction: Vec3)
    | StopCruising
    | ShootInDirection(direction: Vec3, leftClick: bool, aim: Vec3)
    | LiftSpeedLimit

  // ---------------------------------------------------------------------------
  // Standoff distance
  // ---------------------------------------------------------------------------

  function SumOf(s: seq<real>): real {
    if |s| == 0 then 0.0 else s[0] + SumOf(s[1..])
  }

  /** The standoff distance is defined when the ship has shields and their mean
      power ratio is positive (otherwise the source divides by zero). */
  predicate StandoffDefined(ratios: seq<real>) {
    |ratios| > 0 && SumOf(ratios) > 0.0
  }

  /** Mean power ratio of the ship's shields. */
  function AverageHealth(ratios: seq<real>): (avg: real)
    requires |ratios| > 0
    ensures avg * (|ratios| as real) == SumOf(ratios)
    ensures StandoffDefined(ratios) <==> avg > 0.0
  {
    SumOf(ratios) / (|ratios| as real)
  }

  /** Standoff distance for a given mean shield ratio: 25 plus the reciprocal of a
      tenth of the mean. Weaker shields keep the ship farther away. */
  function StandoffForAverage(avg: real): (d: real)
    requires avg > 0.0
    ensures d > MinStandoff
    ensures d == MinStandoff + 10.0 / avg
  {
    MinStandoff + 1.0 / (avg / 10.0)
  }

  function StandoffDistance(ratios: seq<real>): (d: real)
    requires StandoffDefined(ratios)
    ensures d > MinStandoff
  {
    StandoffForAverage(AverageHealth(ratios))
  }

  /** A healthier fleet of shields gives a strictly smaller standoff distance. */
  lemma StandoffStrictlyDecreasing(a: real, b: real)
    requires 0.0 < a < b
    ensures StandoffForAverage(a) > StandoffForAverage(b)
  {
  }

  /** Full shields give 35; shields at a tenth give 125. */
  lemma StandoffExamples()
    ensures StandoffForAverage(1.0) == 35.0
    ensures StandoffForAverage(0.1) == 125.0
  {
  }

  lemma {:induction false} SumOfRatios(s: seq<real>)
    requires forall i :: 0 <= i < |s| ==> 0.0 < s[i] <= 1.0
    ensures 0.0 <= SumOf(s) <= |s| as real
    ensures |s| > 0 ==> SumOf(s) > 0.0
  {
    if |s| > 0 {
      SumOfRatios(s[1..]);
    }
  }

  /** When every shield's power ratio lies in (0, 1], the standoff distance is
      defined, the mean lies in (0, 1], and the ship stays at least 35 away. */
  lemma ShieldRatiosBoundStandoff(ratios: seq<real>)
    requires |ratios| > 0
    requires forall i :: 0 <= i < |ratios| ==> 0.0 < ratios[i] <= 1.0
    ensures StandoffDefined(ratios)
    ensures 0.0 < AverageHealth(ratios) <= 1.0
    ensures StandoffDistance(ratios) >= 35.0
  {
    SumOfRatios(ratios);
    var n := |ratios| as real;
    var avg := AverageHealth(ratios);
    assert avg * n <= n;
    if avg < 1.0 {
      StandoffStrictlyDecreasing(avg, 1.0);
    }
  }

  // ---------------------------------------------------------------------------
  // Closest axis point
  // ---------------------------------------------------------------------------

  /** The horizontal cardinal directions in the host's order: north, east, south, west. */
  function CardinalDirections(): (dirs: seq<Vec3>)
    ensures |dirs| == 4
  {
    [Vec3(0.0, 0.0, -1.0), Vec3(1.0, 0.0, 0.0), Vec3(0.0, 0.0, 1.0), Vec3(-1.0, 0.0, 0.0)]
  }

  /** The cardinal directions are four distinct horizontal unit vectors, each
      along the x or the z axis. */
  lemma CardinalDirectionsHorizontalUnit()
    ensures forall i :: 0 <= i < 4 ==>
              && CardinalDirections()[i].y == 0.0
              && ((CardinalDirections()[i].x == 0.0 && (CardinalDirections()[i].z == 1.0 || CardinalDirections()[i].z == -1.0))
                  || (CardinalDirections()[i].z == 0.0 && (CardinalDirections()[i].x == 1.0 || CardinalDirections()[i].x == -1.0)))
    ensures forall i, j :: 0 <= i < j < 4 ==> CardinalDirections()[i] != CardinalDirections()[j]
  {
  }

  /** The four candidate positions: the target shifted by the standoff distance
      along each cardinal direction. */
  function AxisPoints(target: Vec3, standoff: real): (pts: seq<Vec3>)
    ensures |pts| == 4
  {
    var dirs := CardinalDirections();
    [Add(target, Scale(dirs[0], standoff)), Add(target, Scale(dirs[1], standoff)),
     Add(target, Scale(dirs[2], standoff)), Add(target, Scale(dirs[3], standoff))]
  }

  /** Index of the first smallest key, as a left-to-right scan that replaces the
      current best only on a strictly smaller key finds it. */
  function FirstMinIndex(keys: seq<real>): (i: nat)
    requires |keys| > 0
    ensures i < |keys|
    ensures forall j :: 0 <= j < |keys| ==> keys[i] <= keys[j]
    ensures forall j :: 0 <= j < i ==> keys[j] > keys[i]
  {
    if |keys| == 1 then 0
    else
      var k := FirstMinIndex(keys[..|keys| - 1]);
      if keys[|keys| - 1] < keys[k] then |keys| - 1 else k
  }

  /** Which axis point is nearest the ship: the first of the nearest ones in the
      order of the cardinal directions. */
  function ClosestAxisIndex(target: Vec3, standoff: real, ship: Vec3): (i: nat)
    ensures i < 4
    ensures forall j :: 0 <= j < 4 ==>
              DistSq(AxisPoints(target, standoff)[i], ship) <= DistSq(AxisPoints(target, standoff)[j], ship)
    ensures forall j :: 0 <= j < i ==>
              DistSq(AxisPoints(target, standoff)[j], ship) > DistSq(AxisPoints(target, standoff)[i], ship)
  {
    var pts := AxisPoints(target, standoff);
    var keys := [DistSq(pts[0], ship), DistSq(pts[1], ship), DistSq(pts[2], ship), DistSq(pts[3], ship)];
    assert forall j :: 0 <= j < 4 ==> keys[j] == DistSq(pts[j], ship);
    FirstMinIndex(keys)
  }

  /** The axis point nearest the ship. */
  function ClosestAxisPoint(target: Vec3, standoff: real, ship: Vec3): (p: Vec3)
    ensures p in AxisPoints(target, standoff)
    ensures forall q :: q in AxisPoints(target, standoff) ==> DistSq(p, ship) <= DistSq(q, ship)
  {
    AxisPoints(target, standoff)[ClosestAxisIndex(target, standoff, ship)]
  }

  /** Every axis point lies level with the target at exactly the standoff distance. */
  lemma AxisPointsOnRing(target: Vec3, standoff: real)
    ensures forall q :: q in AxisPoints(target, standoff) ==>
              q.y == target.y && DistSq(q, target) == standoff * standoff
  {
  }

  /** The vector from an axis point back to the target runs along one cardinal
      axis and has the standoff distance as its length. */
  lemma AxisOffsetIsCardinal(target: Vec3, standoff: real, ship: Vec3)
    ensures exists i :: 0 <= i < 4 && Sub(target, ClosestAxisPoint(target, standoff, ship)) == Scale(CardinalDirections()[i], -standoff)
  {
    var i := ClosestAxisIndex(target, standoff, ship);
    var pts := AxisPoints(target, standoff);
    assert Sub(target, pts[i]) == Scale(CardinalDirections()[i], -standoff);
  }

  // ---------------------------------------------------------------------------
  // The per-tick target assessment
  // ---------------------------------------------------------------------------

  /** What the target check decides: disengage, close in on an objective, or fight. */
  datatype Assessment = Lost | Pursue(objective: Location) | Engage

  /** The decision ladder of the target check, given the planet cache and the
      current ship-to-target distance. */
  function Assess(level: AggressivenessLevel, shipWorld: World, targetWorld: World, targetPos: Vec3,
                  planets: map<World, Planet>, distance: real): (a: Assessment)
    // the target is in another world: follow it to its planet only when pursuing
    ensures shipWorld != targetWorld ==>
              (a.Lost? <==> targetWorld !in planets || !Pursues(level))
    ensures shipWorld != targetWorld && !a.Lost? ==>
              a == Pursue(Location(planets[targetWorld].spaceWorld, planets[targetWorld].location))
    // same world: out of range loses the target unless pursuing
    ensures shipWorld == targetWorld ==>
              (a.Lost? <==> distance > level.engagementDistance && !Pursues(level))
    ensures shipWorld == targetWorld && a.Pursue? ==> a.objective == Location(targetWorld, targetPos)
    // fighting happens only in range and outside the approach band
    ensures a.Engage? <==>
              shipWorld == targetWorld && distance <= level.engagementDistance
              && !(ApproachBandLow <= distance <= ApproachBandHigh)
  {
    if targetWorld != shipWorld then
      if targetWorld !in planets then Lost
      else if Pursues(level) then
        Pursue(Location(planets[targetWorld].spaceWorld, planets[targetWorld].location))
      else Lost
    else if distance > level.engagementDistance then
      if Pursues(level) then Pursue(Location(targetWorld, targetPos)) else Lost
    else if ApproachBandLow <= distance <= ApproachBandHigh then
      Pursue(Location(targetWorld, targetPos))
    else Engage
  }

  /** Being out of range takes precedence over the approach band: a distance in
      the band but beyond the engagement range never closes in unless pursuing. */
  lemma OutOfRangePrecedesBand(level: AggressivenessLevel, w: World, targetPos: Vec3,
                               planets: map<World, Planet>, distance: real)
    requires distance > level.engagementDistance
    requires ApproachBandLow <= distance <= ApproachBandHigh
    ensures Assess(level, w, w, targetPos, planets, distance) == (if Pursues(level) then Pursue(Location(w, targetPos)) else Lost)
  {
  }

  /** Engagement range 600 at distance 550 closes in rather than fighting. */
  lemma ApproachBandExample(level: AggressivenessLevel, w: World, targetPos: Vec3, planets: map<World, Planet>)
    requires level.engagementDistance == 600.0
    ensures Assess(level, w, w, targetPos, planets, 550.0) == Pursue(Location(w, targetPos))
  {
  }

  // ---------------------------------------------------------------------------
  // Commands issued by the two loops
  // ---------------------------------------------------------------------------

  /** The commands of the navigation loop: lift the speed cap, cruise towards a far
      objective (or stop cruising near one), and shift-fly to the objective. */
  function NavigationIntents(shipPos: Vec3, objective: Location): seq<Intent> {
    var direction := Sub(objective.pos, shipPos);
    [LiftSpeedLimit]
    + (if DistSq(shipPos, objective.pos) >= CruiseDistance * CruiseDistance
       then [StartCruising(direction)] else [StopCruising])
    + [ShiftFlyTo(objective)]
  }

  /** Navigation never fires, always ends by shift-flying to the objective, and
      cruises exactly when the objective is at least the cruise distance away. */
  lemma NavigationIntentsFacts(shipPos: Vec3, objective: Location)
    ensures var cmds := NavigationIntents(shipPos, objective);
            && |cmds| == 3 && cmds[2] == ShiftFlyTo(objective)
            && (forall i :: 0 <= i < |cmds| ==> !cmds[i].ShootInDirection? && !cmds[i].FaceDirection?)
            && (StartCruising(Sub(objective.pos, shipPos)) in cmds
                <==> DistSq(shipPos, objective.pos) >= CruiseDistance * CruiseDistance)
            && (StopCruising in cmds <==> DistSq(shipPos, objective.pos) < CruiseDistance * CruiseDistance)
  {
  }

  /** The commands of the combat loop, given the ship's world and position, the
      target's position and the standoff distance: face along the axis towards
      the target, shift-fly to the closest axis point, stop cruising, and fire
      both triggers at the target. */
  function CombatIntents(shipWorld: World, shipPos: Vec3, targetPos: Vec3, standoff: real): seq<Intent> {
    var p := ClosestAxisPoint(targetPos, standoff, shipPos);
    var direction := Sub(targetPos, p);
    [FaceDirection(direction), ShiftFlyTo(Location(shipWorld, p)), StopCruising,
     ShootInDirection(direction, false, targetPos), ShootInDirection(direction, true, targetPos)]
  }

  /** The combat loop moves to an axis point at the standoff distance in the
      ship's own world, never cruises, and fires both triggers at the target. */
  lemma CombatIntentsFacts(shipWorld: World, shipPos: Vec3, targetPos: Vec3, standoff: real)
    ensures var cmds := CombatIntents(shipWorld, shipPos, targetPos, standoff);
            && |cmds| == 5
            && cmds[1].ShiftFlyTo? && cmds[1].objective.world == shipWorld
            && cmds[1].objective.pos in AxisPoints(targetPos, standoff)
            && DistSq(cmds[1].objective.pos, targetPos) == standoff * standoff
            && (forall i :: 0 <= i < |cmds| ==> !cmds[i].StartCruising?)
            && ShootInDirection(Sub(targetPos, cmds[1].objective.pos), false, targetPos) in cmds
            && ShootInDirection(Sub(targetPos, cmds[1].objective.pos), true, targetPos) in cmds
  {
    AxisPointsOnRing(targetPos, standoff);
  }

  // ---------------------------------------------------------------------------
  // Ships, controllers and target search
  // ---------------------------------------------------------------------------

  datatype WeaponSet = WeaponSet(name: string)

  /** What occupies a ship's controller slot: a controller outside this model
      (player or other AI), or a starfighter combat controller. */
  datatype Controller =
    | External(name: string, isAI: bool, pilotName: string,
               manualWeaponSets: seq<WeaponSet>, autoWeaponSets: seq<WeaponSet>)
    | StarfighterCombat(combat: StarfighterCombatController)

  predicate IsAI(c: Controller) {
    match c
    case External(_, isAI, _, _, _) => isAI
    case StarfighterCombat(_) => true
  }

  /** An active starship: its single controller slot, where it is, and its shields. */
  class Starship {
    var controller: Controller
    var world: World
    var centerOfMass: Vec3
    var shieldPowerRatios: seq<real>

    constructor (controller: Controller, world: World, centerOfMass: Vec3, shieldPowerRatios: seq<real>)
      ensures this.controller == controller && this.world == world
      ensures this.centerOfMass == centerOfMass && this.shieldPowerRatios == shieldPowerRatios
    {
      this.controller := controller;
      this.world := world;
      this.centerOfMass := centerOfMass;
      this.shieldPowerRatios := shieldPowerRatios;
    }
  }

  /** A ship returned by the host's nearby-ship query, with its distance. */
  datatype Sighting = Sighting(ship: Starship, distance: real)

  function Ships(nearby: seq<Sighting>): set<Starship> {
    set i | 0 <= i < |nearby| :: nearby[i].ship
  }

  /** A sighted ship may become the next target when it is within the engagement
      range and not already flown by an AI controller. */
  predicate EligibleNextTarget(s: Sighting, range: real)
    reads s.ship
  {
    0.0 <= s.distance <= range && !IsAI(s.ship.controller)
  }

  /** The first eligible ship in query order, if any. */
  function NextTarget(nearby: seq<Sighting>, range: real): (r: Option<Starship>)
    reads Ships(nearby)
    ensures r.None? <==> forall i :: 0 <= i < |nearby| ==> !EligibleNextTarget(nearby[i], range)
    ensures r.Some? ==>
              exists i :: 0 <= i < |nearby| && nearby[i].ship == r.value && EligibleNextTarget(nearby[i], range)
                          && forall j :: 0 <= j < i ==> !EligibleNextTarget(nearby[j], range)
  {
    if |nearby| == 0 then None
    else if EligibleNextTarget(nearby[0], range) then Some(nearby[0].ship)
    else
      assert Ships(nearby[1..]) <= Ships(nearby) by {
        forall s | s in Ships(nearby[1..]) ensures s in Ships(nearby) {
          var i :| 0 <= i < |nearby[1..]| && nearby[1..][i].ship == s;
          assert nearby[i + 1].ship == s;
        }
      }
      var r := NextTarget(nearby[1..], range);
      assert forall i :: 1 <= i < |nearby| ==> nearby[i] == nearby[1..][i - 1];
      r
  }

  // ---------------------------------------------------------------------------
  // The controller
  // ---------------------------------------------------------------------------

  class StarfighterCombatController {
    const starship: Starship
    var target: Starship
    /** The controller to restore on fallback. */
    const previousController: Controller
    const aggressivenessLevel: AggressivenessLevel
    /** Arguments the creating factory passed through from the controller it replaced. */
    const pilotName: string
    const manualWeaponSets: seq<WeaponSet>
    const autoWeaponSets: seq<WeaponSet>
    /** The location that should be navigated towards. */
    var locationObjective: Location
    var state: State
    /** Commands issued to the host engine so far, oldest first. */
    var intents: seq<Intent>

    constructor (starship: Starship, target: Starship, previousController: Controller,
                 aggressivenessLevel: AggressivenessLevel, pilotName: string,
                 manualWeaponSets: seq<WeaponSet>, autoWeaponSets: seq<WeaponSet>)
      ensures this.starship == starship && this.target == target
      ensures this.previousController == previousController
      ensures this.aggressivenessLevel == aggressivenessLevel
      ensures this.pilotName == pilotName
      ensures this.manualWeaponSets == manualWeaponSets && this.autoWeaponSets == autoWeaponSets
      ensures locationObjective == Location(target.world, target.centerOfMass)
      ensures state == FocusLocation && intents == []
    {
      this.starship := starship;
      this.target := target;
      this.previousController := previousController;
      this.aggressivenessLevel := aggressivenessLevel;
      this.pilotName := pilotName;
      this.manualWeaponSets := manualWeaponSets;
      this.autoWeaponSets := autoWeaponSets;
      this.locationObjective := Location(target.world, target.centerOfMass);
      this.state := FocusLocation;
      this.intents := [];
    }

    /** The assessment the target check makes this tick. */
    function CurrentAssessment(planets: map<World, Planet>, distance: real): Assessment
      reads this, starship, target
    {
      Assess(aggressivenessLevel, starship.world, target.world, target.centerOfMass, planets, distance)
    }

    /** Re-checks the target and updates the state and the objective; false means
        the target is lost and the controller must disengage. */
    method CheckOnTarget(planets: map<World, Planet>, distance: real) returns (ok: bool)
      modifies this`state, this`locationObjective
      ensures var a := CurrentAssessment(planets, distance);
              && ok == !a.Lost?
              && (a.Lost? ==> state == old(state) && locationObjective == old(locationObjective))
              && (a.Pursue? ==> state == FocusLocation && locationObjective == a.objective)
              && (a.Engage? ==> state == Combat && locationObjective == old(locationObjective))
    {
      var targetLocation := target.centerOfMass;

      if target.world != starship.world {
        // If no planet is known for the target's world, it has likely jumped away
        if target.world !in planets {
          return false;
        }
        var planet := planets[target.world];
        if aggressivenessLevel.ordinal >= HighOrdinal {
          state := FocusLocation;
          locationObjective := Location(planet.spaceWorld, planet.location);
          return true;
        }
        return false;
      }

      if distance > aggressivenessLevel.engagementDistance {
        if aggressivenessLevel.ordinal >= HighOrdinal {
          locationObjective := Location(target.world, targetLocation);
          state := FocusLocation;
          return true;
        }
        ok := false;
      } else if ApproachBandLow <= distance <= ApproachBandHigh {
        locationObjective := Location(target.world, targetLocation);
        state := FocusLocation;
        ok := true;
      } else {
        state := Combat;
        ok := true;
      }
    }

    /** Hands the ship back to the controller it had before this one. */
    method Fallback()
      modifies starship`controller
      ensures starship.controller == previousController
    {
      starship.controller := previousController;
    }

    /** Retargets a pursuing controller onto the next eligible ship; otherwise,
        or when there is none, falls back. */
    method Disengage(nearby: seq<Sighting>)
      modifies this`target, starship`controller
      ensures var next := old(NextTarget(nearby, aggressivenessLevel.engagementDistance));
              if Pursues(aggressivenessLevel) && next.Some? then
                target == next.value && starship.controller == old(starship.controller)
              else
                target == old(target) && starship.controller == previousController
    {
      if aggressivenessLevel.ordinal >= HighOrdinal {
        var nextTarget := NextTarget(nearby, aggressivenessLevel.engagementDistance);
        if nextTarget.None? {
          Fallback();
        } else {
          target := nextTarget.value;
        }
        return;
      }
      Fallback();
    }

    /** Moves the objective to the closest axis point around the target and
        returns the direction from that point to the target. */
    method GetImmediateLocation() returns (direction: Vec3)
      requires StandoffDefined(starship.shieldPowerRatios)
      modifies this`locationObjective
      ensures var p := ClosestAxisPoint(target.centerOfMass, StandoffDistance(starship.shieldPowerRatios),
                                        starship.centerOfMass);
              locationObjective == Location(starship.world, p) && direction == Sub(target.centerOfMass, p)
    {
      var closestPoint := ClosestAxisPoint(target.centerOfMass, StandoffDistance(starship.shieldPowerRatios),
                                           starship.centerOfMass);
      locationObjective := Location(starship.world, closestPoint);
      direction := Sub(target.centerOfMass, closestPoint);
    }

    /** Holds the standoff position: face the target, shift-fly to the axis point,
        stop cruising and fire both triggers at the target. */
    method CombatLoop()
      requires StandoffDefined(starship.shieldPowerRatios)
      modifies this`locationObjective, this`intents
      ensures locationObjective
              == Location(starship.world, ClosestAxisPoint(target.centerOfMass,
                                                           StandoffDistance(starship.shieldPowerRatios),
                                                           starship.centerOfMass))
      ensures intents == old(intents) + CombatIntents(starship.world, starship.centerOfMass, target.centerOfMass,
                                                      StandoffDistance(starship.shieldPowerRatios))
    {
      var direction := GetImmediateLocation();
      intents := intents + [FaceDirection(direction), ShiftFlyTo(locationObjective), StopCruising,
                            ShootInDirection(direction, false, target.centerOfMass),
                            ShootInDirection(direction, true, target.centerOfMass)];
    }

    /** Shift-flies towards the objective, cruising as well when it is at least
        the cruise distance away, and lifts the speed cap. */
    method NavigationLoop()
      modifies this`intents
      ensures intents == old(intents) + NavigationIntents(starship.centerOfMass, locationObjective)
    {
      var distanceSq := DistSq(starship.centerOfMass, locationObjective.pos);
      var direction := Sub(locationObjective.pos, starship.centerOfMass);
      intents := intents + [LiftSpeedLimit];
      if distanceSq >= CruiseDistance * CruiseDistance {
        intents := intents + [StartCruising(direction), ShiftFlyTo(locationObjective)];
        return;
      }
      intents := intents + [StopCruising, ShiftFlyTo(locationObjective)];
    }

    /** One tick: check the target; on failure only disengage, otherwise run the
        one loop the new state selects. */
    method Tick(planets: map<World, Planet>, distance: real, nearby: seq<Sighting>)
      requires CurrentAssessment(planets, distance).Engage? ==> StandoffDefined(starship.shieldPowerRatios)
      modifies this`state, this`locationObjective, this`target, this`intents, starship`controller
      ensures var a := old(CurrentAssessment(planets, distance));
              var next := old(NextTarget(nearby, aggressivenessLevel.engagementDistance));
              && (a.Lost? ==>
                    && state == old(state) && locationObjective == old(locationObjective)
                    && intents == old(intents)
                    && (if Pursues(aggressivenessLevel) && next.Some? then
                          target == next.value && starship.controller == old(starship.controller)
                        else
                          target == old(target) && starship.controller == previousController))
              && (!a.Lost? ==> target == old(target) && starship.controller == old(starship.controller))
              && (a.Pursue? ==>
                    && state == FocusLocation && locationObjective == a.objective
                    && intents == old(intents) + NavigationIntents(starship.centerOfMass, a.objective))
              && (a.Engage? ==>
                    var standoff := StandoffDistance(starship.shieldPowerRatios);
                    && state == Combat
                    && locationObjective
                       == Location(starship.world, ClosestAxisPoint(target.centerOfMass, standoff, starship.centerOfMass))
                    && intents == old(intents) + CombatIntents(starship.world, starship.centerOfMass,
                                                               target.centerOfMass, standoff))
    {
      var ok := CheckOnTarget(planets, distance);
      if !ok {
        Disengage(nearby);
        return;
      }
      match state {
        case FocusLocation => NavigationLoop();
        case Combat => CombatLoop();
      }
    }
  }
}
