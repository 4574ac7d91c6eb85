/** The combat-mode AI module: while its controller flies the ship, it watches for
    a nearby target and, on the first one, installs a starfighter combat
    controller that remembers the controller it replaced. Together with that
    controller's fallback this is a handoff/restore protocol over the ship's
    single controller slot. */
module CombatMode {
  import opened Wrappers
  import opened StarfighterCombat

  function PilotName(c: Controller): string {
    match c
    case External(_, _, pilotName, _, _) => pilotName
    case StarfighterCombat(combat) => combat.pilotName
  }

  function ManualWeaponSets(c: Controller): seq<WeaponSet> {
    match c
    case External(_, _, _, manual, _) => manual
    case StarfighterCombat(combat) => combat.manualWeaponSets
  }

  function AutoWeaponSets(c: Controller): seq<WeaponSet> {
    match c
    case External(_, _, _, _, auto) => auto
    case StarfighterCombat(combat) => combat.autoWeaponSets
  }

  /** A sighted ship counts as a target when it lies within [0, minRange] and the
      module's filter accepts it. */
  predicate AcceptedTarget(s: Sighting, minRange: real, targetFilter: Starship -> bool) {
    0.0 <= s.distance <= minRange && targetFilter(s.ship)
  }

  /** The first accepted target in query order, if any. */
  function FirstTarget(found: seq<Sighting>, minRange: real, targetFilter: Starship -> bool): (r: Option<Starship>)
    ensures r.None? <==> forall i :: 0 <= i < |found| ==> !AcceptedTarget(found[i], minRange, targetFilter)
    ensures r.Some? ==>
              exists i :: 0 <= i < |found| && found[i].ship == r.value && AcceptedTarget(found[i], minRange, targetFilter)
                          && forall j :: 0 <= j < i ==> !AcceptedTarget(found[j], minRange, targetFilter)
  {
    if |found| == 0 then None
    else if AcceptedTarget(found[0], minRange, targetFilter) then Some(found[0].ship)
    else
      var r := FirstTarget(found[1..], minRange, targetFilter);
      assert forall i :: 1 <= i < |found| ==> found[i] == found[1..][i - 1];
      r
  }

  class CombatModeModule {
    /** The AI controller that owns this module. */
    const controller: Controller
    const starship: Starship
    /** The level of the combat controllers this module's factory creates. */
    const combatLevel: AggressivenessLevel
    const minRange: real
    const targetFilter: Starship -> bool

    constructor (controller: Controller, starship: Starship, combatLevel: AggressivenessLevel,
                 minRange: real, targetFilter: Starship -> bool)
      ensures this.controller == controller && this.starship == starship
      ensures this.combatLevel == combatLevel && this.minRange == minRange
      ensures this.targetFilter == targetFilter
    {
      this.controller := controller;
      this.starship := starship;
      this.combatLevel := combatLevel;
      this.minRange := minRange;
      this.targetFilter := targetFilter;
    }

    /** Installs a fresh combat controller for `target`, carrying over the owning
        controller's pilot name and weapon sets and remembering it as the
        controller to fall back to. */
    method SwitchToCombatMode(target: Starship) returns (combat: StarfighterCombatController)
      modifies starship`controller
      ensures fresh(combat)
      ensures starship.controller == StarfighterCombat(combat)
      ensures combat.starship == starship && combat.target == target
      ensures combat.previousController == controller
      ensures combat.aggressivenessLevel == combatLevel
      ensures combat.pilotName == PilotName(controller)
      ensures combat.manualWeaponSets == ManualWeaponSets(controller)
      ensures combat.autoWeaponSets == AutoWeaponSets(controller)
      ensures combat.state == FocusLocation && combat.intents == []
    {
      var previousController := controller;
      combat := new StarfighterCombatController(starship, target, previousController, combatLevel,
                                                PilotName(controller), ManualWeaponSets(controller),
                                                AutoWeaponSets(controller));
      starship.controller := StarfighterCombat(combat);
    }

    /** One tick: switch to combat mode on the first target the range query
        finds; with no target, change nothing. */
    method Tick(found: seq<Sighting>)
      modifies starship`controller
      ensures var first := FirstTarget(found, minRange, targetFilter);
              if first.None? then
                starship.controller == old(starship.controller)
              else
                && starship.controller.StarfighterCombat?
                && fresh(starship.controller.combat)
                && starship.controller.combat.starship == starship
                && starship.controller.combat.target == first.value
                && starship.controller.combat.previousController == controller
                && starship.controller.combat.aggressivenessLevel == combatLevel
                && starship.controller.combat.pilotName == PilotName(controller)
                && starship.controller.combat.manualWeaponSets == ManualWeaponSets(controller)
                && starship.controller.combat.autoWeaponSets == AutoWeaponSets(controller)
                && starship.controller.combat.state == FocusLocation
                && starship.controller.combat.intents == []
    {
      var target := FirstTarget(found, minRange, targetFilter);
      if target.None? {
        return;
      }
      var _ := SwitchToCombatMode(target.value);
    }
  }

  /** Switching to combat mode and then falling back hands the slot to the
      module's owner, whatever the slot held before; so when the owner was the
      active controller, the round trip restores the slot. */
  method SwitchThenFallback(m: CombatModeModule, target: Starship)
    modifies m.starship`controller
    ensures m.starship.controller == m.controller
    ensures old(m.starship.controller) == m.controller ==> m.starship.controller == old(m.starship.controller)
  {
    var combat := m.SwitchToCombatMode(target);
    combat.Fallback();
  }
}
