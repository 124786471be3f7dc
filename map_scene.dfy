/**
 * The map: seven area buttons and an inventory overlay. Choosing an area
 * draws an encounter (a battle with the area's guardian, or a random event
 * that finds an item, hears a hint or rests), and every frame checks
 * whether the session is over or complete.
 */
module MapScreen {
  import opened Wrappers
  import opened Events
  import opened Lists
  import opened Catalog
  import opened PlayerProgress
  import opened SceneManagement

  /** The four outcomes of the weighted draw in `select_area`. */
  datatype Encounter = BattleDraw | ItemDraw | HintDraw | NothingDraw

  /** The weight `random.choices` gives each outcome. */
  function Weight(c: Encounter): real
  {
    match c
    case BattleDraw => 0.4
    case ItemDraw => 0.3
    case HintDraw => 0.2
    case NothingDraw => 0.1
  }

  /** The total weight of the outcomes listed before `c`. */
  function WeightBefore(c: Encounter): real
  {
    match c
    case BattleDraw => 0.0
    case ItemDraw => Weight(BattleDraw)
    case HintDraw => Weight(BattleDraw) + Weight(ItemDraw)
    case NothingDraw => Weight(BattleDraw) + Weight(ItemDraw) + Weight(HintDraw)
  }

  /**
   * `random.choices(..., weights=[0.4, 0.3, 0.2, 0.1])` on the uniform draw
   * `u`: the first outcome whose cumulative weight exceeds `u`. So each
   * outcome is chosen on an interval of `[0, 1)` exactly as long as its
   * weight, and the intervals do not overlap.
   */
  function EncounterOf(u: real): (c: Encounter)
    requires 0.0 <= u < 1.0
    ensures WeightBefore(c) <= u < WeightBefore(c) + Weight(c)
    ensures forall o :: WeightBefore(o) <= u < WeightBefore(o) + Weight(o) ==> o == c
  {
    if u < 0.4 then BattleDraw
    else if u < 0.7 then ItemDraw
    else if u < 0.9 then HintDraw
    else NothingDraw
  }

  /** The draws of `trigger_random_event`: which event, and the item or the guardian it picks. */
  datatype EventDraw = ItemEvent(item: nat) | HintEvent(guardian: nat) | RestEvent

  /** Draws that `random.choice` can produce on the catalog tables. */
  predicate EventDrawInRange(d: EventDraw)
  {
    match d
    case ItemEvent(i) => i < |Items|
    case HintEvent(g) => g < |Guardians|
    case RestEvent => true
  }

  /** The motivation and concentration a rest restores. */
  const RestRecovery: int := 20

  /**
   * `trigger_random_event` in `area`: the new record and the event screen.
   * An item event appends exactly the drawn item's name and changes no
   * stat; a hint changes nothing in the record; a rest adds 20 to
   * motivation and to concentration with no upper bound. The event screen
   * always names the area.
   */
  function RandomEvent(area: string, p: Player, d: EventDraw): (r: (Player, Scene))
    requires EventDrawInRange(d)
    ensures r.1.Event? && r.1.area == area
    ensures d.ItemEvent? ==>
              r.0 == p.(items := p.items + [Items[d.item].name]) && r.1.kind == ItemFound(Items[d.item])
    ensures d.HintEvent? ==> r.0 == p && r.1.kind == HintHeard(Guardians[d.guardian])
    ensures d.RestEvent? ==> r.1.kind == Rested
    ensures d.RestEvent? && Valid(p) ==>
              && r.0.motivation == p.motivation + RestRecovery
              && r.0.concentration == p.concentration + RestRecovery
              && r.0.awsKnowledge == p.awsKnowledge && r.0.level == p.level
              && r.0.name == p.name && r.0.items == p.items
              && r.0.skills == p.skills && r.0.completedTrials == p.completedTrials
    ensures Valid(p) ==> Valid(r.0)
  {
    match d
    case ItemEvent(i) => (p.(items := p.items + [Items[i].name]), Event(area, ItemFound(Items[i])))
    case HintEvent(g) => (p, Event(area, HintHeard(Guardians[g])))
    case RestEvent =>
      var rested := UpdateStat(UpdateStat(p, "motivation", RestRecovery).0, "concentration", RestRecovery).0;
      (rested, Event(area, Rested))
  }

  /** The guardian `select_area` looks up for a listed area: the one whose home it is. */
  function AreaGuardian(area: string): (g: Guardian)
    requires area in Areas
    ensures g in Guardians && g.area == area
  {
    var i :| 0 <= i < |Areas| && Areas[i] == area;
    GuardianOfEveryArea(i);
    Guardians[GuardianOfArea(area).value]
  }

  /** The guardian of the i-th area is the i-th guardian of the catalog. */
  lemma AreaGuardianAtSamePosition(i: nat)
    requires i < |Areas|
    ensures AreaGuardian(Areas[i]) == Guardians[i]
  {
    AreasAndGuardiansCorrespond();
    var g := AreaGuardian(Areas[i]);
    var j :| 0 <= j < |Guardians| && Guardians[j] == g;
    assert Guardians[j].area == Areas[i] == Guardians[i].area;
  }

  /**
   * `select_area(area)` with the encounter `c`: a battle draw opens a
   * battle with the area's guardian unless that guardian's name is already
   * among the completed trials; every other case, the fallback included,
   * is a random event. The battle leaves the record alone.
   */
  function AreaOutcome(area: string, p: Player, c: Encounter, d: EventDraw): (r: (Player, Scene))
    requires area in Areas && EventDrawInRange(d)
    ensures r.1.Battle? <==> c == BattleDraw && AreaGuardian(area).name !in p.completedTrials
    ensures r.1.Battle? ==> r.0 == p && r.1.guardian == AreaGuardian(area)
    ensures !r.1.Battle? ==> r == RandomEvent(area, p, d)
    ensures r.1.Battle? || r.1.Event?
  {
    if c == BattleDraw && AreaGuardian(area).name !in p.completedTrials then (p, Battle(AreaGuardian(area)))
    else RandomEvent(area, p, d)
  }

  /** Once every guardian is defeated, choosing an area never starts a battle again. */
  lemma NoBattleAfterCompletion(area: string, p: Player, c: Encounter, d: EventDraw)
    requires area in Areas && EventDrawInRange(d) && IsGameCompleted(p)
    ensures !AreaOutcome(area, p, c, d).1.Battle?
    ensures AreaOutcome(area, p, c, d).1.Event?
  {
    var g := AreaGuardian(area);
    var j :| 0 <= j < |Guardians| && Guardians[j] == g;
    assert g.name in p.completedTrials;
  }

  /** What a click on the map lands on: at most one button, and whether it is inside the inventory window. */
  datatype MapButton = AreaButton(i: nat) | InventoryButton | NoButton
  datatype MapHit = MapHit(button: MapButton, inInventoryWindow: bool)

  class MapScene {
    const sm: SceneManager
    var showingInventory: bool

    constructor (sm: SceneManager)
      ensures this.sm == sm && !showingInventory
    {
      this.sm := sm;
      showingInventory := false;
    }

    /**
     * `handle_event` with the encounter draw `u` and the event draws `d`.
     * While the inventory is shown, a click outside its window closes it
     * and no click ever reaches a button; otherwise a click on an area
     * button selects the area and a click on the inventory button opens
     * the inventory. Other events do nothing.
     */
    method HandleEvent(e: Input<MapHit>, u: real, d: EventDraw)
      requires 0.0 <= u < 1.0 && EventDrawInRange(d)
      modifies this, sm
      ensures old(showingInventory) ==>
                sm.player == old(sm.player) && sm.current == old(sm.current) &&
                (showingInventory <==> !(e.Click? && !e.hit.inInventoryWindow))
      ensures !old(showingInventory) && e.Click? && e.hit.button.AreaButton? && e.hit.button.i < |Areas| ==>
                var r := AreaOutcome(Areas[e.hit.button.i], old(sm.player), EncounterOf(u), d);
                sm.player == r.0 && sm.current == Some(r.1) && !showingInventory
      ensures !old(showingInventory) && e.Click? && e.hit.button == InventoryButton ==>
                showingInventory && sm.player == old(sm.player) && sm.current == old(sm.current)
      ensures !old(showingInventory) && !(e.Click? && ((e.hit.button.AreaButton? && e.hit.button.i < |Areas|) || e.hit.button == InventoryButton)) ==>
                !showingInventory && sm.player == old(sm.player) && sm.current == old(sm.current)
      ensures old(sm.Valid()) ==> sm.Valid()
    {
      if e.Click? {
        if showingInventory {
          if !e.hit.inInventoryWindow {
            showingInventory := false;
          }
          return;
        }
        match e.hit.button {
          case AreaButton(i) =>
            if i < |Areas| {
              SelectArea(Areas[i], EncounterOf(u), d);
            }
          case InventoryButton => ShowInventory();
          case NoButton =>
        }
      }
    }

    /**
     * `update`: the game-over check first, then the completion check, so a
     * session that is both over and complete ends on the ending screen.
     * The record is not touched.
     */
    method Update()
      modifies sm
      ensures sm.player == old(sm.player)
      ensures IsGameCompleted(sm.player) ==> sm.current == Some(SceneManagement.Ending)
      ensures IsGameOver(sm.player) && !IsGameCompleted(sm.player) ==> sm.current == Some(SceneManagement.GameOver)
      ensures !IsGameOver(sm.player) && !IsGameCompleted(sm.player) ==> sm.current == old(sm.current)
    {
      var over := sm.IsGameOver();
      if over {
        sm.ChangeScene(SceneManagement.GameOver);
      }
      var done := sm.IsGameCompleted();
      if done {
        sm.ChangeScene(SceneManagement.Ending);
      }
    }

    /** `select_area`: the scene and the record `AreaOutcome` gives. */
    method SelectArea(area: string, c: Encounter, d: EventDraw)
      requires area in Areas && EventDrawInRange(d)
      modifies sm
      ensures sm.player == AreaOutcome(area, old(sm.player), c, d).0
      ensures sm.current == Some(AreaOutcome(area, old(sm.player), c, d).1)
      ensures old(sm.Valid()) ==> sm.Valid()
    {
      if c == BattleDraw {
        var guardian := AreaGuardian(area);
        if guardian.name in sm.player.completedTrials {
          TriggerRandomEvent(area, d);
        } else {
          sm.ChangeScene(Battle(guardian));
        }
      } else {
        TriggerRandomEvent(area, d);
      }
    }

    /** `trigger_random_event`: the scene and the record `RandomEvent` gives. */
    method TriggerRandomEvent(area: string, d: EventDraw)
      requires EventDrawInRange(d)
      modifies sm
      ensures sm.player == RandomEvent(area, old(sm.player), d).0
      ensures sm.current == Some(RandomEvent(area, old(sm.player), d).1)
      ensures old(sm.Valid()) ==> sm.Valid()
    {
      match d {
        case ItemEvent(i) =>
          var item := Items[i];
          sm.AddItem(item.name);
          sm.ChangeScene(Event(area, ItemFound(item)));
        case HintEvent(g) =>
          sm.ChangeScene(Event(area, HintHeard(Guardians[g])));
        case RestEvent =>
          var _ := sm.UpdatePlayerStat("motivation", RestRecovery);
          var _ := sm.UpdatePlayerStat("concentration", RestRecovery);
          sm.ChangeScene(Event(area, Rested));
      }
    }

    /** `show_inventory`. */
    method ShowInventory()
      modifies this
      ensures showingInventory
    {
      showingInventory := true;
    }
  }
}
