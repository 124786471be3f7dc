/**
 * The scene manager: it holds the one current scene and the player-progress
 * record, and offers the accessors every scene uses to change that record.
 */
module SceneManagement {
  import opened Wrappers
  import opened Catalog
  import opened Lists
  import opened PlayerProgress

  /** How a battle ended, as the battle hands it to the result screen. */
  datatype Outcome = Victory | Defeat | Escape

  /** What a map event was about; the event screen shows a text built from it and from the area. */
  datatype EventKind =
    | ItemFound(item: Item)
    | HintHeard(guardian: Guardian)
    | Rested

  /** The closed set of screens. A battle and its result carry the guardian's record, as the scenes are handed it. */
  datatype Scene =
    | Title
    | NameInput
    | Prologue
    | Map
    | Battle(guardian: Guardian)
    | Event(area: string, kind: EventKind)
    | BattleResult(guardian: Guardian, outcome: Outcome)
    | GameOver
    | Ending

  /**
   * The screens the three navigation-only scenes lead to: the title screen's
   * start button opens the name input, and the event and battle-result
   * screens' continue buttons go back to the map. Every other scene has its
   * own class.
   */
  function ContinueFrom(s: Scene): (next: Option<Scene>)
    ensures next == Some(NameInput) <==> s == Title
    ensures next == Some(Map) <==> s.Event? || s.BattleResult?
    ensures next.None? <==> !(s == Title || s.Event? || s.BattleResult?)
  {
    match s
    case Title => Some(NameInput)
    case Event(_, _) => Some(Map)
    case BattleResult(_, _) => Some(Map)
    case _ => None
  }

  class SceneManager {
    var current: Option<Scene>
    var player: Player

    /**
     * Every scene relies on this: the record's stats are not negative, its
     * lists hold no duplicates, and every completed trial is the name of a
     * guardian of the catalog (the only names a battle records).
     */
    predicate Valid()
      reads this
    {
      PlayerProgress.Valid(player) && TrialsAreGuardians(player)
    }

    /** A new manager has no scene yet and the initial record with an empty name. */
    constructor ()
      ensures current == None && player == InitialPlayer("")
      ensures Valid()
    {
      current := None;
      player := InitialPlayer("");
      InitialPlayerFacts("");
    }

    /** `change_scene`: the given scene replaces the current one, whatever it was. */
    method ChangeScene(scene: Scene)
      modifies this
      ensures current == Some(scene) && player == old(player)
    {
      current := Some(scene);
    }

    /** `set_player_name`. */
    method SetPlayerName(name: string)
      modifies this
      ensures player == old(player).(name := name) && current == old(current)
      ensures old(Valid()) ==> Valid()
    {
      player := player.(name := name);
    }

    /** `update_player_stat`: whether the player levelled up. */
    method UpdatePlayerStat(stat: string, delta: int) returns (leveledUp: bool)
      requires stat !in TextOrListKeys
      modifies this
      ensures (player, leveledUp) == UpdateStat(old(player), stat, delta)
      ensures current == old(current)
      ensures old(Valid()) ==> Valid()
    {
      leveledUp := false;
      if stat in NumericStats {
        var v := Stat(player, stat) + delta;
        player := WithStat(player, stat, v);
        if Stat(player, stat) < 0 {
          player := WithStat(player, stat, 0);
        }
        if stat == "aws_knowledge" {
          var newLevel := 1 + player.awsKnowledge / 100;
          if newLevel > player.level {
            player := player.(level := newLevel);
            leveledUp := true;
          }
        }
      }
    }

    /** `add_item`: the name is appended, duplicates allowed. */
    method AddItem(name: string)
      modifies this
      ensures player == old(player).(items := old(player.items) + [name])
      ensures current == old(current)
      ensures old(Valid()) ==> Valid()
    {
      player := player.(items := player.items + [name]);
    }

    /** `remove_item`: the first occurrence is deleted when there is one; the result says whether there was. */
    method RemoveItem(name: string) returns (removed: bool)
      modifies this
      ensures removed <==> name in old(player.items)
      ensures removed ==> player == old(player).(items := RemoveFirst(old(player.items), name))
      ensures !removed ==> player == old(player)
      ensures current == old(current)
      ensures old(Valid()) ==> Valid()
    {
      if name in player.items {
        player := player.(items := RemoveFirst(player.items, name));
        removed := true;
      } else {
        removed := false;
      }
    }

    /** `add_skill`: appended only when not yet known. */
    method AddSkill(name: string)
      modifies this
      ensures player == old(player).(skills := AddUnique(old(player.skills), name))
      ensures current == old(current)
      ensures old(Valid()) ==> Valid()
    {
      if name !in player.skills {
        player := player.(skills := player.skills + [name]);
      }
    }

    /** `complete_trial`: recorded only when not yet recorded. */
    method CompleteTrial(name: string)
      modifies this
      ensures player == old(player).(completedTrials := AddUnique(old(player.completedTrials), name))
      ensures current == old(current)
      ensures old(PlayerProgress.Valid(player)) ==> PlayerProgress.Valid(player)
      ensures old(Valid()) && name in GuardianNameList() ==> Valid()
    {
      if name !in player.completedTrials {
        player := player.(completedTrials := player.completedTrials + [name]);
      }
    }

    /** `is_game_over`. */
    method IsGameOver() returns (over: bool)
      ensures over <==> player.motivation <= 0
    {
      over := player.motivation <= 0;
    }

    /** `is_game_completed`: checks the guardians one by one, as `all(...)` does. */
    method IsGameCompleted() returns (done: bool)
      ensures done <==> forall i :: 0 <= i < |Guardians| ==> Guardians[i].name in player.completedTrials
      ensures Valid() ==> (done <==> |player.completedTrials| == 7)
    {
      var names := GuardianNameList();
      var i := 0;
      done := true;
      while i < |names| && done
        invariant 0 <= i <= |names|
        invariant done ==> forall j :: 0 <= j < i ==> names[j] in player.completedTrials
        invariant !done ==> i < |names| && names[i] !in player.completedTrials
        decreases |names| - i, done
      {
        if names[i] !in player.completedTrials {
          done := false;
        } else {
          i := i + 1;
        }
      }
      if Valid() {
        CompletedIffSevenTrials(player);
      }
    }
  }
}
