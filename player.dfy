/**
 * The player-progress record that the scene manager owns (its
 * `player_data` dictionary) and the rules that change it: clamped stat
 * updates, the level derived from AWS knowledge, the inventory, the skill
 * list and the completed trials, and the game-over and game-completed tests.
 */
module PlayerProgress {
  import opened Catalog
  import opened Lists

  /** The keys of `player_data`, as fields. */
  datatype Player = Player(
    name: string,
    motivation: int,
    awsKnowledge: int,
    concentration: int,
    level: int,
    items: seq<string>,
    skills: seq<string>,
    completedTrials: seq<string>)

  /** The keys of `player_data` whose values are integers. */
  const NumericStats: set<string> := {"motivation", "aws_knowledge", "concentration", "level"}

  /** The keys whose values are a string or a list: adding an integer to them raises `TypeError`. */
  const TextOrListKeys: set<string> := {"name", "items", "skills", "completed_trials"}

  /** The record a new session starts with, and the one both resets build. */
  function InitialPlayer(name: string): (p: Player)
    ensures p.name == name && Valid(p) && p.level == 1 + p.awsKnowledge / 100
    ensures p.items == [] && p.skills == [StartingSkill] && p.completedTrials == []
  {
    Player(name, InitialMotivation, InitialAwsKnowledge, InitialConcentration, 1, [], [StartingSkill], [])
  }

  /** What every operation keeps true: no stat is negative and the skill and trial lists hold no duplicates. */
  predicate Valid(p: Player)
  {
    && p.motivation >= 0 && p.awsKnowledge >= 0 && p.concentration >= 0 && p.level >= 0
    && NoDuplicates(p.skills) && NoDuplicates(p.completedTrials)
  }

  /** The value stored under a numeric key. */
  function Stat(p: Player, stat: string): int
    requires stat in NumericStats
  {
    match stat
    case "motivation" => p.motivation
    case "aws_knowledge" => p.awsKnowledge
    case "concentration" => p.concentration
    case _ => p.level
  }

  /** The record with the value under a numeric key replaced. */
  function WithStat(p: Player, stat: string, v: int): (r: Player)
    requires stat in NumericStats
    ensures Stat(r, stat) == v
    ensures forall s :: s in NumericStats && s != stat ==> Stat(r, s) == Stat(p, s)
    ensures r.name == p.name && r.items == p.items && r.skills == p.skills && r.completedTrials == p.completedTrials
  {
    match stat
    case "motivation" => p.(motivation := v)
    case "aws_knowledge" => p.(awsKnowledge := v)
    case "concentration" => p.(concentration := v)
    case _ => p.(level := v)
  }

  /**
   * `update_player_stat(stat, value)`: the new record and whether the player
   * levelled up. A numeric stat gains `delta` and is floored at 0; a gain of
   * AWS knowledge may raise the level to `1 + knowledge // 100` and never
   * lowers it; an unknown key changes nothing.
   */
  function UpdateStat(p: Player, stat: string, delta: int): (r: (Player, bool))
    requires stat !in TextOrListKeys
    ensures stat !in NumericStats ==> r == (p, false)
    ensures stat in NumericStats ==>
              Stat(r.0, stat) == (if Stat(p, stat) + delta < 0 then 0 else Stat(p, stat) + delta)
    ensures stat == "aws_knowledge" ==>
              var target := 1 + r.0.awsKnowledge / 100;
              r.0.level == (if target > p.level then target else p.level) && (r.1 <==> r.0.level > p.level)
    ensures stat != "aws_knowledge" ==> !r.1
    ensures stat != "aws_knowledge" && stat != "level" ==> r.0.level == p.level
    ensures forall s :: s in NumericStats && s != stat && s != "level" ==> Stat(r.0, s) == Stat(p, s)
    ensures r.0.name == p.name && r.0.items == p.items
    ensures r.0.skills == p.skills && r.0.completedTrials == p.completedTrials
  {
    if stat !in NumericStats then (p, false)
    else
      var v := Stat(p, stat) + delta;
      var q := WithStat(p, stat, if v < 0 then 0 else v);
      if stat == "aws_knowledge" && 1 + q.awsKnowledge / 100 > q.level then
        (q.(level := 1 + q.awsKnowledge / 100), true)
      else
        (q, false)
  }

  /** `is_game_over()`: the player has no motivation left. */
  predicate IsGameOver(p: Player)
  {
    p.motivation <= 0
  }

  /** `is_game_completed()`: every guardian of the catalog is among the completed trials. */
  predicate IsGameCompleted(p: Player)
  {
    forall i :: 0 <= i < |Guardians| ==> Guardians[i].name in p.completedTrials
  }

  /** Every completed trial names a guardian of the catalog. */
  predicate TrialsAreGuardians(p: Player)
  {
    forall t :: t in p.completedTrials ==> t in GuardianNameList()
  }

  /** The initial record is valid, not over, not completed, and its level matches its knowledge. */
  lemma InitialPlayerFacts(name: string)
    ensures Valid(InitialPlayer(name)) && TrialsAreGuardians(InitialPlayer(name))
    ensures !IsGameOver(InitialPlayer(name)) && !IsGameCompleted(InitialPlayer(name))
    ensures InitialPlayer(name).level == 1 + InitialPlayer(name).awsKnowledge / 100
  {
    assert Guardians[0].name !in InitialPlayer(name).completedTrials;
  }

  /** A stat update keeps the record valid: nothing becomes negative. */
  lemma UpdateStatKeepsValid(p: Player, stat: string, delta: int)
    requires Valid(p) && stat !in TextOrListKeys
    ensures Valid(UpdateStat(p, stat, delta).0)
  {
  }

  /** When the level matches the knowledge, a gain of knowledge keeps it matching. */
  lemma KnowledgeGainKeepsLevelInStep(p: Player, delta: int)
    requires p.awsKnowledge >= 0 && delta >= 0 && p.level == 1 + p.awsKnowledge / 100
    ensures var q := UpdateStat(p, "aws_knowledge", delta).0;
            q.level == 1 + q.awsKnowledge / 100
  {
    var q := UpdateStat(p, "aws_knowledge", delta).0;
    assert q.awsKnowledge == p.awsKnowledge + delta;
  }

  /** A run of stat updates, as the game issues them one after another. */
  function ApplyUpdates(p: Player, updates: seq<(string, int)>): Player
    requires forall k :: 0 <= k < |updates| ==> updates[k].0 !in TextOrListKeys
    decreases |updates|
  {
    if updates == [] then p
    else ApplyUpdates(UpdateStat(p, updates[0].0, updates[0].1).0, updates[1..])
  }

  /**
   * Over any run of updates that does not write the level directly, no stat
   * is ever negative afterwards and the level never goes down.
   */
  lemma {:induction false} UpdatesKeepStatsAndLevel(p: Player, updates: seq<(string, int)>)
    requires Valid(p)
    requires forall k :: 0 <= k < |updates| ==> updates[k].0 !in TextOrListKeys && updates[k].0 != "level"
    ensures Valid(ApplyUpdates(p, updates))
    ensures ApplyUpdates(p, updates).level >= p.level
    decreases |updates|
  {
    if updates != [] {
      var q := UpdateStat(p, updates[0].0, updates[0].1).0;
      UpdatesKeepStatsAndLevel(q, updates[1..]);
    }
  }

  /** The game is completed exactly when all guardian names are among the completed trials. */
  lemma CompletedIffAllNames(p: Player)
    ensures IsGameCompleted(p) <==> Elements(GuardianNameList()) <= Elements(p.completedTrials)
  {
    if Elements(GuardianNameList()) <= Elements(p.completedTrials) {
      forall i | 0 <= i < |Guardians| ensures Guardians[i].name in p.completedTrials {
        assert GuardianNameList()[i] in Elements(GuardianNameList());
      }
    }
  }

  /**
   * With a duplicate-free trial list made of guardian names, the game is
   * completed exactly when seven trials are recorded.
   */
  lemma CompletedIffSevenTrials(p: Player)
    requires NoDuplicates(p.completedTrials) && TrialsAreGuardians(p)
    ensures IsGameCompleted(p) <==> |p.completedTrials| == 7
  {
    var names := Elements(GuardianNameList());
    var done := Elements(p.completedTrials);
    GuardianNamesDistinct();
    NoDuplicatesCardinality(p.completedTrials);
    CompletedIffAllNames(p);
    assert done <= names;
    if IsGameCompleted(p) {
      assert done == names;
    }
    if |p.completedTrials| == 7 {
      SubsetOfEqualSize(done, names);
    }
  }

  lemma SubsetOfEqualSize<T>(a: set<T>, b: set<T>)
    requires a <= b && |a| == |b|
    ensures b <= a
  {
    if !(b <= a) {
      var x :| x in b && x !in a;
      SubsetCardinality(a, b - {x});
    }
  }

  lemma SubsetCardinality<T>(a: set<T>, c: set<T>)
    requires a <= c
    ensures |a| <= |c|
  {
    assert c == a + (c - a);
  }
}
