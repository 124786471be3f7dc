/**
 * The game's content tables: the seven map areas, the seven guardians that
 * live in them, the items the player can find and the skills. All of it is
 * read-only data; the lookups are the first-match searches the scenes do
 * with `next(...)` over these lists.
 */
module Catalog {
  import opened Wrappers
  import Lists

  datatype Guardian = Guardian(
    name: string,
    service: string,
    description: string,
    hp: nat,
    attackPatterns: seq<string>,
    weakness: string,
    area: string)

  /**
   * One entry of an item's effect table. `damage_reduction` carries a
   * fraction instead of a stat delta, so it is a constructor of its own.
   */
  datatype Effect = Gain(stat: string, amount: int) | DamageReduction(fraction: real)

  datatype Item = Item(name: string, description: string, effects: seq<Effect>)

  datatype Skill = Skill(name: string, levelRequired: nat, description: string, power: nat)

  const InitialMotivation: int := 100
  const InitialAwsKnowledge: int := 0
  const InitialConcentration: int := 100

  /** The skill every player starts with. */
  const StartingSkill: string := "基本コマンド"

  const Areas: seq<string> := [
    "S3湿地帯",
    "EC2迷いの森",
    "Lambda峡谷",
    "DynamoDB砂漠",
    "CloudFront山脈",
    "IAM神殿",
    "SQS川"
  ]

  const Guardians: seq<Guardian> := [
    Guardian("S3守護者", "Amazon S3", "データを安全に保管する巨大なバケツを持つ守護者", 100,
             ["データ洪水", "バケット投げ", "アクセス拒否"], "データ整理", "S3湿地帯"),
    Guardian("EC2守護者", "Amazon EC2", "様々な姿に変身できる計算の守護者", 120,
             ["インスタンス増殖", "リソース枯渇", "再起動攻撃"], "オートスケーリング", "EC2迷いの森"),
    Guardian("Lambda守護者", "AWS Lambda", "瞬時に現れては消える謎の守護者", 80,
             ["コールドスタート", "タイムアウト", "メモリ不足"], "関数最適化", "Lambda峡谷"),
    Guardian("DynamoDB守護者", "Amazon DynamoDB", "無限のテーブルを操る砂漠の守護者", 110,
             ["キー攻撃", "スロットリング", "容量不足"], "インデックス設計", "DynamoDB砂漠"),
    Guardian("CloudFront守護者", "Amazon CloudFront", "世界中に分身を持つ配信の守護者", 90,
             ["キャッシュ混乱", "エッジロケーション攻撃", "無効化"], "キャッシュ戦略", "CloudFront山脈"),
    Guardian("IAM守護者", "AWS IAM", "鍵と権限を司る厳格な守護者", 100,
             ["アクセス拒否", "権限剥奪", "ポリシー混乱"], "最小権限の原則", "IAM神殿"),
    Guardian("SQS守護者", "Amazon SQS", "メッセージを操る川の守護者", 85,
             ["メッセージ洪水", "配信遅延", "可視性タイムアウト"], "キュー管理", "SQS川")
  ]

  const Items: seq<Item> := [
    Item("AWS ドキュメント", "AWS知識を10回復する", [Gain("aws_knowledge", 10)]),
    Item("クラウドコーヒー", "集中力を20回復する", [Gain("concentration", 20)]),
    Item("モチベーションクッキー", "やる気を15回復する", [Gain("motivation", 15)]),
    Item("アーキテクチャ図", "次の試練でのダメージを半減する", [DamageReduction(0.5)]),
    Item("クラウドエッセンス", "全てのステータスを少し回復する",
         [Gain("motivation", 10), Gain("aws_knowledge", 5), Gain("concentration", 10)])
  ]

  const Skills: seq<Skill> := [
    Skill("基本コマンド", 1, "基本的なAWSコマンドを使用する", 10),
    Skill("リソース最適化", 3, "AWSリソースを最適化して攻撃する", 20),
    Skill("クラウドアーキテクト", 5, "高度なアーキテクチャ知識で攻撃する", 30),
    Skill("サーバーレスマスター", 7, "サーバーレスの力を解き放つ", 40),
    Skill("クラウドネイティブ", 10, "クラウドの真髄を理解した究極の技", 50)
  ]

  /**
   * The lookups below are Python's `next((x for x in table if ...), None)`:
   * the first entry that matches, or None.
   */

  /** The position of the first guardian of `table` whose home is `area`. */
  function AreaIndex(table: seq<Guardian>, area: string): (r: Option<nat>)
    ensures r.Some? ==> r.value < |table| && table[r.value].area == area
    ensures r.Some? ==> forall j :: 0 <= j < r.value ==> table[j].area != area
    ensures r.None? ==> forall j :: 0 <= j < |table| ==> table[j].area != area
  {
    if table == [] then None
    else if table[0].area == area then Some(0)
    else
      match AreaIndex(table[1..], area)
      case None => None
      case Some(k) => Some(k + 1)
  }

  /** The index of the guardian whose home is `area`, as the map scene looks it up. */
  function GuardianOfArea(area: string): (r: Option<nat>)
    ensures r.Some? ==> r.value < |Guardians| && Guardians[r.value].area == area
    ensures r.None? ==> forall j :: 0 <= j < |Guardians| ==> Guardians[j].area != area
  {
    AreaIndex(Guardians, area)
  }

  /** The first skill of `table` called `name`. */
  function SkillNamed(table: seq<Skill>, name: string): (r: Option<Skill>)
    ensures r.Some? ==> r.value in table && r.value.name == name
    ensures r.Some? && table != [] && table[0].name == name ==> r.value == table[0]
    ensures r.None? ==> forall j :: 0 <= j < |table| ==> table[j].name != name
  {
    if table == [] then None
    else if table[0].name == name then Some(table[0])
    else SkillNamed(table[1..], name)
  }

  /** The skill of the catalog called `name`, or None. */
  function FindSkill(name: string): (r: Option<Skill>)
    ensures r.Some? ==> r.value in Skills && r.value.name == name
    ensures r.None? ==> forall j :: 0 <= j < |Skills| ==> Skills[j].name != name
  {
    SkillNamed(Skills, name)
  }

  /**
   * The first item of `table` called `name`. The same first-match search as
   * `SkillNamed`, over the item records: the two tables hold different
   * record types, and a search generic over a name projection costs far
   * more to verify on these literal tables than the two direct recursions.
   */
  function ItemNamed(table: seq<Item>, name: string): (r: Option<Item>)
    ensures r.Some? ==> r.value in table && r.value.name == name
    ensures r.Some? && table != [] && table[0].name == name ==> r.value == table[0]
    ensures r.None? ==> forall j :: 0 <= j < |table| ==> table[j].name != name
  {
    if table == [] then None
    else if table[0].name == name then Some(table[0])
    else ItemNamed(table[1..], name)
  }

  /** The item of the catalog called `name`, or None. */
  function FindItem(name: string): (r: Option<Item>)
    ensures r.Some? ==> r.value in Items && r.value.name == name
    ensures r.None? ==> forall j :: 0 <= j < |Items| ==> Items[j].name != name
  {
    ItemNamed(Items, name)
  }

  /** The guardian names in catalog order. */
  function GuardianNameList(): (names: seq<string>)
    ensures |names| == |Guardians|
    ensures forall i :: 0 <= i < |Guardians| ==> names[i] == Guardians[i].name
  {
    seq(|Guardians|, i requires 0 <= i < |Guardians| => Guardians[i].name)
  }

  /** The name of a guardian of the catalog is among the guardian names. */
  lemma GuardianNameListed(g: Guardian)
    requires g in Guardians
    ensures g.name in GuardianNameList()
  {
    var j :| 0 <= j < |Guardians| && Guardians[j] == g;
    assert GuardianNameList()[j] == g.name;
  }

  /** Seven areas and seven guardians; every guardian lives in a listed area and every area has exactly one guardian. */
  lemma AreasAndGuardiansCorrespond()
    ensures |Areas| == 7 && |Guardians| == 7
    ensures forall i :: 0 <= i < |Guardians| ==> Guardians[i].area in Areas
    ensures forall i :: 0 <= i < |Areas| ==> Guardians[i].area == Areas[i]
    ensures forall i, j :: 0 <= i < j < |Guardians| ==> Guardians[i].area != Guardians[j].area
  {
  }

  /** Every area of the map finds its guardian, the one listed at the same position. */
  lemma GuardianOfEveryArea(i: nat)
    requires i < |Areas|
    ensures GuardianOfArea(Areas[i]) == Some(i)
  {
    AreasAndGuardiansCorrespond();
  }

  /** Guardian names are pairwise distinct, so there are exactly seven trials to complete. */
  lemma GuardianNamesDistinct()
    ensures Lists.NoDuplicates(GuardianNameList())
    ensures |Lists.Elements(GuardianNameList())| == 7
  {
    Lists.NoDuplicatesCardinality(GuardianNameList());
  }

  /** Every guardian has at least one attack pattern to choose from. */
  lemma AttackPatternsNonEmpty()
    ensures forall i :: 0 <= i < |Guardians| ==> |Guardians[i].attackPatterns| > 0
  {
  }

  /** The starting skill is in the catalog, with power 10. */
  lemma StartingSkillKnown()
    ensures FindSkill(StartingSkill) == Some(Skills[0])
    ensures Skills[0].power == 10
  {
  }

  /** The stats an item may raise. */
  const ItemStats: set<string> := {"motivation", "concentration", "aws_knowledge"}

  /** Item effects name only the three player stats or `damage_reduction`, and every delta is positive. */
  lemma ItemEffectsArePositiveGains()
    ensures forall i, k :: 0 <= i < |Items| && 0 <= k < |Items[i].effects| && Items[i].effects[k].Gain? ==>
              Items[i].effects[k].stat in ItemStats && Items[i].effects[k].amount > 0
  {
  }

  /** Every skill of the catalog has positive power. */
  lemma SkillPowersPositive()
    ensures forall i :: 0 <= i < |Skills| ==> Skills[i].power >= 10
  {
  }
}
