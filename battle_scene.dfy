/**
 * A battle against one guardian: the state machine that goes from the
 * introduction through the player's turns (attack with a skill and a typed
 * AWS command, use an item, or try to run) and the guardian's
 * counter-attacks to the result, which it hands to the result screen.
 */
module Battle {
  import opened Wrappers
  import opened Events
  import opened Text
  import opened Lists
  import opened Catalog
  import opened PlayerProgress
  import opened SceneManagement
  import opened TextInputs
  import opened BattleRules

  datatype BattleState = Intro | PlayerTurn | SkillSelect | ItemSelect | CommandInput | GuardianTurn | Result

  /** The three actions of the player's turn. */
  datatype Action = Attack | UseItemAction | Run

  /** The battle message, by what it reports; the screen renders each as its Japanese sentence. */
  datatype Message =
    | Appeared                                   // the guardian appears
    | WhatToDo                                   // "what will you do?"
    | WhichSkill
    | WhichItem
    | NoItems
    | Escaped
    | EscapeFailed
    | UseSkill(skill: string)                    // type a command for this skill
    | SkillUnavailable
    | Hit(damage: int, critical: bool)
    | GuardianDefeated
    | ItemUnavailable
    | NextDamageHalved(item: string)             // the damage-reduction effect's message
    | Recovered(item: string, stat: string, amount: int)
    | GuardianAttack(attack: string, damage: int)
    | MotivationGone

  /** What a click lands on. Buttons that are not drawn in the current state are not consulted. */
  datatype BattleHit =
    | AttackButton | ItemButton | RunButton      // the player's turn
    | SkillButton(i: nat)                        // the i-th skill button
    | ItemChoiceButton(i: nat)                   // the i-th item button
    | BackButton
    | SubmitButton
    | CommandBox
    | Nowhere

  /** The action a button of the player's turn selects. */
  function ActionOf(hit: BattleHit): Option<Action>
  {
    match hit
    case AttackButton => Some(Attack)
    case ItemButton => Some(UseItemAction)
    case RunButton => Some(Run)
    case _ => None
  }

  /** The random draws one event may consume: the escape, the critical, the attack pattern and the counter-attack damage. */
  datatype Draws = Draws(escapes: bool, critical: bool, attack: nat, damage: int)

  /** Draws in the ranges the random generator produces for guardian `g`. */
  predicate DrawsFor(g: Guardian, d: Draws)
  {
    d.attack < |g.attackPatterns| && MinCounterDamage <= d.damage <= MaxCounterDamage
  }

  /** The message an item effect leaves. */
  function EffectMessage(item: string, e: Effect): Message
  {
    match e
    case Gain(stat, amount) => Recovered(item, stat, amount)
    case DamageReduction(_) => NextDamageHalved(item)
  }

  /** The event as the command box sees it: a click is inside it or not. */
  function ForCommandBox(e: Input<BattleHit>): (b: Input<bool>)
    ensures e.Click? <==> b.Click?
    ensures e.Click? ==> (b.hit <==> e.hit == CommandBox)
    ensures e.KeyDown? <==> b.KeyDown?
    ensures e.KeyDown? ==> b.key == e.key
  {
    match e
    case Click(h) => Click(h == CommandBox)
    case KeyDown(k) => KeyDown(k)
    case Motion => Motion
    case OtherInput => OtherInput
  }

  /**
   * The skill `submit_command` looks up for the selected name: a catalog
   * skill of exactly that name, and nothing when no name is selected or no
   * skill of the catalog has it.
   */
  function SkillOf(selected: Option<string>): (r: Option<Skill>)
    ensures r.Some? ==> selected.Some? && r.value in Skills && r.value.name == selected.value
    ensures r.None? && selected.Some? ==> forall j :: 0 <= j < |Skills| ==> Skills[j].name != selected.value
    ensures selected.Some? ==> r == FindSkill(selected.value)
  {
    if selected.Some? then FindSkill(selected.value) else None
  }

  class BattleScene {
    const sm: SceneManager
    const guardian: Guardian
    const maxGuardianHp: int
    const commandInput: TextInput
    var guardianHp: int
    var state: BattleState
    var selectedAction: Option<string>
    var message: Message
    var animationTimer: int
    var skillChoices: seq<string>
    var itemChoices: seq<string>

    /**
     * The battle's invariant: the guardian's hit points stay between 0 and
     * its maximum, the command box holds 50 characters, there are at most
     * three choice buttons, and the player record is valid.
     */
    predicate Valid()
      reads this, sm, commandInput
    {
      && guardian in Guardians && maxGuardianHp == guardian.hp
      && 0 <= guardianHp <= maxGuardianHp
      && commandInput.Valid() && commandInput.maxLength == CommandMaxLength
      && |skillChoices| <= MaxChoiceButtons && |itemChoices| <= MaxChoiceButtons
      && sm.Valid()
    }

    /** A battle opens in its introduction with the guardian at full strength. */
    constructor (sm: SceneManager, guardian: Guardian)
      requires sm.Valid() && guardian in Guardians
      ensures this.sm == sm && this.guardian == guardian && fresh(commandInput)
      ensures guardianHp == maxGuardianHp == guardian.hp
      ensures state == Intro && selectedAction == None && message == Appeared && animationTimer == 0
      ensures skillChoices == Choices(sm.player.skills) && itemChoices == Choices(sm.player.items)
      ensures commandInput.text == "" && !commandInput.active
      ensures Valid()
    {
      this.sm := sm;
      this.guardian := guardian;
      guardianHp := guardian.hp;
      maxGuardianHp := guardian.hp;
      state := Intro;
      selectedAction := None;
      message := Appeared;
      animationTimer := 0;
      commandInput := new TextInput(CommandMaxLength);
      skillChoices := Choices(sm.player.skills);
      itemChoices := Choices(sm.player.items);
    }

    /**
     * `handle_event`, state by state. The introduction and the result
     * react to any click or key; the player's turn, the skill list and the
     * item list only to clicks on their buttons; the command state passes
     * every event to the command box first and submits on a click on the
     * submit button or on Enter; the guardian's turn runs the
     * counter-attack on any click or key.
     */
    method HandleEvent(e: Input<BattleHit>, draws: Draws, now: int)
      requires Valid() && DrawsFor(guardian, draws)
      modifies this, sm, commandInput
      ensures Valid()
      ensures old(state) == Intro && (e.Click? || e.KeyDown?) ==>
                state == PlayerTurn && message == WhatToDo && sm.player == old(sm.player)
      ensures old(state) == GuardianTurn && (e.Click? || e.KeyDown?) ==>
                Countered(old(sm.player), draws.attack, draws.damage, old(animationTimer), now)
      ensures old(state) == Result && (e.Click? || e.KeyDown?) ==>
                sm.current == Some(BattleResult(guardian, ClassifyOutcome(old(guardianHp), old(sm.player)))) &&
                sm.player == old(sm.player) && state == Result
      ensures !e.Click? && !e.KeyDown? ==>
                state == old(state) && sm.player == old(sm.player) && guardianHp == old(guardianHp) &&
                sm.current == old(sm.current) && message == old(message)
      ensures old(state) != CommandInput ==> guardianHp == old(guardianHp)
      ensures old(state) in {Intro, GuardianTurn, Result} ==>
                skillChoices == old(skillChoices) && itemChoices == old(itemChoices) &&
                selectedAction == old(selectedAction)
      ensures old(state) == Intro ==> animationTimer == old(animationTimer)
      ensures old(state) == PlayerTurn ==> selectedAction == old(selectedAction)
      ensures old(state) == SkillSelect ==>
                animationTimer == old(animationTimer) && skillChoices == old(skillChoices) && itemChoices == old(itemChoices)
      ensures old(state) == Result ==> message == old(message) && animationTimer == old(animationTimer)
      ensures old(state) in {PlayerTurn, SkillSelect, ItemSelect} && !e.Click? ==>
                state == old(state) && sm.player == old(sm.player)
      ensures old(state) == PlayerTurn && e.Click? ==>
                PlayerTurnClicked(e.hit, draws.escapes, now, old(skillChoices), old(itemChoices), old(animationTimer), old(message)) &&
                sm.player == old(sm.player)
      ensures old(state) == SkillSelect && e.Click? ==>
                SkillSelectClicked(e.hit, old(skillChoices), old(commandInput.text), old(message)) && sm.player == old(sm.player)
      ensures old(state) == ItemSelect && e.Click? ==>
                ItemSelectClicked(e.hit, old(itemChoices), old(sm.player), old(animationTimer), old(message), now)
      ensures old(state) == CommandInput ==>
                CommandInputHandled(e, old(selectedAction), old(guardianHp), old(sm.player), old(message),
                                    old(animationTimer), old(commandInput.text), old(commandInput.active), draws.critical, now)
      ensures guardianHp <= old(guardianHp)
      ensures sm.current != old(sm.current) ==> old(state) == Result
    {
      match state {
        case Intro =>
          if e.Click? || e.KeyDown? {
            state := PlayerTurn;
            message := WhatToDo;
          }
        case PlayerTurn =>
          if e.Click? {
            ClickInPlayerTurn(e.hit, draws.escapes, now);
          }
        case SkillSelect =>
          if e.Click? {
            ClickInSkillSelect(e.hit);
          }
        case ItemSelect =>
          if e.Click? {
            ClickInItemSelect(e.hit, now);
          }
        case CommandInput =>
          EventInCommandInput(e, draws.critical, now);
        case GuardianTurn =>
          if e.Click? || e.KeyDown? {
            ProcessGuardianAttack(draws.attack, draws.damage, now);
          }
        case Result =>
          if e.Click? || e.KeyDown? {
            ShowResult();
          }
      }
    }

    /**
     * A click on `hit` in the player's turn, from the choice lists `skills`
     * and `items`, the timer `timer` and the message `msg`: the attack, item
     * and run buttons select their action; anywhere else nothing happens.
     */
    ghost predicate PlayerTurnClicked(hit: BattleHit, escapes: bool, now: int, skills: seq<string>, items: seq<string>,
                                      timer: int, msg: Message)
      reads this, sm
    {
      match ActionOf(hit)
      case Some(action) => ActionSelected(action, escapes, now, skills, items, timer)
      case None => state == PlayerTurn && message == msg
    }

    /** `handle_event` on a click in the player's turn. */
    method ClickInPlayerTurn(hit: BattleHit, escapes: bool, now: int)
      requires Valid() && state == PlayerTurn
      modifies this
      ensures Valid()
      ensures PlayerTurnClicked(hit, escapes, now, old(skillChoices), old(itemChoices), old(animationTimer), old(message))
      ensures guardianHp == old(guardianHp) && selectedAction == old(selectedAction)
    {
      match ActionOf(hit) {
        case Some(action) => SelectAction(action, escapes, now);
        case None =>
      }
    }

    /**
     * A click on `hit` in the skill list `skills`, from the box text `text`
     * and the message `msg`: skill button `i` selects the i-th listed skill,
     * the back button goes back, anywhere else nothing happens.
     */
    ghost predicate SkillSelectClicked(hit: BattleHit, skills: seq<string>, text: string, msg: Message)
      reads this, commandInput
    {
      && (hit.SkillButton? && hit.i < |skills| ==> SkillSelected(skills[hit.i], text))
      && (hit == BackButton ==> state == PlayerTurn && message == WhatToDo)
      && (!(hit.SkillButton? && hit.i < |skills|) && hit != BackButton ==> state == SkillSelect && message == msg)
    }

    /** `handle_event` on a click in the skill list. */
    method ClickInSkillSelect(hit: BattleHit)
      requires Valid() && state == SkillSelect
      modifies this, commandInput
      ensures Valid()
      ensures SkillSelectClicked(hit, old(skillChoices), old(commandInput.text), old(message))
      ensures guardianHp == old(guardianHp) && animationTimer == old(animationTimer)
      ensures skillChoices == old(skillChoices) && itemChoices == old(itemChoices)
    {
      match hit {
        case SkillButton(i) =>
          if i < |skillChoices| {
            SelectSkill(skillChoices[i]);
          }
        case BackButton => GoBack();
        case _ =>
      }
    }

    /**
     * A click on `hit` in the item list `items`, from the record `p`, the
     * timer `timer` and the message `msg`: item button `i` uses the i-th
     * listed item, the back button goes back, anywhere else nothing happens.
     */
    ghost predicate ItemSelectClicked(hit: BattleHit, items: seq<string>, p: Player, timer: int, msg: Message, now: int)
      reads this, sm
    {
      && (hit.ItemChoiceButton? && hit.i < |items| ==> ItemChosen(items[hit.i], p, timer, now))
      && (hit == BackButton ==> state == PlayerTurn && message == WhatToDo && sm.player == p)
      && (!(hit.ItemChoiceButton? && hit.i < |items|) && hit != BackButton ==>
            state == ItemSelect && message == msg && sm.player == p)
    }

    /** `handle_event` on a click in the item list. */
    method ClickInItemSelect(hit: BattleHit, now: int)
      requires Valid() && state == ItemSelect
      modifies this, sm
      ensures Valid()
      ensures ItemSelectClicked(hit, old(itemChoices), old(sm.player), old(animationTimer), old(message), now)
      ensures guardianHp == old(guardianHp) && sm.current == old(sm.current)
    {
      match hit {
        case ItemChoiceButton(i) =>
          if i < |itemChoices| {
            UseItem(itemChoices[i], now);
          }
        case BackButton => GoBack();
        case _ =>
      }
    }

    /**
     * The event `e` in the command state, from the selection `action`, `hp`
     * hit points, the record `p`, the message `msg`, the timer `timer` and
     * the box's text `text` and focus `active`. The box sees the event
     * first and keeps its text on a click and on Enter; then a click on the
     * submit button or Enter submits that text, a click on the back button
     * goes back, and any other event leaves the battle in the command state
     * with the box's own reaction: a click sets its focus, a key edits a
     * focused box.
     */
    ghost predicate CommandInputHandled(e: Input<BattleHit>, action: Option<string>, hp: int, p: Player, msg: Message,
                                        timer: int, text: string, active: bool, critical: bool, now: int)
      reads this, sm, commandInput
    {
      && (e == Click(SubmitButton) || e == KeyDown(Return) ==>
            CommandSubmitted(text, action, CommandInput, hp, p, msg, timer, critical, now) &&
            commandInput.text == text && !commandInput.active)
      && (e == Click(BackButton) ==>
            state == PlayerTurn && message == WhatToDo && sm.player == p && guardianHp == hp &&
            commandInput.text == text && !commandInput.active)
      && (e != Click(SubmitButton) && e != KeyDown(Return) && e != Click(BackButton) ==>
            && state == CommandInput && message == msg && sm.player == p && guardianHp == hp
            && (e.Click? ==> commandInput.active == (e.hit == CommandBox) && commandInput.text == text)
            && (e.KeyDown? && active ==> commandInput.text == KeyText(text, e.key, CommandMaxLength))
            && (!e.Click? && !(e.KeyDown? && active) ==> commandInput.text == text)
            && (!e.Click? ==> commandInput.active == active))
    }

    /** `handle_event` in the command state. */
    method EventInCommandInput(e: Input<BattleHit>, critical: bool, now: int)
      requires Valid() && state == CommandInput
      modifies this, sm, commandInput
      ensures Valid()
      ensures CommandInputHandled(e, old(selectedAction), old(guardianHp), old(sm.player), old(message),
                                  old(animationTimer), old(commandInput.text), old(commandInput.active), critical, now)
      ensures guardianHp <= old(guardianHp) && sm.current == old(sm.current)
    {
      commandInput.HandleEvent(ForCommandBox(e));
      if e.Click? {
        if e.hit == SubmitButton {
          SubmitCommand(critical, now);
        } else if e.hit == BackButton {
          GoBack();
        }
      } else if e.KeyDown? && e.key == Return {
        SubmitCommand(critical, now);
      }
    }

    /**
     * `update` at time `now`: the command box blinks in the command state;
     * once the delay has passed, the guardian's turn gives the turn back to
     * the player WITHOUT a counter-attack, and the result is shown.
     */
    method Update(now: int)
      requires Valid()
      modifies this, sm, commandInput
      ensures Valid()
      ensures sm.player == old(sm.player) && guardianHp == old(guardianHp)
      ensures commandInput.text == old(commandInput.text)
      ensures animationTimer == old(animationTimer) && selectedAction == old(selectedAction)
      ensures skillChoices == old(skillChoices) && itemChoices == old(itemChoices)
      ensures commandInput.active == old(commandInput.active)
      ensures old(state) == CommandInput ==>
                (commandInput.cursorVisible, commandInput.cursorTimer) ==
                Blink(old(commandInput.cursorVisible), old(commandInput.cursorTimer), now)
      ensures old(state) != CommandInput ==>
                commandInput.cursorVisible == old(commandInput.cursorVisible) &&
                commandInput.cursorTimer == old(commandInput.cursorTimer)
      ensures old(state) == GuardianTurn && now - old(animationTimer) > AnimationDelay ==>
                state == PlayerTurn && message == WhatToDo && sm.current == old(sm.current)
      ensures old(state) == Result && now - old(animationTimer) > AnimationDelay ==>
                sm.current == Some(BattleResult(guardian, ClassifyOutcome(guardianHp, sm.player))) &&
                state == Result && message == old(message)
      ensures !(old(state) in {GuardianTurn, Result} && now - old(animationTimer) > AnimationDelay) ==>
                state == old(state) && message == old(message) && sm.current == old(sm.current)
    {
      if state == CommandInput {
        commandInput.Update(now);
      }
      if state == GuardianTurn || state == Result {
        if now - animationTimer > AnimationDelay {
          if state == GuardianTurn {
            state := PlayerTurn;
            message := WhatToDo;
          } else {
            ShowResult();
          }
        }
      }
    }

    /**
     * `select_action`. Attack opens the skill list; item opens the item
     * list, or stays in the player's turn when the inventory is empty; run
     * ends the battle on a successful draw and gives the guardian its turn
     * otherwise. The record is not touched.
     */
    method SelectAction(action: Action, escapes: bool, now: int)
      requires Valid()
      modifies this
      ensures Valid()
      ensures ActionSelected(action, escapes, now, old(skillChoices), old(itemChoices), old(animationTimer))
      ensures guardianHp == old(guardianHp) && selectedAction == old(selectedAction)
    {
      match action {
        case Attack =>
          state := SkillSelect;
          message := WhichSkill;
          skillChoices := Choices(sm.player.skills);
        case UseItemAction =>
          state := ItemSelect;
          message := WhichItem;
          itemChoices := Choices(sm.player.items);
          if sm.player.items == [] {
            message := NoItems;
            state := PlayerTurn;
          }
        case Run =>
          if escapes {
            message := Escaped;
            state := Result;
            animationTimer := now;
          } else {
            message := EscapeFailed;
            state := GuardianTurn;
            animationTimer := now;
          }
      }
    }

    /**
     * The battle after `select_action(action)` with the escape draw
     * `escapes`, from the choice lists `skills` and `items` and the timer
     * `timer`. Attack lists the first three skills of the record; item lists
     * the first three items and, with an empty inventory, stays in the
     * player's turn; run ends the battle or gives the guardian its turn, and
     * restarts the timer. Lists and timer not named here keep their values.
     */
    ghost predicate ActionSelected(action: Action, escapes: bool, now: int, skills: seq<string>, items: seq<string>, timer: int)
      reads this, sm
    {
      match action
      case Attack =>
        && state == SkillSelect && message == WhichSkill
        && skillChoices == Choices(sm.player.skills) && itemChoices == items && animationTimer == timer
      case UseItemAction =>
        && skillChoices == skills && itemChoices == Choices(sm.player.items) && animationTimer == timer
        && (sm.player.items != [] ==> state == ItemSelect && message == WhichItem)
        && (sm.player.items == [] ==> state == PlayerTurn && message == NoItems && itemChoices == [])
      case Run =>
        && state == (if escapes then Result else GuardianTurn)
        && message == (if escapes then Escaped else EscapeFailed) && animationTimer == now
        && skillChoices == skills && itemChoices == items
    }

    /**
     * `select_skill`: a skill of the catalog opens an empty command box for
     * it; any other name goes back to the player's turn. The level a skill
     * requires is not checked.
     */
    method SelectSkill(name: string)
      requires Valid()
      modifies this, commandInput
      ensures Valid()
      ensures SkillSelected(name, old(commandInput.text))
      ensures commandInput.active == old(commandInput.active)
      ensures guardianHp == old(guardianHp) && animationTimer == old(animationTimer)
      ensures skillChoices == old(skillChoices) && itemChoices == old(itemChoices)
    {
      selectedAction := Some(name);
      match FindSkill(name) {
        case Some(_) =>
          state := CommandInput;
          message := UseSkill(name);
          commandInput.Clear();
        case None =>
          message := SkillUnavailable;
          state := PlayerTurn;
      }
    }

    /**
     * The battle after `select_skill(name)` from the box text `text`: the
     * name is selected; a catalog skill opens an empty command box, any
     * other name goes back to the player's turn with the text kept.
     */
    ghost predicate SkillSelected(name: string, text: string)
      reads this, commandInput
    {
      && selectedAction == Some(name)
      && (FindSkill(name).Some? ==> state == CommandInput && message == UseSkill(name) && commandInput.text == "")
      && (FindSkill(name).None? ==> state == PlayerTurn && message == SkillUnavailable && commandInput.text == text)
    }

    /** The skill `submit_command` looks up: the selected one, when it is in the catalog. */
    function SelectedSkill(): Option<Skill>
      reads this
    {
      SkillOf(selectedAction)
    }

    /**
     * `submit_command`. A blank command changes nothing. Without a skill of
     * the catalog the turn goes back to the player. Otherwise the hit takes
     * the damage of the skill off the guardian's hit points; a lethal hit
     * sets them to 0, records the trial, awards 50 AWS knowledge and ends
     * the battle; any other hit gives the guardian its turn and leaves the
     * record alone. `critical` is the critical draw, used only when the
     * command misses the weakness.
     */
    method SubmitCommand(critical: bool, now: int)
      requires Valid()
      modifies this, sm
      ensures Valid()
      ensures CommandSubmitted(commandInput.text, old(selectedAction), old(state), old(guardianHp), old(sm.player),
                               old(message), old(animationTimer), critical, now)
      ensures guardianHp <= old(guardianHp)
      ensures sm.current == old(sm.current) && selectedAction == old(selectedAction)
      ensures skillChoices == old(skillChoices) && itemChoices == old(itemChoices)
    {
      var text := commandInput.GetText();
      match NonBlank(text) {
        case None =>
        case Some(command) => SubmitWith(command, critical, now);
      }
    }

    /**
     * The battle after `submit_command` on the box text `text`, from the
     * selection `action`, the state `st`, `hp` hit points, the record `p`,
     * the message `msg` and the timer `timer`: a text that strips to nothing
     * changes none of them; any other is submitted stripped.
     */
    ghost predicate CommandSubmitted(text: string, action: Option<string>, st: BattleState, hp: int, p: Player,
                                     msg: Message, timer: int, critical: bool, now: int)
      reads this, sm
    {
      match NonBlank(text)
      case None =>
        state == st && guardianHp == hp && sm.player == p && message == msg && animationTimer == timer
      case Some(command) => Submitted(command, action, hp, p, msg, timer, critical, now)
    }

    /**
     * The battle after `submit_command` with the stripped, non-blank
     * `command` while `action` is selected, from `hp` hit points and the
     * record `p`: without a skill selected the player keeps the turn and
     * nothing else changes; with one, the skill's hit lands.
     */
    ghost predicate Submitted(command: string, action: Option<string>, hp: int, p: Player, msg: Message, timer: int,
                              critical: bool, now: int)
      reads this, sm
    {
      match SkillOf(action)
      case None => state == PlayerTurn && guardianHp == hp && sm.player == p && message == msg && animationTimer == timer
      case Some(skill) =>
        var weak := HitsWeakness(guardian.weakness, command);
        Struck(hp, p, Damage(skill.power, p.level, weak, critical), weak || critical, now)
    }

    /** `submit_command` once the command is known not to be blank. */
    method SubmitWith(command: string, critical: bool, now: int)
      requires Valid()
      modifies this, sm
      ensures Valid()
      ensures Submitted(command, old(selectedAction), old(guardianHp), old(sm.player), old(message), old(animationTimer),
                        critical, now)
      ensures guardianHp <= old(guardianHp)
      ensures sm.current == old(sm.current) && selectedAction == old(selectedAction)
      ensures skillChoices == old(skillChoices) && itemChoices == old(itemChoices)
    {
      match SkillOf(selectedAction) {
        case None => state := PlayerTurn;
        case Some(skill) => AttackWith(skill, command, critical, now);
      }
    }

    /**
     * The hit of `submit_command` with `skill` and the stripped `command`:
     * the damage of the skill at the player's level, doubled when the
     * command names the guardian's weakness and otherwise scaled by the
     * critical draw.
     */
    method AttackWith(skill: Skill, command: string, critical: bool, now: int)
      requires Valid()
      modifies this, sm
      ensures Valid()
      ensures Struck(old(guardianHp), old(sm.player),
                     Damage(skill.power, old(sm.player.level), HitsWeakness(guardian.weakness, command), critical),
                     HitsWeakness(guardian.weakness, command) || critical, now)
      ensures guardianHp <= old(guardianHp)
      ensures sm.current == old(sm.current) && selectedAction == old(selectedAction)
      ensures skillChoices == old(skillChoices) && itemChoices == old(itemChoices)
    {
      var weak := HitsWeakness(guardian.weakness, command);
      var damage := Damage(skill.power, sm.player.level, weak, critical);
      Strike(damage, weak || critical, now);
    }

    /**
     * The battle after a hit of `damage` on a guardian with `hp` hit points,
     * starting from the record `p`: the hit points `HitGuardian` gives; a
     * lethal hit ends the battle with the victory reward, any other hit
     * reports the damage and gives the guardian its turn.
     */
    ghost predicate Struck(hp: int, p: Player, damage: int, criticalHit: bool, now: int)
      reads this, sm
    {
      var (left, defeated) := HitGuardian(hp, damage);
      && guardianHp == left && animationTimer == now
      && (defeated ==>
            state == Result && message == GuardianDefeated && sm.player == VictoryReward(p, guardian.name))
      && (!defeated ==>
            state == GuardianTurn && message == Hit(damage, criticalHit) && sm.player == p)
    }

    /** The second half of `submit_command`: the hit lands and the battle moves on. */
    method Strike(damage: int, criticalHit: bool, now: int)
      requires Valid() && damage >= 0
      modifies this, sm
      ensures Valid()
      ensures Struck(old(guardianHp), old(sm.player), damage, criticalHit, now)
      ensures guardianHp <= old(guardianHp)
      ensures sm.current == old(sm.current) && selectedAction == old(selectedAction)
      ensures skillChoices == old(skillChoices) && itemChoices == old(itemChoices)
    {
      guardianHp := guardianHp - damage;
      message := Hit(damage, criticalHit);
      if guardianHp <= 0 {
        guardianHp := 0;
        message := GuardianDefeated;
        state := Result;
        animationTimer := now;
        GuardianNameListed(guardian);
        sm.CompleteTrial(guardian.name);
        var _ := sm.UpdatePlayerStat("aws_knowledge", VictoryKnowledge);
      } else {
        state := GuardianTurn;
        animationTimer := now;
      }
    }

    /**
     * `use_item`. A name the catalog does not know goes back to the
     * player's turn. Otherwise the item's effects are applied in order, one
     * copy of it leaves the inventory, and the guardian gets its turn.
     */
    method UseItem(name: string, now: int)
      requires Valid()
      modifies this, sm
      ensures Valid()
      ensures ItemChosen(name, old(sm.player), old(animationTimer), now)
      ensures guardianHp == old(guardianHp) && sm.current == old(sm.current)
      ensures skillChoices == old(skillChoices) && itemChoices == old(itemChoices)
    {
      match FindItem(name) {
        case None =>
          message := ItemUnavailable;
          state := PlayerTurn;
        case Some(item) =>
          CatalogItemsPositive(item);
          ApplyItem(name, item.effects, now);
      }
    }

    /**
     * The battle after `use_item(name)` from the record `p` and the timer
     * `timer`: a name the catalog does not know goes back to the player's
     * turn with the record and the timer kept; a catalog item is used as
     * `ItemUsed` says.
     */
    ghost predicate ItemChosen(name: string, p: Player, timer: int, now: int)
      reads this, sm
    {
      match FindItem(name)
      case None => state == PlayerTurn && message == ItemUnavailable && sm.player == p && animationTimer == timer
      case Some(item) => ItemUsed(name, item.effects, p, now)
    }

    /**
     * The battle after the item `name` with `effects` was used from the
     * record `p`: the effects applied in order, one copy of the item out of
     * the inventory, the last effect's message, and the guardian's turn.
     */
    ghost predicate ItemUsed(name: string, effects: seq<Effect>, p: Player, now: int)
      reads this, sm
    {
      && EffectsApplicable(effects)
      && var q := ApplyEffects(p, effects);
         && sm.player == (if name in q.items then q.(items := RemoveFirst(q.items, name)) else q)
         && state == GuardianTurn && animationTimer == now
         && (effects != [] ==> message == EffectMessage(name, effects[|effects| - 1]))
    }

    /** The second half of `use_item`, once the item is found: its effects, then its removal. */
    method ApplyItem(name: string, effects: seq<Effect>, now: int)
      requires Valid() && EffectsApplicable(effects)
      modifies this, sm
      ensures Valid()
      ensures ItemUsed(name, effects, old(sm.player), now)
      ensures guardianHp == old(guardianHp) && sm.current == old(sm.current)
      ensures skillChoices == old(skillChoices) && itemChoices == old(itemChoices)
    {
      ghost var p0 := sm.player;
      var i := 0;
      while i < |effects|
        invariant 0 <= i <= |effects|
        invariant EffectsApplicable(effects[..i])
        invariant sm.player == ApplyEffects(p0, effects[..i])
        invariant Valid()
        invariant i > 0 ==> message == EffectMessage(name, effects[i - 1])
        invariant guardianHp == old(guardianHp) && sm.current == old(sm.current)
        invariant skillChoices == old(skillChoices) && itemChoices == old(itemChoices)
      {
        ApplyEffectsStep(p0, effects, i);
        ApplyOneEffect(name, effects[i]);
        i := i + 1;
      }
      assert effects[..i] == effects;
      var _ := sm.RemoveItem(name);
      state := GuardianTurn;
      animationTimer := now;
    }

    /** One turn of the loop over the item's effects: the effect, and the message that reports it. */
    method ApplyOneEffect(name: string, e: Effect)
      requires Valid() && (e.Gain? ==> e.stat !in TextOrListKeys)
      modifies this, sm
      ensures Valid()
      ensures sm.player == ApplyEffect(old(sm.player), e) && message == EffectMessage(name, e)
      ensures guardianHp == old(guardianHp) && sm.current == old(sm.current)
      ensures skillChoices == old(skillChoices) && itemChoices == old(itemChoices)
    {
      match e {
        case DamageReduction(_) =>
          message := NextDamageHalved(name);
        case Gain(stat, value) =>
          var _ := sm.UpdatePlayerStat(stat, value);
          message := Recovered(name, stat, value);
      }
    }

    /**
     * `process_guardian_attack` with the drawn attack pattern and base
     * damage: the counter-attack lands on the record, and the battle ends
     * when the player has no motivation left.
     */
    method ProcessGuardianAttack(attack: nat, d: int, now: int)
      requires Valid() && attack < |guardian.attackPatterns| && MinCounterDamage <= d <= MaxCounterDamage
      modifies this, sm
      ensures Valid()
      ensures Countered(old(sm.player), attack, d, old(animationTimer), now)
      ensures guardianHp == old(guardianHp) && sm.current == old(sm.current)
      ensures skillChoices == old(skillChoices) && itemChoices == old(itemChoices)
      ensures selectedAction == old(selectedAction)
    {
      var pattern := guardian.attackPatterns[attack];
      var _ := sm.UpdatePlayerStat("motivation", -d);
      var _ := sm.UpdatePlayerStat("concentration", -d / 2);
      message := GuardianAttack(pattern, d);
      var over := sm.IsGameOver();
      if over {
        message := MotivationGone;
        state := Result;
        animationTimer := now;
      } else {
        state := PlayerTurn;
      }
    }

    /**
     * The battle after the guardian's attack number `attack` with base
     * damage `d`, from the record `p` and the timer `timer`: the record
     * takes the counter-attack; with no motivation left the battle ends and
     * the timer restarts, otherwise the player gets the turn back with the
     * attack reported and the timer kept.
     */
    ghost predicate Countered(p: Player, attack: nat, d: int, timer: int, now: int)
      reads this, sm
    {
      && sm.player == CounterAttack(p, d)
      && (IsGameOver(sm.player) ==> state == Result && message == MotivationGone && animationTimer == now)
      && (!IsGameOver(sm.player) ==>
            && state == PlayerTurn && animationTimer == timer
            && attack < |guardian.attackPatterns| && message == GuardianAttack(guardian.attackPatterns[attack], d))
    }

    /** `go_back`: every submenu returns to the player's turn. */
    method GoBack()
      modifies this
      ensures state == PlayerTurn && message == WhatToDo
      ensures guardianHp == old(guardianHp) && animationTimer == old(animationTimer)
      ensures skillChoices == old(skillChoices) && itemChoices == old(itemChoices)
      ensures selectedAction == old(selectedAction)
    {
      state := PlayerTurn;
      message := WhatToDo;
    }

    /** `show_result`: the result screen replaces the battle, with the classified outcome. */
    method ShowResult()
      modifies sm
      ensures sm.current == Some(BattleResult(guardian, ClassifyOutcome(guardianHp, sm.player)))
      ensures sm.player == old(sm.player)
    {
      sm.ChangeScene(BattleResult(guardian, ClassifyOutcome(guardianHp, sm.player)));
    }
  }
}
