# Amazon Forest Quest — session and battle machinery in Dafny

A model of the game logic of *Amazon Forest Quest* (a pygame adventure about
seven AWS guardians), with proofs about that model. The model covers:

- the scene manager's player-progress record and its accessors;
- the bounded text box the player types into;
- the typewriter reveal of the prologue and the epilogue;
- the name screen;
- the map's encounter resolver;
- the battle state machine;
- the two session resets (restart after a game over, return to the title after the ending);
- the content catalog (areas, guardians, items and skills).

The modules follow the program's structure:

| module | models |
|---|---|
| `Catalog` | `src/utils/constants.py`: the literal tables and the `next(... if x["name"] == ...)` lookups |
| `PlayerProgress` | the `player_data` dictionary as a datatype, `update_player_stat`, the game-over and game-completed tests |
| `SceneManagement` | `SceneManager`, a class holding the current scene (a closed datatype of screens) and the record; its invariant `Valid` says the stats are not negative, the skill and trial lists hold no duplicates and every completed trial is a guardian's name |
| `TextInputs` | `TextInput`, a class: text, focus and cursor blink |
| `Typewriter` | the reveal counters both story screens share, with termination and frame counts |
| `Prologue`, `Ending`, `GameOver`, `NameInput` | the story, game-over and name screens, one class each |
| `MapScreen` | `MapScene`: the weighted encounter draw, `select_area`, `trigger_random_event`, the inventory overlay |
| `BattleRules` | the battle arithmetic: damage, hit points, victory reward, counter-attack, item effects, outcome |
| `Battle` | `BattleScene`, a class: the seven-state machine over those rules |
| `Text`, `Lists`, `Events`, `Wrappers` | `str.strip`/`lower`/`in`/`isprintable`, `list.remove` and guarded `append`, input events, `Option` |

The source's randomness and clock are method parameters:
- the escape draw, the critical draw and the attack pattern;
- the counter-attack damage;
- the map's uniform draw and its event, item and guardian draws;
- `pygame.time.get_ticks()`.

A click is reduced to the button it lands on.

Points where the code does something its names suggest otherwise; the model follows the code:

- The counter-attack lowers concentration by `-base_damage // 2`. Python parses this as `(-d) // 2`, so concentration falls by `d/2` rounded up (`BattleRules.CounterAttack`).
- In `update`, the guardian's turn times out back to the player's turn **without** a counter-attack. The attack happens only on a click or a key (`Battle.BattleScene.Update`).
- The level a skill requires is never checked. `damage_reduction` only sets a message.
- A "nothing" draw on the map still runs a random event, so choosing an area always leaves the map (`MapScreen.AreaOutcome`).

## Model

| member | source | states |
|---|---|---|
| Catalog.GuardianOfArea | src/utils/constants.py:49-113 | the first guardian whose `area` is the given one, or None when no guardian lives there |
| Catalog.FindSkill | src/scenes/battle_scene.py:436 | the catalog skill with that name (`next(...)`), None exactly when no catalog skill has it |
| Catalog.FindItem | src/scenes/battle_scene.py:507 | the catalog item with that name, None exactly when no catalog item has it |
| Catalog.AreasAndGuardiansCorrespond | src/utils/constants.py:38-113 | seven areas and seven guardians; the i-th guardian lives in the i-th area, and no two share an area |
| Catalog.GuardianOfEveryArea | src/scenes/map_scene.py:234 | the lookup in `select_area` always finds a guardian for a listed area: the one at the same position |
| Catalog.GuardianNamesDistinct | src/utils/constants.py:49-113 | guardian names are pairwise distinct, so there are exactly seven trials |
| Catalog.AttackPatternsNonEmpty | src/utils/constants.py:49-113 | every guardian has an attack pattern for `random.choice` to pick |
| Catalog.StartingSkillKnown | src/utils/constants.py:145-151 | the starting skill is the first catalog skill, with power 10 |
| Catalog.ItemEffectsArePositiveGains | src/utils/constants.py:116-142 | every item effect other than `damage_reduction` raises motivation, concentration or knowledge by a positive amount |
| Catalog.SkillPowersPositive | src/utils/constants.py:145-176 | every skill has power at least 10 |
| PlayerProgress.InitialPlayerFacts | src/scenes/scene_manager.py:11-20 | the initial record is valid, not game over, not completed, and its level matches its knowledge |
| PlayerProgress.InitialPlayer | src/scenes/scene_manager.py:11-20 | the record keeps the given name, is valid, has the level its knowledge gives, no items, no trials and only the starting skill |
| PlayerProgress.UpdateStat | src/scenes/scene_manager.py:49-65 | a numeric stat gains the delta and is floored at 0; knowledge raises the level to `1 + k // 100` only when that is higher, and reports exactly then; an unknown key changes nothing; no other field changes |
| PlayerProgress.UpdateStatKeepsValid | src/scenes/scene_manager.py:54-56 | a stat update never makes a stat negative |
| PlayerProgress.KnowledgeGainKeepsLevelInStep | src/scenes/scene_manager.py:58-63 | when the level matches the knowledge, a knowledge gain keeps the level equal to `1 + knowledge // 100` |
| PlayerProgress.UpdatesKeepStatsAndLevel | src/scenes/scene_manager.py:49-65 | over any run of updates that do not write the level, the record stays valid and the level never falls |
| PlayerProgress.CompletedIffAllNames | src/scenes/scene_manager.py:92-96 | the game is completed exactly when the set of guardian names is contained in the completed trials |
| PlayerProgress.CompletedIffSevenTrials | src/scenes/scene_manager.py:92-96 | with a duplicate-free trial list of guardian names (what the manager's invariant keeps), completed exactly when seven trials are recorded |
| Lists.RemoveFirst | src/scenes/scene_manager.py:71-76 | `list.remove`: one fewer entry, the multiset loses exactly one `x`, and the removed one is the first occurrence |
| Lists.AppendThenRemoveSameMultiset | src/scenes/scene_manager.py:67-76 | `add_item` then `remove_item` of the same name restores the inventory's multiset |
| Lists.AppendThenRemoveFresh | src/scenes/scene_manager.py:67-76 | for a name not yet held, `add_item` then `remove_item` restores the exact list |
| Lists.AppendThenRemovePresent | src/scenes/scene_manager.py:67-76 | for a name already held, removal takes the earlier copy and the new one stays last |
| Lists.AddUnique | src/scenes/scene_manager.py:78-86 | the guarded append: afterwards `x` is in the list, its elements are the old ones plus `x`, and a duplicate-free list stays duplicate-free |
| Lists.AddUniqueIdempotent | src/scenes/scene_manager.py:83-86 | adding or completing the same name twice is the same as once |
| Lists.NoDuplicatesCardinality | src/scenes/scene_manager.py:92-96 | a duplicate-free list has as many distinct elements as entries |
| SceneManagement.ContinueFrom | src/scenes/title_scene.py:153-155 | the navigation-only screens: the title leads to the name input, and the event and battle-result screens lead back to the map |
| SceneManagement.SceneManager.constructor | src/scenes/scene_manager.py:9-20 | no scene yet, and the initial record with an empty name |
| SceneManagement.SceneManager.ChangeScene | src/scenes/scene_manager.py:22-24 | the given scene replaces the current one and the record is untouched |
| SceneManagement.SceneManager.SetPlayerName | src/scenes/scene_manager.py:45-47 | only the name changes |
| SceneManagement.SceneManager.UpdatePlayerStat | src/scenes/scene_manager.py:49-65 | the record and the level-up flag are those of `UpdateStat`; validity is kept |
| SceneManagement.SceneManager.AddItem | src/scenes/scene_manager.py:67-69 | the name is appended, duplicates allowed; nothing else changes |
| SceneManagement.SceneManager.RemoveItem | src/scenes/scene_manager.py:71-76 | true exactly when the name was held, and then its first occurrence is gone; otherwise nothing changes |
| SceneManagement.SceneManager.AddSkill | src/scenes/scene_manager.py:78-81 | the skill list becomes `AddUnique` of the old one |
| SceneManagement.SceneManager.CompleteTrial | src/scenes/scene_manager.py:83-86 | the trial list becomes `AddUnique` of the old one; recording a guardian's name keeps the manager's invariant, so the trials stay distinct guardian names |
| SceneManagement.SceneManager.IsGameOver | src/scenes/scene_manager.py:88-90 | true exactly when motivation is at most 0 |
| SceneManagement.SceneManager.IsGameCompleted | src/scenes/scene_manager.py:92-96 | the loop over the guardian names answers true exactly when every guardian's name is a completed trial, and, in any state that keeps the manager's invariant, exactly when seven trials are recorded |
| Text.TrimLeft | src/scenes/name_input_scene.py:129 | `lstrip`: the longest suffix not starting with whitespace, and everything dropped is whitespace |
| Text.TrimRight | src/scenes/name_input_scene.py:129 | `rstrip`: the longest prefix not ending in whitespace, and everything dropped is whitespace |
| Text.Strip | src/scenes/name_input_scene.py:129 | `strip()`: never longer than the text, and an empty result or one with no whitespace at either end |
| Text.StripEmptyIffAllSpace | src/scenes/name_input_scene.py:129-131 | a text strips to nothing exactly when it is all whitespace |
| Text.NonBlank | src/scenes/name_input_scene.py:129-134 | `strip()` then `if not`: None exactly for an all-whitespace text, otherwise the stripped text, non-empty, no longer than the input, with no whitespace at either end |
| Text.StripOfSpaced | src/scenes/name_input_scene.py:129 | stripping a text padded with whitespace on both sides gives back exactly the text |
| Text.NonBlankOfSpaced | src/scenes/name_input_scene.py:129-138 | a typed name surrounded by spaces is accepted as exactly that name |
| Text.SubstringOfConcat | src/scenes/battle_scene.py:468 | a command that contains the weakness between other text satisfies the `in` test |
| Text.LowerConcat | src/scenes/battle_scene.py:468 | lower-casing distributes over concatenation |
| Text.Lower | src/scenes/battle_scene.py:468 | `lower()` keeps the length and lower-cases character by character |
| TextInputs.KeyText | src/ui/text_input.py:35-46 | Backspace drops exactly the last character; Enter keeps the text; any other key appends what it types exactly when the text is below the bound and what is typed is printable; the bound is kept |
| TextInputs.Blink | src/ui/text_input.py:48-53 | the cursor flips exactly when more than 500 ms have passed since the last flip, whose time then becomes `now` |
| TextInputs.BlinkSettles | src/ui/text_input.py:48-53 | a second update at the same instant does not flip again |
| TextInputs.TextInput.constructor | src/ui/text_input.py:12-24 | empty, inactive, cursor visible, timer at 0 |
| TextInputs.TextInput.HandleEvent | src/ui/text_input.py:30-46 | a click sets the focus to whether it hit the box; a key on an active box changes the text as `KeyText` says, and Enter also drops the focus; nothing else changes the text |
| TextInputs.TextInput.Update | src/ui/text_input.py:48-53 | the cursor state becomes `Blink` of the old one; the text is untouched |
| TextInputs.TextInput.GetText | src/ui/text_input.py:77-78 | the current text |
| TextInputs.TextInput.Clear | src/scenes/battle_scene.py:443 | the command box is emptied; focus and cursor are untouched |
| TextInputs.KeysKeepBound | src/ui/text_input.py:42-46 | no sequence of keys makes the text longer than its bound |
| TextInputs.TypingKeepsPrefix | src/ui/text_input.py:42-46 | typing printable characters from a text within the bound appends them while there is room, and exactly the first `max - len` of them when there is not |
| TextInputs.TypingAtBoundKeepsText | src/ui/text_input.py:42-46 | at the bound, typing changes nothing |
| Typewriter.Skip | src/scenes/prologue_scene.py:78-81 | the skip marks the text complete with every line shown, a valid state |
| Typewriter.Step | src/scenes/prologue_scene.py:94-108 | a frame does nothing once complete, keeps the counters valid, advances three characters or to the next line, and completes past the last line |
| Typewriter.FramesForLine | src/scenes/prologue_scene.py:99-103 | the frames a line still needs: the least `n` with `3n` covering what is left |
| Typewriter.StepUsesOneFrame | src/scenes/prologue_scene.py:94-108 | each frame before completion uses exactly one of the frames left |
| Typewriter.CompleteExactlyAfterFramesLeft | src/scenes/prologue_scene.py:94-108 | after `k` frames the text is complete exactly when `k` is at least the frames left, and the state stays valid |
| Typewriter.StoryFinishes | src/scenes/prologue_scene.py:94-108 | from the opening state the reveal completes after exactly the computed number of frames, and then equals the skip state |
| Prologue.PrologueText | src/scenes/prologue_scene.py:29-42 | twelve lines, the seventh naming the player |
| Prologue.PrologueScene.constructor | src/scenes/prologue_scene.py:15-70 | the text is built from the player's name, and the reveal starts at the first line |
| Prologue.PrologueScene.HandleEvent | src/scenes/prologue_scene.py:72-92 | before completion, a click or Space/Enter skips; afterwards the button or Space/Enter opens the map; only then does the scene change; the record is never touched |
| Prologue.PrologueScene.SkipText | src/scenes/prologue_scene.py:78-81 | the skip: the reveal jumps to past the last line, complete, with no partial line |
| Prologue.PrologueScene.Update | src/scenes/prologue_scene.py:94-108 | the counters become `Step` of the old ones |
| Prologue.PrologueScene.StartAdventure | src/scenes/prologue_scene.py:173-175 | the map replaces the prologue |
| Ending.EndingText | src/scenes/ending_scene.py:28-41 | twelve lines; the first and the eleventh name the player |
| Ending.EndingScene.constructor | src/scenes/ending_scene.py:14-78 | the text is built from the player's name, the reveal starts at the first line and the credits are hidden |
| Ending.EndingScene.HandleEvent | src/scenes/ending_scene.py:87-116 | while the credits are shown, a click or Space/Enter only hides them; before completion it skips; afterwards Space/Enter or the credits button shows them, the title button resets the session, and a click on neither button changes nothing |
| Ending.EndingScene.SkipText | src/scenes/ending_scene.py:99-103 | the skip: the reveal jumps to past the last line, complete, and the credits flag is untouched |
| Ending.EndingScene.Update | src/scenes/ending_scene.py:118-132 | the counters become `Step` of the old ones; the credits flag is untouched |
| Ending.EndingScene.ShowCredits | src/scenes/ending_scene.py:239-240 | the credits are shown and the reveal is untouched |
| Ending.EndingScene.ReturnToTitle | src/scenes/ending_scene.py:242-257 | the whole record, name included, back to its defaults (valid, not over, not completed), then the title |
| GameOver.GameOverScene.HandleEvent | src/scenes/game_over_scene.py:62-66 | quit is reported exactly for a click on the quit button; the restart button restarts; anything else changes nothing |
| GameOver.GameOverScene.RestartGame | src/scenes/game_over_scene.py:93-108 | every stat and list back to its initial value with the name kept, no longer game over, then the title |
| GameOver.GameOverScene.constructor | src/scenes/game_over_scene.py:14-60 | the screen is bound to its scene manager; fonts and images are not modelled |
| NameInput.NameInputScene.constructor | src/scenes/name_input_scene.py:16-72 | a fresh, empty, inactive name box bounded at 15 characters, and no error shown |
| NameInput.NameInputScene.HandleEvent | src/scenes/name_input_scene.py:81-93 | the box sees the event first: a click sets its focus to whether it hit the box, a key edits a focused box and Enter drops the focus; the confirm button confirms; the back button goes to the title; nothing else changes the scene or the record, and only a confirm touches the error |
| NameInput.NameInputScene.ConfirmName | src/scenes/name_input_scene.py:128-138 | a blank entry shows the error and changes nothing else; any other sets the stripped name, at most 15 characters, and opens the prologue |
| NameInput.NameInputScene.GoBack | src/scenes/name_input_scene.py:140-143 | the title replaces the name screen and the record is untouched |
| NameInput.NameInputScene.Update | src/scenes/name_input_scene.py:95-97 | the box's cursor blinks as `Blink` says; its text and focus are kept |
| NameInput.ForBox | src/scenes/name_input_scene.py:83 | the box sees every event: a click as one inside it exactly when it hit the box, a key as the same key |
| MapScreen.EncounterOf | src/scenes/map_scene.py:226-230 | the weighted draw: each outcome is chosen on an interval of the uniform draw exactly as long as its weight, and the intervals do not overlap |
| MapScreen.RandomEvent | src/scenes/map_scene.py:247-286 | an item event appends exactly the drawn item's name and changes no stat; a hint changes no player data; a rest adds exactly 20 to motivation and concentration, with no cap; the event screen names the area; validity is kept |
| MapScreen.AreaGuardian | src/scenes/map_scene.py:234 | the guardian looked up for a listed area is a catalog guardian living there |
| MapScreen.AreaGuardianAtSamePosition | src/scenes/map_scene.py:234 | the guardian of the i-th area is the i-th guardian |
| MapScreen.AreaOutcome | src/scenes/map_scene.py:224-245 | a battle starts exactly on a battle draw whose area guardian is not yet defeated, with that guardian and the record untouched; everything else, the defeated fallback included, is the random event |
| MapScreen.NoBattleAfterCompletion | src/scenes/map_scene.py:236-239 | once every trial is completed, choosing an area never starts a battle |
| MapScreen.MapScene.HandleEvent | src/scenes/map_scene.py:106-121 | while the inventory is shown no click reaches a button, and a click outside its window closes it; otherwise an area button selects the area as `AreaOutcome` says, and the inventory button opens the inventory |
| MapScreen.MapScene.Update | src/scenes/map_scene.py:130-138 | game over leads to the game-over screen, but completion wins when both hold; otherwise the scene stays; the record is untouched |
| MapScreen.MapScene.SelectArea | src/scenes/map_scene.py:224-245 | record and scene as `AreaOutcome` gives them |
| MapScreen.MapScene.TriggerRandomEvent | src/scenes/map_scene.py:247-286 | record and scene as `RandomEvent` gives them |
| MapScreen.MapScene.ShowInventory | src/scenes/map_scene.py:288-289 | the inventory is shown |
| MapScreen.MapScene.constructor | src/scenes/map_scene.py:21-97 | the map is bound to its scene manager with the inventory hidden |
| BattleRules.Choices | src/scenes/battle_scene.py:372-374 | only the first three skills or items get a button |
| BattleRules.Truncate | src/scenes/battle_scene.py:477 | `int()` truncates toward zero |
| BattleRules.LevelFactor | src/scenes/battle_scene.py:465 | `1 + (L - 1) * 0.2` equals `(L + 4) / 5` exactly |
| BattleRules.Damage | src/scenes/battle_scene.py:462-477 | doubled on the weakness, otherwise ×1.5 on a critical draw, then truncated; never negative for a level the game reaches |
| BattleRules.DamageClosedForm | src/scenes/battle_scene.py:462-477 | for a level of at least 0, the damage is `⌊2p(L+4)/5⌋` on the weakness, `⌊3p(L+4)/10⌋` on a critical and `⌊p(L+4)/5⌋` otherwise |
| BattleRules.DamageOrdered | src/scenes/battle_scene.py:462-477 | every catalog skill hits for at least 8, and weakness ≥ critical ≥ plain |
| BattleRules.HitGuardian | src/scenes/battle_scene.py:478-488 | the hit points after a hit are never negative and never more than before; the hit is lethal exactly when the hit points reach 0 |
| BattleRules.VictoryReward | src/scenes/battle_scene.py:494-497 | the trial is recorded once and knowledge grows by exactly 50; the level never falls; nothing else changes; validity is kept |
| BattleRules.CounterAttack | src/scenes/battle_scene.py:539-540 | motivation falls by `d` and concentration by `d/2` rounded up, each floored at 0; nothing else changes |
| BattleRules.CounterAttackHurts | src/scenes/battle_scene.py:536-540 | with a draw in 10..20, each stat falls or is already 0, and the player is out exactly when motivation was at most `d` |
| BattleRules.ClassifyOutcome | src/scenes/battle_scene.py:559-566 | victory exactly when the guardian has no hit points, defeat when it has some and the player is out, escape otherwise |
| BattleRules.ApplyEffectsStep | src/scenes/battle_scene.py:515-522 | applying the effects in table order one more step is one more `ApplyEffect`, and every prefix of an applicable table stays applicable |
| BattleRules.ApplyEffectsAdds | src/scenes/battle_scene.py:515-522 | a catalog item raises each stat by exactly the total it grants; the level never falls; the name and lists are untouched |
| BattleRules.ReductionOnlyChangesNothing | src/scenes/battle_scene.py:516-518 | a `damage_reduction` effect changes nothing in the record |
| BattleRules.CatalogItemsPositive | src/utils/constants.py:116-142 | every catalog item's effects are non-negative gains of the three stats |
| Battle.ForCommandBox | src/scenes/battle_scene.py:243 | the command box sees every event, with a click hitting it or not |
| Battle.BattleScene.constructor | src/scenes/battle_scene.py:21-37 | for a guardian of the catalog: the guardian at full hit points, the introduction, an empty command box of 50 characters, buttons for the first three skills and items |
| Battle.BattleScene.HandleEvent | src/scenes/battle_scene.py:212-266 | the introduction goes to the player's turn on any click or key; in the player's turn, the skill list, the item list and the command state a click or an event is routed as the four `ClickIn…`/`EventInCommandInput` methods state; the guardian's turn runs the counter-attack as `ProcessGuardianAttack` states, message and timer included; the result shows the outcome classified on the hit points and record it found; other events change nothing; only the command state changes the hit points, the introduction, the guardian's turn and the result keep the choice lists and the selection, the player's turn keeps the selection, the skill list keeps the choice lists and the timer, the introduction and the result keep the timer, and only the result state changes the scene |
| Battle.BattleScene.ClickInPlayerTurn | src/scenes/battle_scene.py:218-223 | the attack, item and run buttons have exactly the effect `SelectAction` states for their action; a click elsewhere keeps the player's turn and its message; the hit points and the selection are kept either way |
| Battle.BattleScene.ClickInSkillSelect | src/scenes/battle_scene.py:225-232 | skill button `i` of a listed skill has exactly the effect `SelectSkill` states for the i-th listed name; the back button returns to the player's turn; a click elsewhere keeps the skill list and its message; the hit points, the timer and the choice lists are kept either way |
| Battle.BattleScene.ClickInItemSelect | src/scenes/battle_scene.py:234-241 | item button `i` of a listed item has exactly the effect `UseItem` states for the i-th listed name; the back button returns to the player's turn with the record kept; a click elsewhere changes nothing |
| Battle.BattleScene.EventInCommandInput | src/scenes/battle_scene.py:243-256 | the command box sees the event first; a click on submit or Enter submits the box's text as `SubmitCommand` states and leaves it in the unfocused box; the back button returns to the player's turn with the box's text kept and its focus dropped; any other event keeps the command state, the record and the hit points: a click sets the box's focus and keeps its text, a key edits a focused box, and a key or any other event keeps the focus |
| Battle.BattleScene.Update | src/scenes/battle_scene.py:268-287 | measured against the timer before the call: after the delay, the guardian's turn returns to the player without any attack, and the result is shown; otherwise state, message and scene stay; in the command state the box's cursor blinks as `Blink` says, and in any other state the cursor stays; the box's text and focus, the timer, the selection, the choice lists, the hit points and the record are never touched |
| Battle.BattleScene.SelectAction | src/scenes/battle_scene.py:357-431 | attack opens the first three skills; item opens the first three items, or stays with a message on an empty inventory; run ends the battle on a successful draw and gives the guardian its turn otherwise |
| Battle.BattleScene.SelectSkill | src/scenes/battle_scene.py:433-447 | a catalog skill opens an empty command box, whatever its required level; any other name goes back to the player's turn |
| Battle.SkillOf | src/scenes/battle_scene.py:456 | a found skill is a catalog skill carrying exactly the selected name; nothing is found without a selection or when no catalog skill has that name |
| Battle.BattleScene.SubmitCommand | src/scenes/battle_scene.py:449-453 | a command that strips to nothing changes nothing; any other command is handled as `SubmitWith` describes, with its stripped text |
| Battle.BattleScene.SubmitWith | src/scenes/battle_scene.py:455-501 | without a catalog skill for the selected name the turn goes back to the player and the record, hit points, message and timer stay; with one, its hit lands as `AttackWith` describes |
| Battle.BattleScene.AttackWith | src/scenes/battle_scene.py:462-475 | the damage is `Damage` of the skill's power at the player's level, doubled when the command names the guardian's weakness (reported as a critical hit) and otherwise scaled by the critical draw; the hit then lands as `Strike` describes |
| Battle.BattleScene.Strike | src/scenes/battle_scene.py:477-501 | the hit points become those of `HitGuardian`; a lethal hit ends the battle with exactly the victory reward; any other hit reports the damage and leaves the record alone |
| Battle.BattleScene.UseItem | src/scenes/battle_scene.py:503-529 | an unknown item returns to the player's turn; a known item's effects are applied in table order, one copy leaves the inventory, the last effect's message is shown, and the guardian gets its turn |
| Battle.BattleScene.ApplyItem | src/scenes/battle_scene.py:514-529 | the loop over the effects leaves the record at `ApplyEffects` of the old one, then removes one copy of the item |
| Battle.BattleScene.ApplyOneEffect | src/scenes/battle_scene.py:515-522 | one effect: a stat gain goes through `update_player_stat` and reports the recovery; damage reduction changes no stat and reports the halving |
| Battle.BattleScene.ProcessGuardianAttack | src/scenes/battle_scene.py:531-552 | the record becomes `CounterAttack` of the old one; the battle ends exactly when the player is out, with its message and the timer restarted, and otherwise the turn returns with the attack reported and the timer kept |
| Battle.BattleScene.GoBack | src/scenes/battle_scene.py:554-557 | every submenu returns to the player's turn |
| Battle.BattleScene.ShowResult | src/scenes/battle_scene.py:559-571 | the result screen replaces the battle, with the classified outcome and the record untouched |

## Left out

- Rendering: every `draw`/`draw_*` method, fonts, images, status bars, button hover and colours; layout arithmetic. Clicks are reduced to the one button they land on, so overlapping buttons that would fire together are not modelled.
- `main.py`, the pygame event loop and frame timing are not part of this model. The scene manager's dispatch of `handle_event`, `update` and `draw` to the current scene (src/scenes/scene_manager.py:26-39) is not modelled: each scene's own methods are the model, and a caller invokes those of the scene the manager holds.
- `quit_game`'s `sys.exit()`: the game-over screen returns a `quit` flag instead of ending the process.
- Randomness, `pygame.time.get_ticks()` and mouse positions: they are parameters. The weighted draw uses exact reals for `[0.4, 0.3, 0.2, 0.1]`; the floating-point cumulative sums are not modelled.
- Floating point in the damage formula: the model computes in exact reals and then truncates, so binary rounding of `0.2` and `1.5` is not modelled.
- `str.isspace`, `str.lower` and `str.isprintable` are modelled for the characters the game meets: ASCII and full-width Latin case mapping, and the common control, separator and format characters. Full Unicode tables are not modelled.
- A KEYDOWN types at most one character; IME composition, which can deliver longer text, is not modelled.
- The title, event and battle-result screens only navigate and render. They are edges of `SceneManagement.ContinueFrom`, not classes. Scene objects are tags of the `Scene` datatype carrying what their constructors receive.
- PlayerProgress.UpdateStat: adding an integer to the name or a list key raises `TypeError` in Python; `requires` excludes those keys instead of modelling the exception.
- MapScreen.MapScene.SelectArea: requires the area to be one of the seven listed ones, the only values its buttons pass. For any other area the source would open a battle with no guardian.
- Battle.BattleScene.Update: the status bars it refreshes are rendering and are left out.
- Battle.BattleScene.constructor: requires a guardian of the catalog. The source accepts any guardian record, but the map only ever passes one of the seven. This is what lets a victory keep the invariant that every completed trial is a guardian's name.
