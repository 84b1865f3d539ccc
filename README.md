# Dota 2 tutorial: order filters, scan check and script helpers

This project models the parts of the Dota 2 tutorial custom game's scripts that decide things on their own, rather than just wiring engine calls together. There are three of them.

- **The Chapter 2 "Tower" section.**
  - Its order filter accepts or refuses each order the player gives. It does so from six module flags, read in a fixed priority, and one of its rules changes two of those flags.
  - The section script sets the flags in its immediate steps. It also clears the two training flags inside the `completeOnCheck` polls that see the training done.
  - The section script drives thirteen goals in a fixed order.
  - A timer keeps a radiant creep wave alive at the tower.
- **The Chapter 4 "Opening" section.**
  - Its order filter lets a radar scan through only when the scan lands within 500 units of the location the lesson asks for.
  - The script polls the same coverage check.
  - The section disposes of the creeps and the two juke heroes it spawned.
- **The helpers of `util.ts` that carry logic:**
  - player-ID lookup;
  - clearing entities out of the shared context;
  - building highlight particles;
  - the single respawn listener;
  - freezing the player's hero;
  - `getOrError` and `randomChoice`;
  - the lane-creep and valid-and-alive checks.

The model is split into five modules, one file each:

- `Wrappers`: Option and Result.
- `Engine`: what the scripts see of the engine.
  - Entity handles, orders and HUD feedback.
  - `GameRules.Addon.context`, together with the engine's record of which entities are valid and alive and of the removals the scripts make.
- `Util`: the helpers of `util.ts`.
- `SectionTower`: `Sections/Chapter2/SectionTower.ts`.
- `SectionOpening`: `Sections/Chapter4/SectionOpening.ts`.

Each section's module variables are the fields of a class (`TowerSection`, `OpeningSection`). Its order filter is a method of that class. The method is proved equal to a function (`FilterOrder`) over the flags and the order, and the lemmas state what the source promises about that function.

The source is TypeScript compiled to Lua, so the Lua meanings apply.

- Writing `undefined` into the context deletes the key.
- An optional number that is present counts as true, even when it is 0.
- An empty array is still a defined value.

`findRealPlayerID()` is evaluated at each filter call. Its result is passed to the filters as a parameter.

## Model

| member | source | states |
|---|---|---|
| Util.GetOrError | game/scripts/vscripts/util.ts:130-136 | succeeds exactly when the value is defined and returns it; otherwise fails with the given message or "Object was undefined" |
| Util.RandomChoice | game/scripts/vscripts/util.ts:533-539 | fails exactly on an empty array, with the source's message; otherwise returns a member of the array |
| Util.RandomChoiceReachesEveryElement | game/scripts/vscripts/util.ts:533-539 | every element of a non-empty array is the answer for some random roll |
| Util.FindAllPlayersID | game/scripts/vscripts/util.ts:12-22 | result strictly ascending; an ID is in it iff it is below DOTA_MAX_TEAM_PLAYERS and a valid player |
| Util.FirstNonFake | game/scripts/vscripts/util.ts:27-32 | returns an element of the list that is not a fake client, every element before it being fake; None iff every element is fake |
| Util.FindRealPlayerID | game/scripts/vscripts/util.ts:27-32 | returns a real (valid, non-fake, in-range) player with no smaller real player; None iff there is no real player |
| Util.UnitIsValidAndAlive | game/scripts/vscripts/util.ts:279-281 | false for an undefined unit; for a unit, true exactly when it is still a valid entity and alive |
| Util.IsCustomLaneCreepUnit | game/scripts/vscripts/util.ts:188-197 | true exactly for the four custom lane creep unit names |
| Util.RemovalsAreTheValidMembers | game/scripts/vscripts/util.ts:259-270 | walking a list and removing each entity still valid removes exactly the members valid beforehand, each once |
| Util.RemoveContextEntityIfExists | game/scripts/vscripts/util.ts:255-273 | absent key: nothing changes; present key: it is deleted, every other key keeps its value, and each valid entity it held (array or single) is removed once |
| Util.HighlightTypeParticleNames | game/scripts/vscripts/util.ts:340-355 | every highlight type has one or two descriptors; a second one is the overhead arrow raised by 50 |
| Util.HighlightPlanLength | game/scripts/vscripts/util.ts:392-427 | highlight creates descriptors × (units + locations) particles |
| Util.HighlightPlanAt | game/scripts/vscripts/util.ts:392-427 | particles come in descriptor-major order: for each descriptor, one per unit (attached or on the ground), then one per location |
| Util.Highlight | game/scripts/vscripts/util.ts:392-427 | appends exactly the planned particles, each visible through fog and with the radius set when one is given, and returns their consecutive IDs |
| Util.RespawnSettings.SetRespawnSettings | game/scripts/vscripts/util.ts:480-495 | stops the previous listener before registering the new one; afterwards the only listener is the new one, with the given location and time |
| Util.RespawnSettings.EntityKilled | game/scripts/vscripts/util.ts:487-493 | the settings are applied exactly when the killed entity is the player's hero and a listener is registered |
| Util.AtMostOneRespawnListener | game/scripts/vscripts/util.ts:480-495 | at most one respawn listener is ever registered |
| Util.PlayerHero.FreezePlayerHero | game/scripts/vscripts/util.ts:80-102 | with no hero, fails and changes nothing; otherwise isPlayerHeroFrozen() then returns the flag given, and the hero is pacifist and unable to move exactly when it is frozen |
| SectionTower.OtherPlayersOrdersPass | game/scripts/vscripts/Sections/Chapter2/SectionTower.ts:431 | an order that is not the real player's is accepted whatever the flags, and changes nothing |
| SectionTower.TrainUltimateRejectsOtherOrders | game/scripts/vscripts/Sections/Chapter2/SectionTower.ts:433-437 | while the ultimate must be trained, any order other than TRAIN_ABILITY is refused with "Upgrade Elder Dragon Form to continue." |
| SectionTower.TrainUltimateAcceptsOnlyElderDragonForm | game/scripts/vscripts/Sections/Chapter2/SectionTower.ts:439-449 | a TRAIN_ABILITY order whose ability resolves is accepted iff the ability is dragon_knight_elder_dragon_form |
| SectionTower.UnresolvedAbilityFallsThrough | game/scripts/vscripts/Sections/Chapter2/SectionTower.ts:439-449 | a TRAIN_ABILITY order whose ability does not resolve gets the verdict of the later rules |
| SectionTower.TrainAbilitiesAcceptsOnlyTraining | game/scripts/vscripts/Sections/Chapter2/SectionTower.ts:451-457 | while the abilities must be trained (and the ultimate rule did not decide), an order is accepted iff it is TRAIN_ABILITY |
| SectionTower.GlyphModeAcceptsOnlyGlyph | game/scripts/vscripts/Sections/Chapter2/SectionTower.ts:459-468 | in glyph mode a GLYPH order is accepted, clears the must-glyph flag and records the glyph; any other order is refused with no change |
| SectionTower.OnlyTheGlyphRuleChangesFlags | game/scripts/vscripts/Sections/Chapter2/SectionTower.ts:429-480 | the filter changes a flag iff the glyph rule accepts a GLYPH order, and it never changes any flag but the two glyph flags |
| SectionTower.RemainingOrdersFollowIgnoreFlag | game/scripts/vscripts/Sections/Chapter2/SectionTower.ts:470-479 | past the training and glyph rules, an order is accepted iff it is not held back by the cast-ultimate rule and orders are not being ignored |
| SectionTower.RejectionsExplainThemselves | game/scripts/vscripts/Sections/Chapter2/SectionTower.ts:429-480 | an error message is shown only with a refusal; the only silent refusal comes from ignorePlayerOrders |
| SectionTower.TowerSection.Chapter2TowerOrderFilter | game/scripts/vscripts/Sections/Chapter2/SectionTower.ts:429-480 | the answer, the new flags and the HUD error shown are exactly those of FilterOrder |
| SectionTower.TowerSection.RunFlagStep | game/scripts/vscripts/Sections/Chapter2/SectionTower.ts:92-345 | each flag write of the script leaves the flags given by ApplyFlagStep: the reset (lines 92-96, corrected as in Findings), ignoring orders (246), the start of training (257-259), the two training polls (268, 279), casting the ultimate (299, 307) and the glyph (345) |
| SectionTower.TowerFlagScriptStages | game/scripts/vscripts/Sections/Chapter2/SectionTower.ts:246-345 | the flags after the hero is sent back (ignore only), when training begins (both training flags), and when the glyph is due (glyph only) |
| SectionTower.ScriptStagesGateOrders | game/scripts/vscripts/Sections/Chapter2/SectionTower.ts:257-350 | during training only TRAIN_ABILITY orders pass; when the glyph is due the glyph poll (348-350) is false, exactly GLYPH orders pass, and the poll turns true exactly when one is accepted |
| SectionTower.RestartAcceptsEveryOrder | game/scripts/vscripts/Sections/Chapter2/SectionTower.ts:90-101 | after the (corrected) reset at the start of the section, every order is accepted |
| SectionTower.StaleIgnoreFlagBlocksRestartedSection | game/scripts/vscripts/Sections/Chapter2/SectionTower.ts:92-96 | with the reset as written, a section restarted after line 246 refuses the real player's move order |
| SectionTower.TowerSection.StartSection | game/scripts/vscripts/Sections/Chapter2/SectionTower.ts:90-101 | without a hero it fails with the source's message and changes nothing; otherwise the hero is frozen (pacifist, unable to move, stopped), every flag is cleared, both chapter 2 creep keys are gone, and every entity they held is no longer valid, each valid one removed once |
| SectionTower.TowerGoalScriptRunsGoalsInOrder | game/scripts/vscripts/Sections/Chapter2/SectionTower.ts:72-84 | the script's goal calls run each goal start to finish, in the order the goals were added, counting each sneak goal 1, 2, 3, 4 |
| SectionTower.RunInOrderCompletesAll | game/scripts/vscripts/Sections/Chapter2/SectionTower.ts:108-372 | running goals in order from a fresh tracker is a legal life cycle for each and completes all of them, numeric ones at their target |
| SectionTower.TowerGoalsAllCompleteInOrder | game/scripts/vscripts/Sections/Chapter2/SectionTower.ts:108-372 | replaying the section's goal calls completes all thirteen goals, both sneak goals at 4 |
| SectionTower.LiveCreepsKeepsTheLiving | game/scripts/vscripts/Sections/Chapter2/SectionTower.ts:171 | the filter keeps exactly the valid, living creeps, never grows the list, and is idempotent |
| SectionTower.LiveCreepsKeepsOrder | game/scripts/vscripts/Sections/Chapter2/SectionTower.ts:171 | the filter keeps the creeps in their order: filtering a concatenation is concatenating the filtered parts |
| SectionTower.TowerSection.CreateRadiantLaneCreeps | game/scripts/vscripts/Sections/Chapter2/SectionTower.ts:489-503 | spawns the wave and stores exactly it under the radiant creeps key |
| SectionTower.TowerSection.RadiantCreepTick | game/scripts/vscripts/Sections/Chapter2/SectionTower.ts:170-179 | keeps and publishes the living creeps; only when none is left is a new wave spawned and published; always asks to run again in 0.5 |
| SectionOpening.ScanCheckAnswersCoverage | game/scripts/vscripts/Sections/Chapter4/SectionOpening.ts:229-239 | the check is true iff a pending scan is within 500 of the target; true keeps the scan silently; false drops it, with an error and a voice line only when there was a scan |
| SectionOpening.OtherPlayersOrdersPass | game/scripts/vscripts/Sections/Chapter4/SectionOpening.ts:269 | an order that is not the real player's is accepted and changes nothing |
| SectionOpening.RadarOrderPassesIffItCovers | game/scripts/vscripts/Sections/Chapter4/SectionOpening.ts:271-274 | a radar order records its position and is accepted iff it covers the currently required location; a hit stays pending, a miss is reported and dropped |
| SectionOpening.OtherOrdersFollowCanPlayerIssueOrders | game/scripts/vscripts/Sections/Chapter4/SectionOpening.ts:276 | the real player's other orders are accepted iff canPlayerIssueOrders, with no change |
| SectionOpening.PollAgreesWithFilter | game/scripts/vscripts/Sections/Chapter4/SectionOpening.ts:179-197 | the script's poll after a radar order gives the filter's answer and never repeats the error |
| SectionOpening.ScanLocationsAreDistinct | game/scripts/vscripts/Sections/Chapter4/SectionOpening.ts:32-33 | a scan aimed at one required location does not count for the other |
| SectionOpening.SecondScanStartsFresh | game/scripts/vscripts/Sections/Chapter4/SectionOpening.ts:189-191 | after the switch to the second location the poll is false until the player scans again, and radar orders are measured against the second location |
| SectionOpening.BlockedOrdersExceptRadar | game/scripts/vscripts/Sections/Chapter4/SectionOpening.ts:75 | while orders are blocked the real player's other orders are refused; after they are allowed again (line 169) they pass |
| SectionOpening.OpeningSection.CheckIfScanCoversTheLocation | game/scripts/vscripts/Sections/Chapter4/SectionOpening.ts:229-239 | answer, new scan state and feedback are those of CheckScanCovers |
| SectionOpening.OpeningSection.OrderFilter | game/scripts/vscripts/Sections/Chapter4/SectionOpening.ts:268-277 | answer, new state and feedback are those of FilterOrder |
| SectionOpening.OpeningSection.RunStep | game/scripts/vscripts/Sections/Chapter4/SectionOpening.ts:54 | the script steps set the required location to the first one at the start, block and allow orders, clear the scan, and switch to the second location |
| SectionOpening.RadiantLaneCreepsAreTheLivingRadiantCreeps | game/scripts/vscripts/Sections/Chapter4/SectionOpening.ts:67-74 | the creeps collected are exactly the valid, living radiant melee and ranged creeps, each a custom lane creep |
| SectionOpening.RadiantLaneCreepsKeepOrder | game/scripts/vscripts/Sections/Chapter4/SectionOpening.ts:67-74 | the creeps are collected in the engine's order: collecting from a concatenation is concatenating the collected parts |
| SectionOpening.OpeningSection.CollectRadiantCreeps | game/scripts/vscripts/Sections/Chapter4/SectionOpening.ts:67-74 | appends the collected creeps, in the engine's order |
| SectionOpening.OpeningSection.DisposeCreeps | game/scripts/vscripts/Sections/Chapter4/SectionOpening.ts:241-249 | each creep still valid at its turn loses its context entry and is removed, once; the list ends empty |
| SectionOpening.JukeHeroesRemoved | game/scripts/vscripts/Sections/Chapter4/SectionOpening.ts:251-258 | the heroes removed are exactly the valid, living ones stored under the juke names |
| SectionOpening.OpeningSection.DisposeHeroes | game/scripts/vscripts/Sections/Chapter4/SectionOpening.ts:251-258 | both juke names are cleared from the context whether or not their heroes were alive, and every other key is kept |

## Left out

- **The `tg.*` step graphs of each `onStart`, and the tutorial graph library.** Only the steps that write module variables or goals are modelled: the immediate steps and the two training polls. They are modelled as `FlagStep` and `ScriptStep` values and as the goal-call script.
- **Goal tracker.** `Goals.ts` is not part of this model. A goal's life cycle is modelled as not started, then in progress, then completed, with `setValue` only while a numeric goal is in progress.
- **Engine calls.** These become operations on `World` and `ParticleManager`, or parameters:
  - the handles `CreateUnitByName` returns;
  - the creatures `FindAllByClassname` lists;
  - the `RandomInt` roll;
  - `findRealPlayerID()`'s answer.

  Camera, sound, minimap, modifier and UI calls are not modelled.
- **Timer scheduling.** Only the body of the radiant creep timer is modelled. Its returned interval is the only timing it keeps.
- **Floating-point positions.** Coordinates are integers. The scan check compares squared 2D distance against 500².
- **String values.** Unit names from `CustomNpcKeys`, the chapter 2 context keys and particle names are symbolic: their string values are defined outside the modelled files. A context key spelled like an entity name could collide with them in the source, and the model does not capture that.
- **DOTA_MAX_TEAM_PLAYERS** is an engine constant. It is taken to be 24.
- **Context values.** Only entity values (a handle or an array of handles) are modelled. Other values the context holds are not.
- **Util.PlayerHero.FreezePlayerHero:** the engine's stop order is counted, not executed.
- **SectionTower onStop and SectionOpening onStop** stop the graph, timers and highlights, which are not modelled. Their cleanups are `RemoveContextEntityIfExists`, `DisposeCreeps` and `DisposeHeroes`.
- **The rest of `util.ts`** is not modelled: `setGameFrozen`, `DestroyNeutrals`, `useAbility`, `createPathParticle`, `clearAttachedHighlightParticlesFromUnits`, `removeNeutralSpawners`, camera helpers, `getPathToItemInGuideByID` (a UI path string), `Distance2D` and `DirectionToPosition`. These are engine iteration, UI wiring or float math.
- **Excluded files.** `Sections/Chapter1/SectionCameraUnlock.ts`, `common/events.d.ts` (declarations only) and `modifiers/modifier_closing_npc.ts` (constant flags) are not part of this model.

## Findings

| source | as written | input that shows it | evidently intended | confidence | as-written member | corrected member |
|---|---|---|---|---|---|---|
| game/scripts/vscripts/Sections/Chapter2/SectionTower.ts:92-96 | The reset at the start of the section clears five of the six filter flags. It leaves `ignorePlayerOrders` as it was. That flag is set at line 246 and cleared only at line 257. | Stop the section after line 246 and before line 257 (during the dialog between them), then start it again. Every order of the real player is refused, so the hero cannot attack the tower (line 108) or walk back to it (line 153). | The reset clears `ignorePlayerOrders` too, like the other flags and like the module's initial value. | not executed | SectionTower.StaleIgnoreFlagBlocksRestartedSection (over SectionTower.ResetOnStartAsWritten) | SectionTower.RestartAcceptsEveryOrder (over SectionTower.ApplyFlagStep with ResetOnStart, used by SectionTower.TowerSection.RunFlagStep and StartSection) |
