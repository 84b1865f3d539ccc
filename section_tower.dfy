/** Chapter 2, "Tower": the order filter that steers what the player may do
    while the section runs, the module flags it reads (and, in one branch,
    writes), the steps of the section script that set those flags, the order
    in which the script drives its goals, and the timer that keeps a radiant
    creep wave walking at the tower. */
module SectionTower {
  import opened Wrappers
  import opened Engine
  import Util

  const ElderDragonForm := "dragon_knight_elder_dragon_form"
  const UpgradeUltimateMessage := "Upgrade Elder Dragon Form to continue."
  const UpgradeAbilitiesMessage := "Upgrade the rest of your abilities to continue."
  const UseGlyphMessage := "Please use Glyph next to the minimap."
  const CastUltimateMessage := "Cast your Ultimate first!"

  /** The module flags the order filter reads. */
  datatype OrderFlags = OrderFlags(
    ignorePlayerOrders: bool,
    playerMustOrderTrainUltimate: bool,
    playerMustOrderTrainAbilities: bool,
    playerMustOrderGlyph: bool,
    hasPlayerOrderedGlyphWhenMust: bool,
    playerOrderMustCastUltimate: bool)

  /** The module's initial values: every flag false. */
  const InitialFlags := OrderFlags(false, false, false, false, false, false)

  /** What the filter does with one order: accept it or not, the HUD error it
      shows, and the flags afterwards. */
  datatype Verdict = Verdict(accepted: bool, message: Option<string>, flags: OrderFlags)

  /** chapter2TowerOrderFilter as a function of the flags and the order. The
      rules apply in priority order: another player's order passes; training
      the ultimate; training abilities; using the glyph (the one rule that
      changes a flag); casting the ultimate; and otherwise the order passes
      unless player orders are being ignored. */
  function FilterOrder(f: OrderFlags, order: Order, realPlayer: Option<PlayerId>): Verdict
  {
    if !IsPlayerOrder(order, realPlayer) then Verdict(true, None, f)
    else if f.playerMustOrderTrainUltimate && order.orderType != TrainAbility then
      Verdict(false, Some(UpgradeUltimateMessage), f)
    else if f.playerMustOrderTrainUltimate && order.ability.Some? then
      if order.ability.value == ElderDragonForm then Verdict(true, None, f)
      else Verdict(false, Some(UpgradeUltimateMessage), f)
    else if f.playerMustOrderTrainAbilities then
      if order.orderType != TrainAbility then Verdict(false, Some(UpgradeAbilitiesMessage), f)
      else Verdict(true, None, f)
    else if f.playerMustOrderGlyph then
      if order.orderType != Glyph then Verdict(false, Some(UseGlyphMessage), f)
      else Verdict(true, None, f.(playerMustOrderGlyph := false, hasPlayerOrderedGlyphWhenMust := true))
    else if f.playerOrderMustCastUltimate && order.orderType != CastNoTarget then
      Verdict(false, Some(CastUltimateMessage), f)
    else Verdict(!f.ignorePlayerOrders, None, f)
  }

  // ---------------------------------------------------------------------
  // Properties of the filter

  /** Orders that are not the real player's are always accepted, whatever the
      flags, and change nothing. */
  lemma OtherPlayersOrdersPass(f: OrderFlags, order: Order, realPlayer: Option<PlayerId>)
    requires !IsPlayerOrder(order, realPlayer)
    ensures FilterOrder(f, order, realPlayer) == Verdict(true, None, f)
  {
  }

  /** While the ultimate must be trained, anything but TRAIN_ABILITY is
      rejected with the ultimate message. */
  lemma TrainUltimateRejectsOtherOrders(f: OrderFlags, order: Order, realPlayer: Option<PlayerId>)
    requires IsPlayerOrder(order, realPlayer) && f.playerMustOrderTrainUltimate
    requires order.orderType != TrainAbility
    ensures FilterOrder(f, order, realPlayer) == Verdict(false, Some(UpgradeUltimateMessage), f)
  {
  }

  /** While the ultimate must be trained, a TRAIN_ABILITY order whose ability
      resolves is accepted exactly when that ability is Elder Dragon Form. */
  lemma TrainUltimateAcceptsOnlyElderDragonForm(f: OrderFlags, order: Order, realPlayer: Option<PlayerId>)
    requires IsPlayerOrder(order, realPlayer) && f.playerMustOrderTrainUltimate
    requires order.orderType == TrainAbility && order.ability.Some?
    ensures FilterOrder(f, order, realPlayer).accepted <==> order.ability.value == ElderDragonForm
    ensures FilterOrder(f, order, realPlayer).flags == f
  {
  }

  /** A TRAIN_ABILITY order whose ability does not resolve falls through the
      ultimate rule: the verdict is the one the later rules give, and the
      ultimate flag stays set. */
  lemma UnresolvedAbilityFallsThrough(f: OrderFlags, order: Order, realPlayer: Option<PlayerId>)
    requires f.playerMustOrderTrainUltimate
    requires order.orderType == TrainAbility && order.ability.None?
    ensures var v := FilterOrder(f, order, realPlayer);
      var later := FilterOrder(f.(playerMustOrderTrainUltimate := false), order, realPlayer);
      v.accepted == later.accepted && v.message == later.message &&
      v.flags == later.flags.(playerMustOrderTrainUltimate := true)
  {
  }

  /** When the abilities must be trained and the ultimate rule has not
      decided, an order is accepted exactly when it is TRAIN_ABILITY. */
  lemma TrainAbilitiesAcceptsOnlyTraining(f: OrderFlags, order: Order, realPlayer: Option<PlayerId>)
    requires IsPlayerOrder(order, realPlayer) && f.playerMustOrderTrainAbilities
    requires !f.playerMustOrderTrainUltimate || order.ability.None?
    ensures FilterOrder(f, order, realPlayer).accepted <==> order.orderType == TrainAbility
    ensures FilterOrder(f, order, realPlayer).flags == f
  {
  }

  /** In glyph mode a GLYPH order is accepted and marks the glyph as used;
      any other order is rejected and changes nothing. */
  lemma GlyphModeAcceptsOnlyGlyph(f: OrderFlags, order: Order, realPlayer: Option<PlayerId>)
    requires IsPlayerOrder(order, realPlayer) && f.playerMustOrderGlyph
    requires !f.playerMustOrderTrainUltimate && !f.playerMustOrderTrainAbilities
    ensures order.orderType == Glyph ==>
      FilterOrder(f, order, realPlayer) ==
      Verdict(true, None, f.(playerMustOrderGlyph := false, hasPlayerOrderedGlyphWhenMust := true))
    ensures order.orderType != Glyph ==>
      FilterOrder(f, order, realPlayer) == Verdict(false, Some(UseGlyphMessage), f)
  {
  }

  /** The glyph rule is the only one that changes state, and it changes only
      the two glyph flags. */
  lemma OnlyTheGlyphRuleChangesFlags(f: OrderFlags, order: Order, realPlayer: Option<PlayerId>)
    ensures var v := FilterOrder(f, order, realPlayer);
      v.flags != f <==>
        && IsPlayerOrder(order, realPlayer)
        && !f.playerMustOrderTrainUltimate && !f.playerMustOrderTrainAbilities
        && f.playerMustOrderGlyph && order.orderType == Glyph
    ensures var v := FilterOrder(f, order, realPlayer);
      v.flags == f.(playerMustOrderGlyph := v.flags.playerMustOrderGlyph,
                    hasPlayerOrderedGlyphWhenMust := v.flags.hasPlayerOrderedGlyphWhenMust)
  {
  }

  /** Once none of the training or glyph rules is active, a player order is
      accepted exactly when it is not held back by the cast-ultimate rule and
      player orders are not being ignored. */
  lemma RemainingOrdersFollowIgnoreFlag(f: OrderFlags, order: Order, realPlayer: Option<PlayerId>)
    requires IsPlayerOrder(order, realPlayer)
    requires !f.playerMustOrderTrainUltimate && !f.playerMustOrderTrainAbilities && !f.playerMustOrderGlyph
    ensures FilterOrder(f, order, realPlayer).accepted <==>
            (!f.playerOrderMustCastUltimate || order.orderType == CastNoTarget) && !f.ignorePlayerOrders
    ensures FilterOrder(f, order, realPlayer).flags == f
  {
  }

  /** Every rejection except the silent one of ignorePlayerOrders tells the
      player why; no accepted order shows an error. */
  lemma RejectionsExplainThemselves(f: OrderFlags, order: Order, realPlayer: Option<PlayerId>)
    ensures var v := FilterOrder(f, order, realPlayer);
      (v.message.Some? ==> !v.accepted) &&
      (!v.accepted && v.message.None? ==> f.ignorePlayerOrders)
  {
  }

  // ---------------------------------------------------------------------
  // The script steps that set the flags

  /** The steps of the section script that write the flags: the immediate
      steps, and the two completeOnCheck polls that clear a training flag
      when they see the training done. */
  datatype FlagStep =
    | ResetOnStart       // first step of onStart
    | IgnoreOrders       // hero walks back on its own after attacking the tower
    | BeginTraining      // ultimate unlocked: train it, then the other abilities
    | UltimateTrained    // the ultimate check saw Elder Dragon Form at level 1
    | AbilitiesTrained   // the ability check saw no ability points left
    | BeginCastUltimate  // the player must cast the ultimate
    | UltimateCast       // the hero is in dragon form
    | BeginGlyph         // the player must use the glyph

  /** The first step of onStart as the source writes it: five flags are
      reset, ignorePlayerOrders is left as it was. */
  function ResetOnStartAsWritten(f: OrderFlags): OrderFlags
  {
    f.(playerMustOrderTrainUltimate := false, playerMustOrderTrainAbilities := false,
       playerMustOrderGlyph := false, hasPlayerOrderedGlyphWhenMust := false,
       playerOrderMustCastUltimate := false)
  }

  /** The flags after one script step. ResetOnStart clears every flag,
      including ignorePlayerOrders (see ResetOnStartAsWritten). */
  function ApplyFlagStep(f: OrderFlags, step: FlagStep): OrderFlags
  {
    match step
    case ResetOnStart => InitialFlags
    case IgnoreOrders => f.(ignorePlayerOrders := true)
    case BeginTraining =>
      f.(ignorePlayerOrders := false, playerMustOrderTrainUltimate := true, playerMustOrderTrainAbilities := true)
    case UltimateTrained => f.(playerMustOrderTrainUltimate := false)
    case AbilitiesTrained => f.(playerMustOrderTrainAbilities := false)
    case BeginCastUltimate => f.(playerOrderMustCastUltimate := true)
    case UltimateCast => f.(playerOrderMustCastUltimate := false)
    case BeginGlyph => f.(playerMustOrderGlyph := true)
  }

  /** The flags after the steps, run first to last. */
  function ApplyFlagSteps(f: OrderFlags, steps: seq<FlagStep>): OrderFlags
  {
    if steps == [] then f else ApplyFlagStep(ApplyFlagSteps(f, steps[..|steps| - 1]), steps[|steps| - 1])
  }

  /** The flag steps of the section script, in the order it runs them. */
  const TowerFlagScript: seq<FlagStep> :=
    [ResetOnStart, IgnoreOrders, BeginTraining, UltimateTrained, AbilitiesTrained,
     BeginCastUltimate, UltimateCast, BeginGlyph]

  /** The flags at three points of the script: after the hero is sent back
      from the tower, once training begins, and once the glyph is due. */
  lemma TowerFlagScriptStages()
    ensures ApplyFlagSteps(InitialFlags, TowerFlagScript[..2]) == OrderFlags(true, false, false, false, false, false)
    ensures ApplyFlagSteps(InitialFlags, TowerFlagScript[..3]) == OrderFlags(false, true, true, false, false, false)
    ensures ApplyFlagSteps(InitialFlags, TowerFlagScript) == OrderFlags(false, false, false, true, false, false)
  {
    var s := TowerFlagScript;
    assert ApplyFlagSteps(InitialFlags, s[..0]) == InitialFlags;
    assert s[..1][..0] == s[..0];
    assert s[..2][..1] == s[..1];
    assert s[..3][..2] == s[..2];
    assert s[..4][..3] == s[..3];
    assert s[..5][..4] == s[..4];
    assert s[..6][..5] == s[..5];
    assert s[..7][..6] == s[..6];
    assert s[..8][..7] == s[..7];
    assert s[2] == BeginTraining && s[3] == UltimateTrained && s[4] == AbilitiesTrained;
    assert s[5] == BeginCastUltimate && s[6] == UltimateCast && s[7] == BeginGlyph;
    assert ApplyFlagSteps(InitialFlags, s[..1]) == InitialFlags;
    assert ApplyFlagSteps(InitialFlags, s[..2]) == OrderFlags(true, false, false, false, false, false);
    assert ApplyFlagSteps(InitialFlags, s[..3]) == OrderFlags(false, true, true, false, false, false);
    assert ApplyFlagSteps(InitialFlags, s[..4]) == OrderFlags(false, false, true, false, false, false);
    assert ApplyFlagSteps(InitialFlags, s[..5]) == OrderFlags(false, false, false, false, false, false);
    assert ApplyFlagSteps(InitialFlags, s[..6]) == OrderFlags(false, false, false, false, false, true);
    assert ApplyFlagSteps(InitialFlags, s[..7]) == OrderFlags(false, false, false, false, false, false);
    assert s[..8] == s;
  }

  /** After a restart every order passes until the script sets a flag again. */
  lemma RestartAcceptsEveryOrder(f: OrderFlags, order: Order, realPlayer: Option<PlayerId>)
    ensures FilterOrder(ApplyFlagStep(f, ResetOnStart), order, realPlayer) ==
            Verdict(true, None, ApplyFlagStep(f, ResetOnStart))
  {
  }

  /** The reset as written keeps a stale ignorePlayerOrders: stop the section
      after the hero was sent back from the tower (ignorePlayerOrders set) and
      before the ultimate is unlocked, start it again, and the real player's
      move order is rejected, so the hero cannot walk to the tower. */
  lemma StaleIgnoreFlagBlocksRestartedSection(player: PlayerId, target: Vec)
    ensures var stopped := ApplyFlagSteps(InitialFlags, TowerFlagScript[..2]);
      && stopped.ignorePlayerOrders
      && !FilterOrder(ResetOnStartAsWritten(stopped), Order(player, MoveToPosition, None, target), Some(player)).accepted
  {
    TowerFlagScriptStages();
  }

  /** The poll of the glyph step: it completes once the filter has let the
      player's glyph through. */
  function GlyphOrderedCheck(f: OrderFlags): bool
  {
    f.hasPlayerOrderedGlyphWhenMust
  }

  /** Walking the script: after BeginTraining only TRAIN_ABILITY orders pass;
      after BeginGlyph the glyph poll is still false, a GLYPH order passes and
      turns it true, and every other order is refused and leaves it false. */
  lemma {:induction false} ScriptStagesGateOrders(player: PlayerId, order: Order)
    requires order.issuer == player
    ensures var training := ApplyFlagSteps(InitialFlags, TowerFlagScript[..3]);
      FilterOrder(training, order, Some(player)).accepted ==>
      order.orderType == TrainAbility
    ensures var glyph := ApplyFlagSteps(InitialFlags, TowerFlagScript);
      var v := FilterOrder(glyph, order, Some(player));
      && !GlyphOrderedCheck(glyph)
      && (v.accepted <==> order.orderType == Glyph)
      && (GlyphOrderedCheck(v.flags) <==> v.accepted)
      && (v.accepted ==> !v.flags.playerMustOrderGlyph)
  {
    TowerFlagScriptStages();
  }

  // ---------------------------------------------------------------------
  // Goal progression

  datatype GoalKind = BooleanGoal | NumericGoal(target: nat)
  datatype GoalState = NotStarted | InProgress | Completed

  /** One entry of a GoalTracker. */
  datatype Goal = Goal(kind: GoalKind, state: GoalState, value: int)

  /** The calls the section makes on its goals: start(), setValue(v), complete(). */
  datatype GoalAction = Start(goal: nat) | SetValue(goal: nat, value: int) | Complete(goal: nat)

  /** The goals in the order onStart adds them: four boolean goals (attack
      the tower, wait to respawn, get back, hold Alt), the two numeric sneak
      goals with target 4, then seven boolean goals (from attacking the weak
      tower to destroying it). */
  const ArrivalGoals: seq<GoalKind> := [BooleanGoal, BooleanGoal, BooleanGoal, BooleanGoal]
  const SneakGoals: seq<GoalKind> := [NumericGoal(4), NumericGoal(4)]
  const AssaultGoals: seq<GoalKind> :=
    [BooleanGoal, BooleanGoal, BooleanGoal, BooleanGoal, BooleanGoal, BooleanGoal, BooleanGoal]
  const TowerGoals: seq<GoalKind> := ArrivalGoals + SneakGoals + AssaultGoals

  /** The goal calls of the section script, in the order its steps run them
      (goal 0 is goalAttemptToAttackTower, goal 12 goalDestroyTower). */
  const ArrivalGoalCalls: seq<GoalAction> :=
    [Start(0), Complete(0), Start(1), Complete(1), Start(2), Complete(2), Start(3), Complete(3)]
  const SneakGoalCalls: seq<GoalAction> :=
    [Start(4), SetValue(4, 1), SetValue(4, 2), SetValue(4, 3), SetValue(4, 4), Complete(4),
     Start(5), SetValue(5, 1), SetValue(5, 2), SetValue(5, 3), SetValue(5, 4), Complete(5)]
  const AssaultGoalCalls: seq<GoalAction> :=
    [Start(6), Complete(6), Start(7), Complete(7), Start(8), Complete(8), Start(9), Complete(9),
     Start(10), Complete(10), Start(11), Complete(11), Start(12), Complete(12)]
  const TowerGoalScript: seq<GoalAction> := ArrivalGoalCalls + SneakGoalCalls + AssaultGoalCalls

  function FreshGoals(kinds: seq<GoalKind>): seq<Goal>
  {
    seq(|kinds|, i requires 0 <= i < |kinds| => Goal(kinds[i], NotStarted, 0))
  }

  function TargetOf(kind: GoalKind): nat
  {
    if kind.NumericGoal? then kind.target else 0
  }

  /** Every goal completed, a numeric one at its target. */
  function CompletedGoals(kinds: seq<GoalKind>): seq<Goal>
  {
    seq(|kinds|, i requires 0 <= i < |kinds| => Goal(kinds[i], Completed, TargetOf(kinds[i])))
  }

  /** A goal's life cycle: start() on a goal not started, setValue() on a
      numeric goal in progress, complete() on a goal in progress. Any other
      call is not a step of the life cycle (None). */
  function ApplyGoalAction(goals: seq<Goal>, a: GoalAction): Option<seq<Goal>>
  {
    if a.goal >= |goals| then None
    else
      var g := goals[a.goal];
      match a
      case Start(i) => if g.state == NotStarted then Some(goals[i := g.(state := InProgress)]) else None
      case SetValue(i, v) =>
        if g.state == InProgress && g.kind.NumericGoal? then Some(goals[i := g.(value := v)]) else None
      case Complete(i) => if g.state == InProgress then Some(goals[i := g.(state := Completed)]) else None
  }

  function ReplayGoals(goals: seq<Goal>, actions: seq<GoalAction>): Option<seq<Goal>>
    decreases |actions|
  {
    if actions == [] then Some(goals)
    else
      match ApplyGoalAction(goals, actions[0])
      case None => None
      case Some(next) => ReplayGoals(next, actions[1..])
  }

  /** setValue(from), ..., setValue(target) on goal i. */
  function CountUp(i: nat, from: nat, target: nat): seq<GoalAction>
    decreases target + 1 - from
  {
    if from > target then [] else [SetValue(i, from)] + CountUp(i, from + 1, target)
  }

  /** One goal, start to finish: start, count a numeric goal up to its
      target one by one, complete. */
  function GoalRun(i: nat, kind: GoalKind): seq<GoalAction>
  {
    [Start(i)] + (if kind.NumericGoal? then CountUp(i, 1, kind.target) else []) + [Complete(i)]
  }

  /** The goals from index `from` on, each run to completion before the
      next one starts. */
  function RunInOrder(kinds: seq<GoalKind>, from: nat): seq<GoalAction>
  {
    if kinds == [] then [] else GoalRun(from, kinds[0]) + RunInOrder(kinds[1..], from + 1)
  }

  /** The script runs the goals strictly one after another, in the order
      they were added, counting each sneak goal 1, 2, 3, 4. */
  lemma TowerGoalScriptRunsGoalsInOrder()
    ensures TowerGoalScript == RunInOrder(TowerGoals, 0)
  {
    ArrivalGoalCallsInOrder();
    SneakGoalCallsInOrder();
    AssaultGoalCallsInOrder();
    RunInOrderConcat(ArrivalGoals, SneakGoals, 0);
    RunInOrderConcat(ArrivalGoals + SneakGoals, AssaultGoals, 0);
  }

  lemma {:induction false} RunInOrderConcat(a: seq<GoalKind>, b: seq<GoalKind>, from: nat)
    ensures RunInOrder(a + b, from) == RunInOrder(a, from) + RunInOrder(b, from + |a|)
    decreases |a|
  {
    if a == [] {
      assert a + b == b;
    } else {
      assert (a + b)[0] == a[0] && (a + b)[1..] == a[1..] + b;
      RunInOrderConcat(a[1..], b, from + 1);
    }
  }

  lemma ArrivalGoalCallsInOrder()
    ensures ArrivalGoalCalls == RunInOrder(ArrivalGoals, 0)
  {
    var s, kinds := ArrivalGoalCalls, ArrivalGoals;
    assert kinds[4..] == [] && s[8..] == [];
    BooleanSegment(s, kinds, 0, 3, 6);
    BooleanSegment(s, kinds, 0, 2, 4);
    BooleanSegment(s, kinds, 0, 1, 2);
    BooleanSegment(s, kinds, 0, 0, 0);
    assert s[0..] == s && kinds[0..] == kinds;
  }

  lemma SneakGoalCallsInOrder()
    ensures SneakGoalCalls == RunInOrder(SneakGoals, 4)
  {
    var s, kinds := SneakGoalCalls, SneakGoals;
    assert kinds[2..] == [] && s[12..] == [];
    SneakSegment(s, kinds, 4, 1, 6);
    SneakSegment(s, kinds, 4, 0, 0);
    assert s[0..] == s && kinds[0..] == kinds;
  }

  lemma AssaultGoalCallsInOrder()
    ensures AssaultGoalCalls == RunInOrder(AssaultGoals, 6)
  {
    var s, kinds := AssaultGoalCalls, AssaultGoals;
    assert kinds[7..] == [] && s[14..] == [];
    BooleanSegment(s, kinds, 6, 6, 12);
    BooleanSegment(s, kinds, 6, 5, 10);
    BooleanSegment(s, kinds, 6, 4, 8);
    BooleanSegment(s, kinds, 6, 3, 6);
    BooleanSegment(s, kinds, 6, 2, 4);
    BooleanSegment(s, kinds, 6, 1, 2);
    BooleanSegment(s, kinds, 6, 0, 0);
    assert s[0..] == s && kinds[0..] == kinds;
  }

  /** The k-th boolean goal of `kinds` (goal base + k) is started and
      completed at positions p and p + 1 of s. */
  lemma BooleanSegment(s: seq<GoalAction>, kinds: seq<GoalKind>, base: nat, k: nat, p: nat)
    requires k < |kinds| && p + 2 <= |s|
    requires kinds[k] == BooleanGoal
    requires s[p] == Start(base + k) && s[p + 1] == Complete(base + k)
    requires s[p + 2..] == RunInOrder(kinds[k + 1..], base + k + 1)
    ensures s[p..] == RunInOrder(kinds[k..], base + k)
  {
    assert s[p..p + 2] == [Start(base + k), Complete(base + k)] == GoalRun(base + k, BooleanGoal);
    RunSegment(s, kinds, base, k, p, p + 2);
  }

  /** The k-th goal of `kinds`, a sneak goal, is started, counted 1 to 4 and
      completed at positions p to p + 5 of s. */
  lemma SneakSegment(s: seq<GoalAction>, kinds: seq<GoalKind>, base: nat, k: nat, p: nat)
    requires k < |kinds| && p + 6 <= |s|
    requires kinds[k] == NumericGoal(4)
    requires var g := base + k;
      s[p] == Start(g) && s[p + 1] == SetValue(g, 1) && s[p + 2] == SetValue(g, 2) &&
      s[p + 3] == SetValue(g, 3) && s[p + 4] == SetValue(g, 4) && s[p + 5] == Complete(g)
    requires s[p + 6..] == RunInOrder(kinds[k + 1..], base + k + 1)
    ensures s[p..] == RunInOrder(kinds[k..], base + k)
  {
    assert CountUp(base + k, 5, 4) == [];
    assert s[p..p + 6] == GoalRun(base + k, NumericGoal(4));
    RunSegment(s, kinds, base, k, p, p + 6);
  }

  /** The run of goal base + k occupies positions p to q of s. */
  lemma RunSegment(s: seq<GoalAction>, kinds: seq<GoalKind>, base: nat, k: nat, p: nat, q: nat)
    requires k < |kinds| && p <= q <= |s|
    requires s[q..] == RunInOrder(kinds[k + 1..], base + k + 1)
    requires s[p..q] == GoalRun(base + k, kinds[k])
    ensures s[p..] == RunInOrder(kinds[k..], base + k)
  {
    assert kinds[k..][0] == kinds[k] && kinds[k..][1..] == kinds[k + 1..];
    assert s[p..] == s[p..q] + s[q..];
  }

  lemma {:induction false} ReplayConcat(goals: seq<Goal>, a: seq<GoalAction>, b: seq<GoalAction>)
    ensures ReplayGoals(goals, a + b) ==
            match ReplayGoals(goals, a) case None => None case Some(g) => ReplayGoals(g, b)
    decreases |a|
  {
    if a != [] {
      assert (a + b)[0] == a[0] && (a + b)[1..] == a[1..] + b;
      match ApplyGoalAction(goals, a[0])
      case None =>
      case Some(next) => ReplayConcat(next, a[1..], b);
    } else {
      assert a + b == b;
    }
  }

  lemma {:induction false} CountUpSetsTarget(goals: seq<Goal>, i: nat, from: nat, target: nat)
    requires i < |goals| && goals[i].state == InProgress && goals[i].kind.NumericGoal?
    ensures ReplayGoals(goals, CountUp(i, from, target)) ==
            Some(if from <= target then goals[i := goals[i].(value := target)] else goals)
    decreases target + 1 - from
  {
    if from <= target {
      var next := goals[i := goals[i].(value := from)];
      assert CountUp(i, from, target)[0] == SetValue(i, from);
      assert CountUp(i, from, target)[1..] == CountUp(i, from + 1, target);
      CountUpSetsTarget(next, i, from + 1, target);
      if from + 1 > target {
        assert next == goals[i := goals[i].(value := target)];
      } else {
        assert next[i := next[i].(value := target)] == goals[i := goals[i].(value := target)];
      }
    }
  }

  lemma {:induction false} GoalRunCompletes(goals: seq<Goal>, i: nat, kind: GoalKind)
    requires i < |goals| && goals[i] == Goal(kind, NotStarted, 0)
    ensures ReplayGoals(goals, GoalRun(i, kind)) == Some(goals[i := Goal(kind, Completed, TargetOf(kind))])
  {
    var started := goals[i := Goal(kind, InProgress, 0)];
    var middle := if kind.NumericGoal? then CountUp(i, 1, kind.target) else [];
    ReplayConcat(goals, [Start(i)] + middle, [Complete(i)]);
    ReplayConcat(goals, [Start(i)], middle);
    assert ReplayGoals(goals, [Start(i)]) == Some(started) by {
      assert [Start(i)][1..] == [];
    }
    var counted := started[i := Goal(kind, InProgress, TargetOf(kind))];
    if kind.NumericGoal? {
      CountUpSetsTarget(started, i, 1, kind.target);
      if kind.target == 0 {
        assert started == counted;
      }
    } else {
      assert started == counted;
    }
    assert ReplayGoals(started, middle) == Some(counted);
    assert ReplayGoals(counted, [Complete(i)]) == Some(goals[i := Goal(kind, Completed, TargetOf(kind))]) by {
      assert [Complete(i)][1..] == [];
      assert counted[i := counted[i].(state := Completed)] == goals[i := Goal(kind, Completed, TargetOf(kind))];
    }
  }

  lemma {:induction false} RunInOrderCompletesAll(done: seq<Goal>, kinds: seq<GoalKind>)
    ensures ReplayGoals(done + FreshGoals(kinds), RunInOrder(kinds, |done|)) == Some(done + CompletedGoals(kinds))
    decreases |kinds|
  {
    if kinds == [] {
      assert done + FreshGoals(kinds) == done + CompletedGoals(kinds);
    } else {
      var goals := done + FreshGoals(kinds);
      var finished := Goal(kinds[0], Completed, TargetOf(kinds[0]));
      ReplayConcat(goals, GoalRun(|done|, kinds[0]), RunInOrder(kinds[1..], |done| + 1));
      GoalRunCompletes(goals, |done|, kinds[0]);
      assert goals[|done| := finished] == (done + [finished]) + FreshGoals(kinds[1..]);
      RunInOrderCompletesAll(done + [finished], kinds[1..]);
      assert (done + [finished]) + CompletedGoals(kinds[1..]) == done + CompletedGoals(kinds);
    }
  }

  /** Replaying the script on the freshly added goals is a legal walk
      through every goal's life cycle, and it leaves all thirteen goals
      completed, the two sneak goals at their target of 4. */
  lemma TowerGoalsAllCompleteInOrder()
    ensures ReplayGoals(FreshGoals(TowerGoals), TowerGoalScript) == Some(CompletedGoals(TowerGoals))
    ensures CompletedGoals(TowerGoals)[4].value == 4 && CompletedGoals(TowerGoals)[5].value == 4
  {
    TowerGoalScriptRunsGoalsInOrder();
    RunInOrderCompletesAll([], TowerGoals);
    assert [] + FreshGoals(TowerGoals) == FreshGoals(TowerGoals);
    assert [] + CompletedGoals(TowerGoals) == CompletedGoals(TowerGoals);
  }

  // ---------------------------------------------------------------------
  // The radiant creep wave

  /** `creeps.filter(creep => IsValidEntity(creep) && creep.IsAlive())`. */
  function LiveCreeps(creeps: seq<Entity>, valid: set<Entity>, alive: set<Entity>): seq<Entity>
  {
    if creeps == [] then []
    else (if Util.UnitIsValidAndAlive(Some(creeps[0]), valid, alive) then [creeps[0]] else []) +
         LiveCreeps(creeps[1..], valid, alive)
  }

  /** The filter keeps exactly the valid, living creeps, and
      filtering twice changes nothing. */
  lemma {:induction false} LiveCreepsKeepsTheLiving(creeps: seq<Entity>, valid: set<Entity>, alive: set<Entity>)
    ensures forall c :: c in LiveCreeps(creeps, valid, alive) <==> c in creeps && c in valid && c in alive
    ensures |LiveCreeps(creeps, valid, alive)| <= |creeps|
    ensures LiveCreeps(LiveCreeps(creeps, valid, alive), valid, alive) == LiveCreeps(creeps, valid, alive)
  {
    if creeps != [] {
      LiveCreepsKeepsTheLiving(creeps[1..], valid, alive);
      var rest := LiveCreeps(creeps[1..], valid, alive);
      if Util.UnitIsValidAndAlive(Some(creeps[0]), valid, alive) {
        assert ([creeps[0]] + rest)[0] == creeps[0] && ([creeps[0]] + rest)[1..] == rest;
        assert LiveCreeps([creeps[0]] + rest, valid, alive) == [creeps[0]] + LiveCreeps(rest, valid, alive);
      } else {
        assert [] + rest == rest;
      }
      assert forall c :: c in creeps <==> c == creeps[0] || c in creeps[1..];
    }
  }

  /** The filter keeps the creeps in their order: filtering two lists one
      after the other is filtering each and joining the results. */
  lemma {:induction false} LiveCreepsKeepsOrder(a: seq<Entity>, b: seq<Entity>, valid: set<Entity>, alive: set<Entity>)
    ensures LiveCreeps(a + b, valid, alive) == LiveCreeps(a, valid, alive) + LiveCreeps(b, valid, alive)
  {
    if a != [] {
      assert (a + b)[0] == a[0] && (a + b)[1..] == a[1..] + b;
      LiveCreepsKeepsOrder(a[1..], b, valid, alive);
    } else {
      assert a + b == b;
    }
  }

  /** The entities the context holds under a key; none when the key is absent. */
  function KeyMembers(context: map<ContextKey, ContextValue>, key: ContextKey): seq<Entity>
  {
    if key in context then Members(context[key]) else []
  }

  // ---------------------------------------------------------------------
  // The section state

  /** The section's state: the module flags, the radiant creeps its script
      keeps, and the HUD errors the filter has shown. */
  class TowerSection {
    var ignorePlayerOrders: bool
    var playerMustOrderTrainUltimate: bool
    var playerMustOrderTrainAbilities: bool
    var playerMustOrderGlyph: bool
    var hasPlayerOrderedGlyphWhenMust: bool
    var playerOrderMustCastUltimate: bool
    var radiantCreeps: seq<Entity>
    var feedback: seq<Feedback>

    function Flags(): OrderFlags
      reads this
    {
      OrderFlags(ignorePlayerOrders, playerMustOrderTrainUltimate, playerMustOrderTrainAbilities,
                 playerMustOrderGlyph, hasPlayerOrderedGlyphWhenMust, playerOrderMustCastUltimate)
    }

    constructor ()
      ensures Flags() == InitialFlags && radiantCreeps == [] && feedback == []
    {
      ignorePlayerOrders := false;
      playerMustOrderTrainUltimate := false;
      playerMustOrderTrainAbilities := false;
      playerMustOrderGlyph := false;
      hasPlayerOrderedGlyphWhenMust := false;
      playerOrderMustCastUltimate := false;
      radiantCreeps := [];
      feedback := [];
    }

    method ShowError(message: string)
      modifies this`feedback
      ensures feedback == old(feedback) + [HudError(message)]
    {
      feedback := feedback + [HudError(message)];
    }

    /** chapter2TowerOrderFilter. `realPlayer` is what findRealPlayerID
        returns at the time of the call. */
    method Chapter2TowerOrderFilter(order: Order, realPlayer: Option<PlayerId>) returns (accepted: bool)
      modifies this
      ensures var v := FilterOrder(old(Flags()), order, realPlayer);
        && accepted == v.accepted
        && Flags() == v.flags
        && feedback == old(feedback) + (if v.message.Some? then [HudError(v.message.value)] else [])
      ensures radiantCreeps == old(radiantCreeps)
    {
      if realPlayer != Some(order.issuer) {
        return true;
      }
      if playerMustOrderTrainUltimate {
        if order.orderType != TrainAbility {
          ShowError(UpgradeUltimateMessage);
          return false;
        }
        if order.ability.Some? {
          if order.ability.value == ElderDragonForm {
            return true;
          } else {
            ShowError(UpgradeUltimateMessage);
            return false;
          }
        }
      }
      if playerMustOrderTrainAbilities {
        if order.orderType != TrainAbility {
          ShowError(UpgradeAbilitiesMessage);
          return false;
        }
        return true;
      }
      if playerMustOrderGlyph {
        if order.orderType != Glyph {
          ShowError(UseGlyphMessage);
          return false;
        }
        playerMustOrderGlyph := false;
        hasPlayerOrderedGlyphWhenMust := true;
        return true;
      }
      if playerOrderMustCastUltimate {
        if order.orderType != CastNoTarget {
          ShowError(CastUltimateMessage);
          return false;
        }
      }
      if ignorePlayerOrders {
        return false;
      }
      return true;
    }

    /** One of the script steps that write the flags. */
    method RunFlagStep(step: FlagStep)
      modifies this
      ensures Flags() == ApplyFlagStep(old(Flags()), step)
      ensures radiantCreeps == old(radiantCreeps) && feedback == old(feedback)
    {
      match step
      case ResetOnStart =>
        ignorePlayerOrders := false;
        playerMustOrderTrainUltimate := false;
        playerMustOrderTrainAbilities := false;
        playerMustOrderGlyph := false;
        hasPlayerOrderedGlyphWhenMust := false;
        playerOrderMustCastUltimate := false;
      case IgnoreOrders =>
        ignorePlayerOrders := true;
      case BeginTraining =>
        ignorePlayerOrders := false;
        playerMustOrderTrainUltimate := true;
        playerMustOrderTrainAbilities := true;
      case UltimateTrained =>
        playerMustOrderTrainUltimate := false;
      case AbilitiesTrained =>
        playerMustOrderTrainAbilities := false;
      case BeginCastUltimate =>
        playerOrderMustCastUltimate := true;
      case UltimateCast =>
        playerOrderMustCastUltimate := false;
      case BeginGlyph =>
        playerMustOrderGlyph := true;
    }

    /** The first step of onStart: freeze the hero, reset the flags and kill
        the lane creeps left over from the previous section. When there is no
        hero the script aborts before anything else happens. */
    method StartSection(w: World, hero: Util.PlayerHero) returns (outcome: Result<(), string>)
      modifies this, w, hero
      ensures hero.hero == old(hero.hero)
      ensures outcome.Failure? <==> old(hero.hero).None?
      ensures outcome.Failure? ==>
        && outcome.error == "Could not find player hero"
        && unchanged(this) && unchanged(w) && unchanged(hero)
      ensures outcome.Success? ==>
        && hero.IsPlayerHeroFrozen() && hero.pacifist && hero.moveCapability == Util.MoveNone
        && hero.stopOrders == old(hero.stopOrders) + 1
        && Flags() == InitialFlags
        && w.context == old(w.context) - {Chapter2RadiantCreeps, Chapter2DireCreeps}
      ensures outcome.Success? ==>
        var radiant := KeyMembers(old(w.context), Chapter2RadiantCreeps);
        var dire := KeyMembers(old(w.context), Chapter2DireCreeps);
        && w.valid == old(w.valid) - Elements(radiant) - Elements(dire)
        && w.alive == old(w.alive) - ((Elements(radiant) + Elements(dire)) * old(w.valid))
        && w.removed == old(w.removed) + Util.Removals(radiant, old(w.valid))
                                      + Util.Removals(dire, old(w.valid) - Elements(radiant))
      ensures radiantCreeps == old(radiantCreeps) && feedback == old(feedback)
    {
      outcome := hero.FreezePlayerHero(true);
      if outcome.Failure? {
        return;
      }
      RunFlagStep(ResetOnStart);
      ghost var radiant := KeyMembers(w.context, Chapter2RadiantCreeps);
      ghost var dire := KeyMembers(w.context, Chapter2DireCreeps);
      ghost var removed0, valid0 := w.removed, w.valid;
      assert Util.Removals([], valid0) == [];
      Util.RemoveContextEntityIfExists(w, Chapter2RadiantCreeps);
      ghost var removed1 := w.removed;
      assert removed1 == removed0 + Util.Removals(radiant, valid0);
      assert Elements([]) == {};
      assert w.valid == valid0 - Elements(radiant);
      assert Util.Removals([], w.valid) == [];
      Util.RemoveContextEntityIfExists(w, Chapter2DireCreeps);
      assert w.removed == removed1 + Util.Removals(dire, valid0 - Elements(radiant));
    }

    /** createRadiantLaneCreeps: spawn a wave (the handles the engine hands
        out are `spawned`) and publish it in the context. */
    method CreateRadiantLaneCreeps(w: World, spawned: seq<Entity>) returns (creeps: seq<Entity>)
      requires forall e :: e in spawned ==> e !in w.valid
      modifies w
      ensures creeps == spawned
      ensures w.context == old(w.context)[Chapter2RadiantCreeps := Many(spawned)]
      ensures w.valid == old(w.valid) + Elements(spawned) && w.alive == old(w.alive) + Elements(spawned)
      ensures w.removed == old(w.removed)
    {
      w.Spawn(spawned);
      w.Put(Chapter2RadiantCreeps, Many(spawned));
      creeps := spawned;
    }

    /** One tick of the radiant creep timer: keep only the valid, living
        creeps and publish them; when none is left, send a new wave (the
        handles the engine would hand out are `newWave`). The timer always
        asks to run again in 0.5 seconds. */
    method RadiantCreepTick(w: World, newWave: seq<Entity>) returns (nextInterval: real)
      requires forall e :: e in newWave ==> e !in w.valid
      modifies this, w
      ensures var live := LiveCreeps(old(radiantCreeps), old(w.valid), old(w.alive));
        && (live != [] ==>
              && radiantCreeps == live
              && w.context == old(w.context)[Chapter2RadiantCreeps := Many(live)]
              && w.valid == old(w.valid) && w.alive == old(w.alive))
        && (live == [] ==>
              && radiantCreeps == newWave
              && w.context == old(w.context)[Chapter2RadiantCreeps := Many(newWave)]
              && w.valid == old(w.valid) + Elements(newWave) && w.alive == old(w.alive) + Elements(newWave))
      ensures w.removed == old(w.removed)
      ensures Flags() == old(Flags()) && feedback == old(feedback)
      ensures nextInterval == 0.5
    {
      radiantCreeps := LiveCreeps(radiantCreeps, w.valid, w.alive);
      w.Put(Chapter2RadiantCreeps, Many(radiantCreeps));
      if |radiantCreeps| == 0 {
        radiantCreeps := CreateRadiantLaneCreeps(w, newWave);
      }
      return 0.5;
    }
  }
}
