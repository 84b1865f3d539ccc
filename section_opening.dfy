/** Chapter 4, "Opening": the scan lesson. The order filter lets the real
    player's radar scan through only when it lands close enough to the
    location the script asks for, the script polls the same check to move
    on, and the section cleans up the creeps and the two juke heroes it
    spawned. */
module SectionOpening {
  import opened Wrappers
  import opened Engine
  import Util

  /** The scan radius is 900; the check asks for 500 so that the heroes at
      the target are surely revealed. */
  const ScanCheckRadius: nat := 500
  const FirstScanLocation := Vec(2000, 3800, 0)
  const SecondScanLocation := Vec(-2000, 3800, 0)
  const ScanRequiredMessage := "Scan the required location"
  const ScanMissedVoiceLine := "Script_4_Opening_15"
  const MiranaName := "npc_dota_hero_mirana"
  const SlarkName := "npc_dota_hero_slark"

  /** The two heroes spawned to show a juke. */
  const JukeDuo: seq<string> := [MiranaName, SlarkName]

  function Square(d: int): nat
  {
    if d < 0 then (-d) * (-d) else d * d
  }

  /** `scan.__sub(target).Length2D() < 500`, compared on squares: the
      height is ignored. */
  predicate WithinScanRange(scan: Vec, target: Vec)
  {
    Square(scan.x - target.x) + Square(scan.y - target.y) < ScanCheckRadius * ScanCheckRadius
  }

  /** Where a radar order scans: `Vector(position_x, position_y)`. */
  function ScanPoint(order: Order): Vec
  {
    Vec(order.position.x, order.position.y, 0)
  }

  /** The module variables the filter and the checks share. */
  datatype OpeningState = OpeningState(
    canPlayerIssueOrders: bool,
    scanLocation: Option<Vec>,
    currentRequiredScanLocation: Vec)

  /** The module's initial values. */
  const InitialState := OpeningState(true, None, FirstScanLocation)

  /** A boolean answer, the state after it and the feedback it gave. */
  datatype Outcome = Outcome(result: bool, state: OpeningState, feedback: seq<Feedback>)

  /** checkIfScanCoversTheLocation. With no scan pending the answer is no. A
      pending scan close enough to the target is a yes and stays pending; one
      too far away is a no: the player is told to scan the required
      location, the guide says so too, and the scan is dropped. */
  function CheckScanCovers(s: OpeningState, target: Vec): Outcome
  {
    match s.scanLocation
    case None => Outcome(false, s, [])
    case Some(scan) =>
      if WithinScanRange(scan, target) then Outcome(true, s, [])
      else Outcome(false, s.(scanLocation := None), [HudError(ScanRequiredMessage), VoiceLine(ScanMissedVoiceLine)])
  }

  /** orderFilter: another player's order passes; the real player's radar
      order records the scan and passes exactly when it covers the location
      currently required; any other order of the real player passes while
      canPlayerIssueOrders is set. */
  function FilterOrder(s: OpeningState, order: Order, realPlayer: Option<PlayerId>): Outcome
  {
    if !IsPlayerOrder(order, realPlayer) then Outcome(true, s, [])
    else if order.orderType == Radar then
      CheckScanCovers(s.(scanLocation := Some(ScanPoint(order))), s.currentRequiredScanLocation)
    else Outcome(s.canPlayerIssueOrders, s, [])
  }

  // ---------------------------------------------------------------------
  // Properties of the scan check and the filter

  /** The scan check answers yes exactly for a pending scan within range; a
      yes keeps the scan and is silent, a no drops the scan, and the player
      hears about it exactly when there was a scan to drop. Nothing else in
      the state changes. */
  lemma ScanCheckAnswersCoverage(s: OpeningState, target: Vec)
    ensures var o := CheckScanCovers(s, target);
      && (o.result <==> s.scanLocation.Some? && WithinScanRange(s.scanLocation.value, target))
      && (o.result ==> o.state == s && o.feedback == [])
      && (!o.result ==> o.state == s.(scanLocation := None))
      && (o.feedback != [] <==> s.scanLocation.Some? && !o.result)
  {
  }

  /** Orders of anyone but the real player pass and change nothing. */
  lemma OtherPlayersOrdersPass(s: OpeningState, order: Order, realPlayer: Option<PlayerId>)
    requires !IsPlayerOrder(order, realPlayer)
    ensures FilterOrder(s, order, realPlayer) == Outcome(true, s, [])
  {
  }

  /** The real player's other orders pass exactly while orders are allowed. */
  lemma OtherOrdersFollowCanPlayerIssueOrders(s: OpeningState, order: Order, realPlayer: Option<PlayerId>)
    requires IsPlayerOrder(order, realPlayer) && order.orderType != Radar
    ensures var o := FilterOrder(s, order, realPlayer);
      (o.result <==> s.canPlayerIssueOrders) && o.state == s && o.feedback == []
  {
  }

  /** The real player's radar order passes exactly when it lands within range
      of the required location, whether or not other orders are allowed. A
      hit leaves the scan pending; a miss is reported and leaves none. */
  lemma RadarOrderPassesIffItCovers(s: OpeningState, order: Order, realPlayer: Option<PlayerId>)
    requires IsPlayerOrder(order, realPlayer) && order.orderType == Radar
    ensures var o := FilterOrder(s, order, realPlayer);
      && (o.result <==> WithinScanRange(ScanPoint(order), s.currentRequiredScanLocation))
      && o.state.canPlayerIssueOrders == s.canPlayerIssueOrders
      && o.state.currentRequiredScanLocation == s.currentRequiredScanLocation
      && (o.result ==> o.state.scanLocation == Some(ScanPoint(order)) && o.feedback == [])
      && (!o.result ==> o.state.scanLocation == None &&
                        o.feedback == [HudError(ScanRequiredMessage), VoiceLine(ScanMissedVoiceLine)])
  {
  }

  /** The script's poll after a radar order agrees with the filter's answer
      and never repeats the error: the filter already dropped a missed scan. */
  lemma PollAgreesWithFilter(s: OpeningState, order: Order, realPlayer: Option<PlayerId>)
    requires IsPlayerOrder(order, realPlayer) && order.orderType == Radar
    ensures var o := FilterOrder(s, order, realPlayer);
      var poll := CheckScanCovers(o.state, s.currentRequiredScanLocation);
      poll.result == o.result && poll.state == o.state && poll.feedback == []
  {
  }

  /** The two required locations are far apart: a scan aimed exactly at the
      first does not count for the second, and the other way round. */
  lemma ScanLocationsAreDistinct()
    ensures WithinScanRange(FirstScanLocation, FirstScanLocation)
    ensures !WithinScanRange(FirstScanLocation, SecondScanLocation)
    ensures !WithinScanRange(SecondScanLocation, FirstScanLocation)
  {
  }

  // ---------------------------------------------------------------------
  // The script steps that write the module variables

  datatype ScriptStep =
    | StartSection     // onStart: the first location is required
    | BlockOrders      // the camera follows the creep wave
    | AllowOrders      // the scan lesson begins
    | ClearScan        // the first scan is asked for
    | BeginSecondScan  // the second scan is asked for

  function ApplyStep(s: OpeningState, step: ScriptStep): OpeningState
  {
    match step
    case StartSection => s.(currentRequiredScanLocation := FirstScanLocation)
    case BlockOrders => s.(canPlayerIssueOrders := false)
    case AllowOrders => s.(canPlayerIssueOrders := true)
    case ClearScan => s.(scanLocation := None)
    case BeginSecondScan => s.(scanLocation := None, currentRequiredScanLocation := SecondScanLocation)
  }

  /** When the second scan is asked for, the scan that satisfied the first
      request is forgotten: the poll says no, silently, until the player
      scans again; and the filter now measures against the second location. */
  lemma SecondScanStartsFresh(s: OpeningState, order: Order, realPlayer: Option<PlayerId>)
    requires IsPlayerOrder(order, realPlayer) && order.orderType == Radar
    ensures var t := ApplyStep(s, BeginSecondScan);
      CheckScanCovers(t, SecondScanLocation) == Outcome(false, t, [])
    ensures var t := ApplyStep(s, BeginSecondScan);
      FilterOrder(t, order, realPlayer).result <==> WithinScanRange(ScanPoint(order), SecondScanLocation)
  {
  }

  /** While the creeps are watched, the real player can do nothing but scan. */
  lemma BlockedOrdersExceptRadar(s: OpeningState, order: Order, realPlayer: Option<PlayerId>)
    requires IsPlayerOrder(order, realPlayer) && order.orderType != Radar
    ensures !FilterOrder(ApplyStep(s, BlockOrders), order, realPlayer).result
    ensures FilterOrder(ApplyStep(s, AllowOrders), order, realPlayer).result
  {
  }

  // ---------------------------------------------------------------------
  // The creeps and heroes the section spawns

  predicate IsRadiantLaneCreep(e: Entity)
  {
    e.unitName == RadiantMeleeCreep || e.unitName == RadiantRangedCreep
  }

  /** The creatures, in the order the engine lists them, that are valid,
      alive and radiant lane creeps. */
  function RadiantLaneCreeps(found: seq<Entity>, valid: set<Entity>, alive: set<Entity>): seq<Entity>
  {
    if found == [] then []
    else
      var init, last := found[..|found| - 1], found[|found| - 1];
      RadiantLaneCreeps(init, valid, alive) +
      (if Util.UnitIsValidAndAlive(Some(last), valid, alive) && IsRadiantLaneCreep(last) then [last] else [])
  }

  /** Exactly the valid, living radiant creeps are collected, and each is one
      of the custom lane creeps. */
  lemma {:induction false} RadiantLaneCreepsAreTheLivingRadiantCreeps(found: seq<Entity>, valid: set<Entity>, alive: set<Entity>)
    ensures forall e :: e in RadiantLaneCreeps(found, valid, alive) <==>
      e in found && e in valid && e in alive && IsRadiantLaneCreep(e)
    ensures forall e :: e in RadiantLaneCreeps(found, valid, alive) ==> Util.IsCustomLaneCreepUnit(e)
  {
    if found != [] {
      RadiantLaneCreepsAreTheLivingRadiantCreeps(found[..|found| - 1], valid, alive);
      assert found == found[..|found| - 1] + [found[|found| - 1]];
    }
  }

  /** The creeps are collected in the engine's order: collecting from two
      lists one after the other is collecting from each and joining. */
  lemma {:induction false} RadiantLaneCreepsKeepOrder(a: seq<Entity>, b: seq<Entity>, valid: set<Entity>, alive: set<Entity>)
    ensures RadiantLaneCreeps(a + b, valid, alive) == RadiantLaneCreeps(a, valid, alive) + RadiantLaneCreeps(b, valid, alive)
  {
    if b == [] {
      assert a + b == a;
    } else {
      var init := b[..|b| - 1];
      assert (a + b)[..|a + b| - 1] == a + init && (a + b)[|a + b| - 1] == b[|b| - 1];
      RadiantLaneCreepsKeepOrder(a, init, valid, alive);
    }
  }

  /** The context keys of entities stored under their own names. */
  function NameKeys(es: seq<Entity>): set<ContextKey>
  {
    set e | e in es :: Named(e.name)
  }

  /** The juke heroes disposeHeroes finds: for each name in turn, the hero
      the context holds under it, when that hero is alive. */
  function JukeHeroes(names: seq<string>, context: map<ContextKey, ContextValue>, alive: set<Entity>): seq<Entity>
  {
    if names == [] then []
    else
      var init, key := names[..|names| - 1], Named(names[|names| - 1]);
      JukeHeroes(init, context, alive) +
      (if key in context && context[key].Single? && context[key].entity in alive then [context[key].entity] else [])
  }

  function Keys(names: seq<string>): set<ContextKey>
  {
    set n | n in names :: Named(n)
  }

  /** The heroes disposeHeroes removes are exactly the living, valid heroes
      stored under the juke names, each once. */
  lemma {:induction false} JukeHeroesRemoved(names: seq<string>, context: map<ContextKey, ContextValue>, alive: set<Entity>, valid: set<Entity>)
    ensures forall e :: e in Util.Removals(JukeHeroes(names, context, alive), valid) <==>
      e in valid && e in alive &&
      exists n :: n in names && Named(n) in context && context[Named(n)] == Single(e)
  {
    Util.RemovalsAreTheValidMembers(JukeHeroes(names, context, alive), valid);
    JukeHeroesAreTheLivingOnes(names, context, alive);
  }

  lemma {:induction false} JukeHeroesAreTheLivingOnes(names: seq<string>, context: map<ContextKey, ContextValue>, alive: set<Entity>)
    ensures forall e :: e in JukeHeroes(names, context, alive) <==>
      e in alive && exists n :: n in names && Named(n) in context && context[Named(n)] == Single(e)
  {
    if names != [] {
      var init, last := names[..|names| - 1], names[|names| - 1];
      JukeHeroesAreTheLivingOnes(init, context, alive);
      assert names == init + [last];
      forall e | e in alive && exists n :: n in names && Named(n) in context && context[Named(n)] == Single(e)
        ensures e in JukeHeroes(names, context, alive)
      {
        var n :| n in names && Named(n) in context && context[Named(n)] == Single(e);
        if n != last {
          assert n in init;
        }
      }
    }
  }

  // ---------------------------------------------------------------------
  // The section state

  /** The section's state: the module variables, the radiant creeps it
      collected, and the feedback the player got. */
  class OpeningSection {
    var canPlayerIssueOrders: bool
    var scanLocation: Option<Vec>
    var currentRequiredScanLocation: Vec
    var radiantCreeps: seq<Entity>
    var feedback: seq<Feedback>

    function State(): OpeningState
      reads this
    {
      OpeningState(canPlayerIssueOrders, scanLocation, currentRequiredScanLocation)
    }

    constructor ()
      ensures State() == InitialState && radiantCreeps == [] && feedback == []
    {
      canPlayerIssueOrders := true;
      scanLocation := None;
      currentRequiredScanLocation := FirstScanLocation;
      radiantCreeps := [];
      feedback := [];
    }

    /** checkIfScanCoversTheLocation. */
    method CheckIfScanCoversTheLocation(target: Vec) returns (covered: bool)
      modifies this`scanLocation, this`feedback
      ensures var o := CheckScanCovers(old(State()), target);
        covered == o.result && State() == o.state && feedback == old(feedback) + o.feedback
    {
      if scanLocation.Some? {
        if WithinScanRange(scanLocation.value, target) {
          return true;
        }
        feedback := feedback + [HudError(ScanRequiredMessage)];
        feedback := feedback + [VoiceLine(ScanMissedVoiceLine)];
        scanLocation := None;
      }
      return false;
    }

    /** orderFilter. `realPlayer` is what findRealPlayerID returns at the
        time of the call. */
    method OrderFilter(order: Order, realPlayer: Option<PlayerId>) returns (accepted: bool)
      modifies this`scanLocation, this`feedback
      ensures var o := FilterOrder(old(State()), order, realPlayer);
        accepted == o.result && State() == o.state && feedback == old(feedback) + o.feedback
    {
      if realPlayer != Some(order.issuer) {
        return true;
      }
      if order.orderType == Radar {
        scanLocation := Some(ScanPoint(order));
        accepted := CheckIfScanCoversTheLocation(currentRequiredScanLocation);
        return;
      }
      return canPlayerIssueOrders;
    }

    /** One of the script steps that write the module variables. */
    method RunStep(step: ScriptStep)
      modifies this`canPlayerIssueOrders, this`scanLocation, this`currentRequiredScanLocation
      ensures State() == ApplyStep(old(State()), step)
    {
      match step
      case StartSection => currentRequiredScanLocation := FirstScanLocation;
      case BlockOrders => canPlayerIssueOrders := false;
      case AllowOrders => canPlayerIssueOrders := true;
      case ClearScan => scanLocation := None;
      case BeginSecondScan =>
        scanLocation := None;
        currentRequiredScanLocation := SecondScanLocation;
    }

    /** The step after the creep wave spawns: every creature the engine
        lists (`found`) that is a valid, living radiant lane creep is added to
        radiantCreeps. */
    method CollectRadiantCreeps(w: World, found: seq<Entity>)
      modifies this`radiantCreeps
      ensures radiantCreeps == old(radiantCreeps) + RadiantLaneCreeps(found, w.valid, w.alive)
    {
      var i := 0;
      while i < |found|
        invariant 0 <= i <= |found|
        invariant radiantCreeps == old(radiantCreeps) + RadiantLaneCreeps(found[..i], w.valid, w.alive)
      {
        assert found[..i + 1][..i] == found[..i];
        var creep := found[i];
        if Util.UnitIsValidAndAlive(Some(creep), w.valid, w.alive) && IsRadiantLaneCreep(creep) {
          radiantCreeps := radiantCreeps + [creep];
        }
        i := i + 1;
      }
      assert found[..|found|] == found;
    }

    /** disposeCreeps: every collected creep still valid at its turn loses its
        context entry and is removed; the list is emptied. */
    method DisposeCreeps(w: World)
      modifies this`radiantCreeps, w
      ensures var gone := Util.Removals(old(radiantCreeps), old(w.valid));
        && w.removed == old(w.removed) + gone
        && w.context == old(w.context) - NameKeys(gone)
        && w.valid == old(w.valid) - Elements(old(radiantCreeps))
        && w.alive == old(w.alive) - (Elements(old(radiantCreeps)) * old(w.valid))
      ensures radiantCreeps == []
    {
      var creeps := radiantCreeps;
      var i := 0;
      while i < |creeps|
        invariant 0 <= i <= |creeps|
        invariant w.removed == old(w.removed) + Util.Removals(creeps[..i], old(w.valid))
        invariant w.context == old(w.context) - NameKeys(Util.Removals(creeps[..i], old(w.valid)))
        invariant w.valid == old(w.valid) - Elements(creeps[..i])
        invariant w.alive == old(w.alive) - (Elements(creeps[..i]) * old(w.valid))
      {
        assert creeps[..i + 1][..i] == creeps[..i];
        assert Elements(creeps[..i + 1]) == Elements(creeps[..i]) + {creeps[i]};
        var creep := creeps[i];
        if creep in w.valid {
          ghost var before := Util.Removals(creeps[..i], old(w.valid));
          assert NameKeys(before + [creep]) == NameKeys(before) + {Named(creep.name)};
          w.Clear(Named(creep.name));
          w.Remove(creep);
        }
        i := i + 1;
      }
      assert creeps[..|creeps|] == creeps;
      radiantCreeps := [];
    }

    /** disposeHeroes: for each juke hero name, the hero stored under it is
        removed when it is valid and alive, and the name is cleared. */
    method DisposeHeroes(w: World)
      modifies w
      ensures var gone := Util.Removals(JukeHeroes(JukeDuo, old(w.context), old(w.alive)), old(w.valid));
        && w.removed == old(w.removed) + gone
        && w.context == old(w.context) - Keys(JukeDuo)
        && w.valid == old(w.valid) - Elements(gone)
        && w.alive == old(w.alive) - Elements(gone)
    {
      DisposeNamedHeroes(w, JukeDuo);
    }
  }

  /** The loop of disposeHeroes over a list of distinct hero names. */
  method DisposeNamedHeroes(w: World, names: seq<string>)
    requires forall i, j :: 0 <= i < j < |names| ==> names[i] != names[j]
    modifies w
    ensures var gone := Util.Removals(JukeHeroes(names, old(w.context), old(w.alive)), old(w.valid));
      && w.removed == old(w.removed) + gone
      && w.context == old(w.context) - Keys(names)
      && w.valid == old(w.valid) - Elements(gone)
      && w.alive == old(w.alive) - Elements(gone)
  {
    ghost var context0, valid0, alive0, removed0 := w.context, w.valid, w.alive, w.removed;
    ghost var gone: seq<Entity> := [];
    var i := 0;
    while i < |names|
      invariant 0 <= i <= |names|
      invariant gone == Util.Removals(JukeHeroes(names[..i], context0, alive0), valid0)
      invariant w.removed == removed0 + gone
      invariant w.context == context0 - Keys(names[..i])
      invariant w.valid == valid0 - Elements(gone)
      invariant w.alive == alive0 - Elements(gone)
    {
      ghost var turn := Disposable(w.context, Named(names[i]), w.valid, w.alive);
      DisposeLoopStep(names, i, context0, valid0, alive0, gone, w.context, w.valid, w.alive);
      DisposeHero(w, Named(names[i]));
      assert removed0 + gone + turn == removed0 + (gone + turn);
      gone := gone + turn;
      i := i + 1;
    }
    assert names[..|names|] == names;
  }

  /** What one turn of disposeHeroes' loop does to the state the loop
      invariant describes. */
  lemma DisposeLoopStep(names: seq<string>, i: nat,
                        context0: map<ContextKey, ContextValue>, valid0: set<Entity>, alive0: set<Entity>,
                        gone: seq<Entity>,
                        context: map<ContextKey, ContextValue>, valid: set<Entity>, alive: set<Entity>)
    requires forall i, j :: 0 <= i < j < |names| ==> names[i] != names[j]
    requires i < |names|
    requires gone == Util.Removals(JukeHeroes(names[..i], context0, alive0), valid0)
    requires context == context0 - Keys(names[..i])
    requires valid == valid0 - Elements(gone) && alive == alive0 - Elements(gone)
    ensures var turn := Disposable(context, Named(names[i]), valid, alive);
      && gone + turn == Util.Removals(JukeHeroes(names[..i + 1], context0, alive0), valid0)
      && context - {Named(names[i])} == context0 - Keys(names[..i + 1])
      && valid - Elements(turn) == valid0 - Elements(gone + turn)
      && alive - Elements(turn) == alive0 - Elements(gone + turn)
  {
    LaterNameNotEarlier(names, i);
    DisposeStep(names, i, context0, valid0, alive0);
    ElementsConcat(gone, Disposable(context, Named(names[i]), valid, alive));
    MapMinusOneMore(context0, Keys(names[..i]), Named(names[i]));
  }

  lemma LaterNameNotEarlier(names: seq<string>, i: nat)
    requires forall i, j :: 0 <= i < j < |names| ==> names[i] != names[j]
    requires i < |names|
    ensures Named(names[i]) !in Keys(names[..i])
  {
  }

  lemma MapMinusOneMore(m: map<ContextKey, ContextValue>, ks: set<ContextKey>, k: ContextKey)
    ensures (m - ks) - {k} == m - (ks + {k})
  {
  }

  lemma ElementsConcat(a: seq<Entity>, b: seq<Entity>)
    ensures Elements(a + b) == Elements(a) + Elements(b)
  {
  }

  /** The hero disposeHeroes removes for one name, given the state at its
      turn: the one stored there, when it is valid and alive. */
  function Disposable(context: map<ContextKey, ContextValue>, key: ContextKey, valid: set<Entity>, alive: set<Entity>): seq<Entity>
  {
    if key in context && context[key].Single? && context[key].entity in valid && context[key].entity in alive
    then [context[key].entity] else []
  }

  /** One turn of disposeHeroes' loop. */
  method DisposeHero(w: World, key: ContextKey)
    modifies w
    ensures var gone := Disposable(old(w.context), key, old(w.valid), old(w.alive));
      && w.removed == old(w.removed) + gone
      && w.context == old(w.context) - {key}
      && w.valid == old(w.valid) - Elements(gone)
      && w.alive == old(w.alive) - Elements(gone)
  {
    if key in w.context && w.context[key].Single? {
      var hero := w.context[key].entity;
      if hero in w.valid && hero in w.alive {
        w.Remove(hero);
      }
    }
    w.Clear(key);
  }

  /** The state disposeHeroes leaves after the first i + 1 names extends the
      state after the first i by what the turn of name i removes. */
  lemma DisposeStep(names: seq<string>, i: nat, context: map<ContextKey, ContextValue>, valid: set<Entity>, alive: set<Entity>)
    requires i < |names| && Named(names[i]) !in Keys(names[..i])
    ensures var gone := Util.Removals(JukeHeroes(names[..i], context, alive), valid);
      var next := Util.Removals(JukeHeroes(names[..i + 1], context, alive), valid);
      var turn := Disposable(context - Keys(names[..i]), Named(names[i]), valid - Elements(gone), alive - Elements(gone));
      && next == gone + turn
      && Keys(names[..i + 1]) == Keys(names[..i]) + {Named(names[i])}
  {
    var heroes := JukeHeroes(names[..i], context, alive);
    assert names[..i + 1][..i] == names[..i];
    Util.RemovalsAreTheValidMembers(heroes, valid);
    var key := Named(names[i]);
    if key in context && context[key].Single? && context[key].entity in alive {
      var e := context[key].entity;
      assert JukeHeroes(names[..i + 1], context, alive) == heroes + [e];
      assert (heroes + [e])[..|heroes|] == heroes;
    } else {
      assert JukeHeroes(names[..i + 1], context, alive) == heroes;
    }
  }

}
