/** The helpers of util.ts that carry logic: looking up players, clearing
    entities out of the shared context, building highlight particles, the
    respawn listener, freezing the player's hero, and the small checks the
    sections share. */
module Util {
  import opened Wrappers
  import opened Engine

  // ---------------------------------------------------------------------
  // getOrError, randomChoice

  /** getOrError: the value itself when it is defined; otherwise the script
      aborts with the given message, or a default one. */
  function GetOrError<T>(obj: Option<T>, msg: Option<string>): (r: Result<T, string>)
    ensures r.Success? <==> obj.Some?
    ensures r.Success? ==> r.value == obj.value
    ensures r.Failure? ==> r.error == (if msg.Some? then msg.value else "Object was undefined")
  {
    match obj
    case Some(v) => Success(v)
    case None => Failure(if msg.Some? then msg.value else "Object was undefined")
  }

  /** randomChoice. The engine's RandomInt(0, |choices| - 1) is the parameter
      `roll`, reduced into that range. */
  function RandomChoice<T>(choices: seq<T>, roll: nat): (r: Result<T, string>)
    ensures r.Failure? <==> |choices| == 0
    ensures r.Failure? ==> r.error == "randomChoice called with empty array"
    ensures r.Success? ==> r.value in choices
  {
    if |choices| == 0 then Failure("randomChoice called with empty array")
    else Success(choices[roll % |choices|])
  }

  /** Every element of a non-empty array can be the random choice. */
  lemma RandomChoiceReachesEveryElement<T>(choices: seq<T>, i: nat)
    requires i < |choices|
    ensures RandomChoice(choices, i) == Success(choices[i])
  {
  }

  // ---------------------------------------------------------------------
  // findAllPlayersID, findRealPlayerID

  /** DOTA_MAX_TEAM_PLAYERS, the engine's bound on player IDs. */
  const DotaMaxTeamPlayers: nat := 24

  /** What PlayerResource answers about player IDs: IsValidPlayer and IsFakeClient. */
  datatype PlayerResource = PlayerResource(validPlayers: set<PlayerId>, fakeClients: set<PlayerId>)

  /** A valid, non-fake player ID in the range the scripts scan. */
  predicate IsRealPlayer(pr: PlayerResource, p: PlayerId)
  {
    0 <= p < DotaMaxTeamPlayers && p in pr.validPlayers && p !in pr.fakeClients
  }

  /** findAllPlayersID: every valid player ID below DOTA_MAX_TEAM_PLAYERS, in
      ascending order. */
  method FindAllPlayersID(pr: PlayerResource) returns (players: seq<PlayerId>)
    ensures forall i, j :: 0 <= i < j < |players| ==> players[i] < players[j]
    ensures forall p :: p in players <==> 0 <= p < DotaMaxTeamPlayers && p in pr.validPlayers
  {
    players := [];
    var playerID := 0;
    while playerID < DotaMaxTeamPlayers
      invariant 0 <= playerID <= DotaMaxTeamPlayers
      invariant forall i, j :: 0 <= i < j < |players| ==> players[i] < players[j]
      invariant forall i :: 0 <= i < |players| ==> players[i] < playerID
      invariant forall p :: p in players <==> 0 <= p < playerID && p in pr.validPlayers
    {
      if playerID in pr.validPlayers {
        players := players + [playerID];
      }
      playerID := playerID + 1;
    }
  }

  /** `ids.filter(id => !IsFakeClient(id))[0]`: the first ID that is not a
      fake client, or undefined when there is none. */
  function FirstNonFake(ids: seq<PlayerId>, fake: set<PlayerId>): (r: Option<PlayerId>)
    ensures r.None? ==> forall i :: 0 <= i < |ids| ==> ids[i] in fake
    ensures r.Some? ==> exists k :: 0 <= k < |ids| && ids[k] == r.value && r.value !in fake &&
                                    forall j :: 0 <= j < k ==> ids[j] in fake
  {
    if ids == [] then None
    else if ids[0] !in fake then Some(ids[0])
    else
      var r := FirstNonFake(ids[1..], fake);
      assert r.Some? ==> exists k :: 0 <= k < |ids[1..]| && ids[1..][k] == r.value && r.value !in fake &&
                                     forall j :: 0 <= j < k ==> ids[1..][j] in fake;
      assert r.Some? ==> exists k :: 1 <= k < |ids| && ids[k] == r.value && r.value !in fake &&
                                     forall j :: 0 <= j < k ==> ids[j] in fake by {
        if r.Some? {
          var k :| 0 <= k < |ids[1..]| && ids[1..][k] == r.value && r.value !in fake &&
                   forall j :: 0 <= j < k ==> ids[1..][j] in fake;
          assert ids[k + 1] == r.value;
          assert forall j :: 1 <= j < k + 1 ==> ids[j] == ids[1..][j - 1];
        }
      }
      r
  }

  /** findRealPlayerID: the lowest real (valid, non-fake) player ID, or
      undefined when every valid player is a bot. */
  method FindRealPlayerID(pr: PlayerResource) returns (player: Option<PlayerId>)
    ensures player.Some? ==> IsRealPlayer(pr, player.value)
    ensures player.Some? ==> forall p :: 0 <= p < player.value ==> !IsRealPlayer(pr, p)
    ensures player.None? ==> forall p :: !IsRealPlayer(pr, p)
  {
    var ids := FindAllPlayersID(pr);
    player := FirstNonFake(ids, pr.fakeClients);
    if player.Some? {
      var k :| 0 <= k < |ids| && ids[k] == player.value && player.value !in pr.fakeClients &&
               forall j :: 0 <= j < k ==> ids[j] in pr.fakeClients;
      assert ids[k] in ids;
      forall p | 0 <= p < player.value && p < DotaMaxTeamPlayers && p in pr.validPlayers
        ensures p in pr.fakeClients
      {
        assert p in ids;
        var j :| 0 <= j < |ids| && ids[j] == p;
        AscendingIndexOrder(ids, j, k);
      }
    } else {
      forall p | 0 <= p < DotaMaxTeamPlayers && p in pr.validPlayers
        ensures p in pr.fakeClients
      {
        assert p in ids;
      }
    }
  }

  /** In a strictly ascending sequence a smaller element sits at a smaller index. */
  lemma AscendingIndexOrder(ids: seq<PlayerId>, i: nat, j: nat)
    requires forall a, b :: 0 <= a < b < |ids| ==> ids[a] < ids[b]
    requires i < |ids| && j < |ids| && ids[i] < ids[j]
    ensures i < j
  {
  }

  // ---------------------------------------------------------------------
  // unitIsValidAndAlive, isCustomLaneCreepUnit

  /** unitIsValidAndAlive: defined, still a valid entity, and alive. */
  function UnitIsValidAndAlive(unit: Option<Entity>, valid: set<Entity>, alive: set<Entity>): (r: bool)
    ensures unit.None? ==> !r
    ensures unit.Some? ==> (r <==> unit.value in valid && unit.value in alive)
  {
    unit.Some? && unit.value in valid && unit.value in alive
  }

  /** isCustomLaneCreepUnit: the unit is one of the four custom lane creeps,
      melee or ranged, of either team. */
  function IsCustomLaneCreepUnit(unit: Entity): (r: bool)
    ensures r <==> !unit.unitName.OtherUnit?
  {
    unit.unitName == RadiantMeleeCreep || unit.unitName == RadiantRangedCreep ||
    unit.unitName == DireMeleeCreep || unit.unitName == DireRangedCreep
  }

  // ---------------------------------------------------------------------
  // removeContextEntityIfExists

  /** The entities UTIL_Remove is called on when the entities `es` are walked
      in order and each one still valid at its turn is removed: the first
      occurrence of each member that was valid beforehand. */
  function Removals(es: seq<Entity>, valid: set<Entity>): seq<Entity>
  {
    if es == [] then []
    else
      var init := es[..|es| - 1];
      var last := es[|es| - 1];
      Removals(init, valid) + (if last in valid && last !in init then [last] else [])
  }

  /** Exactly the members that were valid are removed, each of them once. */
  lemma {:induction false} RemovalsAreTheValidMembers(es: seq<Entity>, valid: set<Entity>)
    ensures forall e :: e in Removals(es, valid) <==> e in es && e in valid
    ensures forall i, j :: 0 <= i < j < |Removals(es, valid)| ==> Removals(es, valid)[i] != Removals(es, valid)[j]
  {
    if es != [] {
      var init := es[..|es| - 1];
      var last := es[|es| - 1];
      RemovalsAreTheValidMembers(init, valid);
      assert es == init + [last];
    }
  }

  /** removeContextEntityIfExists. When the key holds entities, every one of
      them that is still valid is removed (each array element in turn, or the
      single handle) and the key is cleared; every other key keeps its value.
      When the key is undefined nothing happens. */
  method RemoveContextEntityIfExists(w: World, key: ContextKey)
    modifies w
    ensures key !in old(w.context) ==>
      w.context == old(w.context) && w.valid == old(w.valid) &&
      w.alive == old(w.alive) && w.removed == old(w.removed)
    ensures key in old(w.context) ==>
      var es := Members(old(w.context)[key]);
      && w.context == old(w.context) - {key}
      && w.removed == old(w.removed) + Removals(es, old(w.valid))
      && w.valid == old(w.valid) - Elements(es)
      && w.alive == old(w.alive) - (Elements(es) * old(w.valid))
  {
    if key in w.context {
      var entity := w.context[key];
      ghost var es := Members(entity);
      match entity {
        case Many(entities) =>
          var i := 0;
          while i < |entities|
            invariant 0 <= i <= |entities|
            invariant w.context == old(w.context)
            invariant w.valid == old(w.valid) - Elements(entities[..i])
            invariant w.alive == old(w.alive) - (Elements(entities[..i]) * old(w.valid))
            invariant w.removed == old(w.removed) + Removals(entities[..i], old(w.valid))
          {
            assert entities[..i + 1][..i] == entities[..i];
            assert Elements(entities[..i + 1]) == Elements(entities[..i]) + {entities[i]};
            if entities[i] in w.valid {
              w.Remove(entities[i]);
            }
            i := i + 1;
          }
          assert entities[..|entities|] == entities;
        case Single(e) =>
          assert [e][..0] == [];
          assert Elements([e]) == {e};
          if e in w.valid {
            w.Remove(e);
          }
      }
      w.Clear(key);
    }
  }

  // ---------------------------------------------------------------------
  // highlight

  datatype HighlightType = Circle | Arrow | ArrowEnemy | DialogCircle

  /** Particle effects of the highlight table (ParticleName members; their
      resource paths are not part of this model). */
  datatype ParticleName =
    | HighlightCircle
    | HighlightOrangeCircle
    | HighlightOrangeArrow
    | HighlightRedCircle
    | HighlightRedArrow
    | DialogCircleParticle

  datatype Attachment = AbsOriginFollow | OverheadFollow

  /** HighlightParticleDescriptor: a particle name, how to attach it to a
      unit (default ABSORIGIN_FOLLOW), and its offset when placed on the
      ground (default zero). */
  datatype Descriptor = Descriptor(name: ParticleName, attach: Option<Attachment>, offset: Option<Vec>)

  /** highlightTypeParticleNames: the descriptors drawn for each highlight
      type; a plain circle for "circle" and "dialog_circle", a circle and an
      overhead arrow raised by 50 for "arrow" and "arrow_enemy". */
  function HighlightTypeParticleNames(t: HighlightType): (ds: seq<Descriptor>)
    ensures 1 <= |ds| <= 2
    ensures |ds| == 2 ==> ds[1].attach == Some(OverheadFollow) && ds[1].offset == Some(Vec(0, 0, 50))
    ensures ds[0].attach.None? && ds[0].offset.None?
  {
    match t
    case Circle => [Descriptor(HighlightCircle, None, None)]
    case Arrow => [Descriptor(HighlightOrangeCircle, None, None),
                   Descriptor(HighlightOrangeArrow, Some(OverheadFollow), Some(Vec(0, 0, 50)))]
    case ArrowEnemy => [Descriptor(HighlightRedCircle, None, None),
                        Descriptor(HighlightRedArrow, Some(OverheadFollow), Some(Vec(0, 0, 50)))]
    case DialogCircle => [Descriptor(DialogCircleParticle, None, None)]
  }

  /** HighlightProps; absent fields are None. */
  datatype HighlightProps = HighlightProps(
    kind: HighlightType,
    units: Option<seq<Entity>>,
    locations: Option<seq<Vec>>,
    radius: Option<int>,
    attach: Option<bool>)

  /** Where a particle is put: following a unit (createParticleAttachedToUnit),
      or at the ground position under a unit or under a location shifted by an
      offset (createParticleAtLocation). Ground positions are the engine's. */
  datatype Placement =
    | FollowUnit(unit: Entity, attach: Attachment)
    | AtUnitGround(unit: Entity, offset: Vec)
    | AtGround(location: Vec, offset: Vec)

  datatype ParticleSpec = ParticleSpec(name: ParticleName, placement: Placement)

  /** A particle the engine holds: what it shows, whether it is hidden by the
      fog of war (the engine's default is yes), and the radius set on its
      control point 1, if any. */
  datatype Particle = Particle(spec: ParticleSpec, checksFogOfWar: bool, radiusControl: Option<int>)

  function UnitsOf(props: HighlightProps): seq<Entity>
  {
    if props.units.Some? then props.units.value else []
  }

  function LocationsOf(props: HighlightProps): seq<Vec>
  {
    if props.locations.Some? then props.locations.value else []
  }

  /** The particle one descriptor gives one unit: attached unless `attach`
      is explicitly false, else on the ground under it. */
  function UnitParticle(d: Descriptor, unit: Entity, attach: Option<bool>): ParticleSpec
  {
    if attach != Some(false) then
      ParticleSpec(d.name, FollowUnit(unit, if d.attach.Some? then d.attach.value else AbsOriginFollow))
    else
      ParticleSpec(d.name, AtUnitGround(unit, if d.offset.Some? then d.offset.value else Vec(0, 0, 0)))
  }

  /** The particle one descriptor gives one location. */
  function LocationParticle(d: Descriptor, location: Vec): ParticleSpec
  {
    ParticleSpec(d.name, AtGround(location, if d.offset.Some? then d.offset.value else Vec(0, 0, 0)))
  }

  function UnitParticles(d: Descriptor, units: seq<Entity>, attach: Option<bool>): seq<ParticleSpec>
  {
    seq(|units|, j requires 0 <= j < |units| => UnitParticle(d, units[j], attach))
  }

  function LocationParticles(d: Descriptor, locations: seq<Vec>): seq<ParticleSpec>
  {
    seq(|locations|, j requires 0 <= j < |locations| => LocationParticle(d, locations[j]))
  }

  /** The particles highlight creates, in creation order: for each descriptor
      in turn, one per unit and then one per location. */
  function HighlightPlan(ds: seq<Descriptor>, units: seq<Entity>, locations: seq<Vec>, attach: Option<bool>): seq<ParticleSpec>
  {
    if ds == [] then []
    else
      HighlightPlan(ds[..|ds| - 1], units, locations, attach) +
      UnitParticles(ds[|ds| - 1], units, attach) + LocationParticles(ds[|ds| - 1], locations)
  }

  lemma MulStep(m: nat, n: nat)
    requires m >= 1
    ensures (m - 1) * n + n == m * n
  {
  }

  lemma {:induction false} MulMonotone(a: nat, b: nat, n: nat)
    requires a <= b
    ensures a * n <= b * n
    decreases b - a
  {
    if a < b {
      MulMonotone(a + 1, b, n);
      assert (a + 1) * n == a * n + n;
    }
  }

  lemma MulBelow(k: nat, m: nat, n: nat, j: nat)
    requires k < m && j < n
    ensures k * n + j < m * n
  {
    MulMonotone(k + 1, m, n);
    assert (k + 1) * n == k * n + n;
  }

  /** One particle per (descriptor, unit) and (descriptor, location) pair. */
  lemma {:induction false} HighlightPlanLength(ds: seq<Descriptor>, units: seq<Entity>, locations: seq<Vec>, attach: Option<bool>)
    ensures |HighlightPlan(ds, units, locations, attach)| == |ds| * (|units| + |locations|)
  {
    if ds != [] {
      HighlightPlanLength(ds[..|ds| - 1], units, locations, attach);
      MulStep(|ds|, |units| + |locations|);
    }
  }

  /** Descriptor-major order: the particle for descriptor k and the j-th
      unit-or-location sits at k * (|units| + |locations|) + j. */
  lemma {:induction false} HighlightPlanAt(ds: seq<Descriptor>, units: seq<Entity>, locations: seq<Vec>, attach: Option<bool>, k: nat, j: nat)
    requires k < |ds| && j < |units| + |locations|
    ensures k * (|units| + |locations|) + j < |HighlightPlan(ds, units, locations, attach)|
    ensures HighlightPlan(ds, units, locations, attach)[k * (|units| + |locations|) + j] ==
            if j < |units| then UnitParticle(ds[k], units[j], attach)
            else LocationParticle(ds[k], locations[j - |units|])
  {
    var n := |units| + |locations|;
    var init := ds[..|ds| - 1];
    HighlightPlanLength(ds, units, locations, attach);
    HighlightPlanLength(init, units, locations, attach);
    MulBelow(k, |ds|, n, j);
    if k < |ds| - 1 {
      HighlightPlanAt(init, units, locations, attach, k, j);
      MulBelow(k, |ds| - 1, n, j);
    } else {
      assert k * n == |HighlightPlan(init, units, locations, attach)|;
    }
  }

  /** The particles highlight leaves behind, once it has switched off their
      fog-of-war check and set the radius. */
  function Finished(plan: seq<ParticleSpec>, radius: Option<int>): seq<Particle>
  {
    seq(|plan|, i requires 0 <= i < |plan| => Particle(plan[i], false, radius))
  }

  /** The particles of `plan` as CreateParticle leaves them. */
  function Created(plan: seq<ParticleSpec>): seq<Particle>
  {
    seq(|plan|, i requires 0 <= i < |plan| => Particle(plan[i], true, None))
  }

  /** The engine's particle table; a particle's ID is its position. */
  class ParticleManager {
    var particles: seq<Particle>

    constructor ()
      ensures particles == []
    {
      particles := [];
    }

    /** ParticleManager.CreateParticle. */
    method CreateParticle(spec: ParticleSpec) returns (id: nat)
      modifies this
      ensures particles == old(particles) + [Particle(spec, true, None)]
      ensures id == |old(particles)|
    {
      id := |particles|;
      particles := particles + [Particle(spec, true, None)];
    }

    /** SetParticleShouldCheckFoW(id, false), and SetParticleControl(id, 1,
        Vector(radius, 0, 0)) when a radius is given. */
    method Configure(id: nat, radius: Option<int>)
      requires id < |particles|
      modifies this
      ensures particles == old(particles)[id := old(particles)[id].(checksFogOfWar := false,
                radiusControl := if radius.Some? then radius else old(particles)[id].radiusControl)]
    {
      particles := particles[id := particles[id].(checksFogOfWar := false,
                     radiusControl := if radius.Some? then radius else particles[id].radiusControl)];
    }
  }

  /** highlight: creates, in descriptor-major order, one particle per
      (descriptor, unit) and (descriptor, location) pair, switches off their
      fog-of-war check, sets their radius, and returns their IDs in creation
      order. */
  method Highlight(pm: ParticleManager, props: HighlightProps) returns (ids: seq<nat>)
    modifies pm
    ensures var plan := HighlightPlan(HighlightTypeParticleNames(props.kind), UnitsOf(props), LocationsOf(props), props.attach);
      && pm.particles == old(pm.particles) + Finished(plan, props.radius)
      && |ids| == |plan|
    ensures Consecutive(ids, |old(pm.particles)|)
  {
    var ds := HighlightTypeParticleNames(props.kind);
    var units := UnitsOf(props);
    var locations := LocationsOf(props);
    ghost var base := pm.particles;
    var first := |pm.particles|;
    ids := [];
    var d := 0;
    while d < |ds|
      invariant 0 <= d <= |ds|
      invariant |ids| == |HighlightPlan(ds[..d], units, locations, props.attach)|
      invariant pm.particles == base + Created(HighlightPlan(ds[..d], units, locations, props.attach))
      invariant Consecutive(ids, |base|)
    {
      var descIds := CreateDescriptorParticles(pm, ds[d], props);
      ConsecutiveConcat(ids, descIds, first);
      CreatedConcat(HighlightPlan(ds[..d], units, locations, props.attach),
                    UnitParticles(ds[d], units, props.attach) + LocationParticles(ds[d], locations));
      ids := ids + descIds;
      HighlightPlanSnoc(ds, d, units, locations, props.attach);
      d := d + 1;
    }
    assert ds[..|ds|] == ds;
    ghost var plan := HighlightPlan(ds, units, locations, props.attach);
    ghost var created := pm.particles;
    ConfigureParticles(pm, first, ids, props.radius);
    FinishedAfterConfigure(base, plan, created, pm.particles, props.radius);
  }

  lemma HighlightPlanSnoc(ds: seq<Descriptor>, d: nat, units: seq<Entity>, locations: seq<Vec>, attach: Option<bool>)
    requires d < |ds|
    ensures HighlightPlan(ds[..d + 1], units, locations, attach) ==
            HighlightPlan(ds[..d], units, locations, attach) + UnitParticles(ds[d], units, attach) + LocationParticles(ds[d], locations)
  {
    assert ds[..d + 1][..d] == ds[..d];
  }

  lemma FinishedAfterConfigure(base: seq<Particle>, plan: seq<ParticleSpec>, created: seq<Particle>, configured: seq<Particle>, radius: Option<int>)
    requires created == base + Created(plan)
    requires |configured| == |created| && configured[..|base|] == created[..|base|]
    requires forall n :: |base| <= n < |configured| ==> configured[n] == Particle(created[n].spec, false, radius)
    ensures configured == base + Finished(plan, radius)
  {
    assert configured[..|base|] == base;
    forall n | 0 <= n < |plan|
      ensures configured[|base| + n] == Finished(plan, radius)[n]
    {
      assert created[|base| + n] == Created(plan)[n];
    }
    assert configured == configured[..|base|] + configured[|base|..];
  }

  /** The body of the loop over descriptors: the unit highlights, then the
      location highlights, of one descriptor. */
  method CreateDescriptorParticles(pm: ParticleManager, desc: Descriptor, props: HighlightProps) returns (ids: seq<nat>)
    modifies pm
    ensures pm.particles == old(pm.particles) +
              Created(UnitParticles(desc, UnitsOf(props), props.attach) + LocationParticles(desc, LocationsOf(props)))
    ensures |ids| == |UnitsOf(props)| + |LocationsOf(props)| && Consecutive(ids, |old(pm.particles)|)
  {
    var unitIds: seq<nat> := [];
    if props.units.Some? {
      unitIds := CreateUnitParticles(pm, desc, props.units.value, props.attach);
    }
    var locationIds: seq<nat> := [];
    if props.locations.Some? {
      locationIds := CreateLocationParticles(pm, desc, props.locations.value);
    }
    ConsecutiveConcat(unitIds, locationIds, |old(pm.particles)|);
    CreatedConcat(UnitParticles(desc, UnitsOf(props), props.attach), LocationParticles(desc, LocationsOf(props)));
    ids := unitIds + locationIds;
  }

  lemma ConsecutiveConcat(a: seq<nat>, b: seq<nat>, from: nat)
    requires Consecutive(a, from) && Consecutive(b, from + |a|)
    ensures Consecutive(a + b, from)
  {
  }

  /** IDs `from`, `from + 1`, ... in order. */
  ghost predicate Consecutive(ids: seq<nat>, from: nat)
  {
    forall k :: 0 <= k < |ids| ==> ids[k] == from + k
  }

  lemma CreatedConcat(a: seq<ParticleSpec>, b: seq<ParticleSpec>)
    ensures Created(a + b) == Created(a) + Created(b)
  {
  }

  /** The inner loop over units: one particle per unit, in order. */
  method CreateUnitParticles(pm: ParticleManager, desc: Descriptor, units: seq<Entity>, attach: Option<bool>) returns (ids: seq<nat>)
    modifies pm
    ensures pm.particles == old(pm.particles) + Created(UnitParticles(desc, units, attach))
    ensures |ids| == |units| && Consecutive(ids, |old(pm.particles)|)
  {
    ids := [];
    var i := 0;
    while i < |units|
      invariant 0 <= i <= |units|
      invariant |ids| == i && Consecutive(ids, |old(pm.particles)|)
      invariant pm.particles == old(pm.particles) + Created(UnitParticles(desc, units[..i], attach))
    {
      var id := pm.CreateParticle(UnitParticle(desc, units[i], attach));
      ids := ids + [id];
      assert UnitParticles(desc, units[..i + 1], attach) ==
             UnitParticles(desc, units[..i], attach) + [UnitParticle(desc, units[i], attach)];
      CreatedConcat(UnitParticles(desc, units[..i], attach), [UnitParticle(desc, units[i], attach)]);
      i := i + 1;
    }
    assert units[..|units|] == units;
  }

  /** The inner loop over locations: one particle per location, in order. */
  method CreateLocationParticles(pm: ParticleManager, desc: Descriptor, locations: seq<Vec>) returns (ids: seq<nat>)
    modifies pm
    ensures pm.particles == old(pm.particles) + Created(LocationParticles(desc, locations))
    ensures |ids| == |locations| && Consecutive(ids, |old(pm.particles)|)
  {
    ids := [];
    var i := 0;
    while i < |locations|
      invariant 0 <= i <= |locations|
      invariant |ids| == i && Consecutive(ids, |old(pm.particles)|)
      invariant pm.particles == old(pm.particles) + Created(LocationParticles(desc, locations[..i]))
    {
      var id := pm.CreateParticle(LocationParticle(desc, locations[i]));
      ids := ids + [id];
      assert LocationParticles(desc, locations[..i + 1]) ==
             LocationParticles(desc, locations[..i]) + [LocationParticle(desc, locations[i])];
      CreatedConcat(LocationParticles(desc, locations[..i]), [LocationParticle(desc, locations[i])]);
      i := i + 1;
    }
    assert locations[..|locations|] == locations;
  }

  /** The final pass over the created particles. */
  method ConfigureParticles(pm: ParticleManager, base: nat, ids: seq<nat>, radius: Option<int>)
    requires base + |ids| == |pm.particles| && Consecutive(ids, base)
    requires forall n :: base <= n < |pm.particles| ==> pm.particles[n].radiusControl.None?
    modifies pm
    ensures |pm.particles| == |old(pm.particles)|
    ensures pm.particles[..base] == old(pm.particles)[..base]
    ensures forall n :: base <= n < |pm.particles| ==>
              pm.particles[n] == Particle(old(pm.particles)[n].spec, false, radius)
  {
    var k := 0;
    while k < |ids|
      invariant 0 <= k <= |ids|
      invariant |pm.particles| == |old(pm.particles)|
      invariant pm.particles[..base] == old(pm.particles)[..base]
      invariant forall n :: base <= n < base + k ==> pm.particles[n] == Particle(old(pm.particles)[n].spec, false, radius)
      invariant forall n :: base + k <= n < |pm.particles| ==> pm.particles[n] == old(pm.particles)[n]
    {
      pm.Configure(ids[k], radius);
      k := k + 1;
    }
  }

  // ---------------------------------------------------------------------
  // setRespawnSettings

  type ListenerId = nat

  /** What the entity_killed listener does when the player's hero dies: set
      its respawn position and its time until respawn. */
  datatype RespawnHandler = RespawnHandler(location: Vec, time: real)

  /** The module variable respawnListener together with the entity_killed
      listeners this module has registered with the engine. */
  class RespawnSettings {
    var respawnListener: Option<ListenerId>
    var listeners: map<ListenerId, RespawnHandler>
    var nextListener: ListenerId

    /** Only the listener the module variable points at is registered, and
        IDs handed out later are new. */
    ghost predicate Valid()
      reads this
    {
      && (forall id :: id in listeners ==> respawnListener == Some(id))
      && (respawnListener.Some? ==> respawnListener.value in listeners)
      && (forall id :: id in listeners ==> id < nextListener)
    }

    constructor ()
      ensures Valid() && respawnListener.None? && listeners == map[]
    {
      respawnListener := None;
      listeners := map[];
      nextListener := 0;
    }

    /** setRespawnSettings: the previous listener, if any, is stopped before
        a new one with the given location and time is registered. */
    method SetRespawnSettings(location: Vec, time: real)
      requires Valid()
      modifies this
      ensures Valid()
      ensures respawnListener == Some(old(nextListener))
      ensures listeners == map[old(nextListener) := RespawnHandler(location, time)]
      ensures old(respawnListener).Some? ==> old(respawnListener).value !in listeners
      ensures nextListener == old(nextListener) + 1
    {
      if respawnListener.Some? {
        listeners := listeners - {respawnListener.value};
        respawnListener := None;
      }
      var id := nextListener;
      nextListener := nextListener + 1;
      listeners := listeners[id := RespawnHandler(location, time)];
      respawnListener := Some(id);
    }

    /** The entity_killed event: when the killed entity is the player's hero,
        the registered listener applies its settings; otherwise nothing. */
    method EntityKilled(killed: Entity, playerHero: Option<Entity>) returns (applied: Option<RespawnHandler>)
      requires Valid()
      ensures applied.Some? <==> playerHero == Some(killed) && respawnListener.Some?
      ensures applied.Some? ==> applied.value == listeners[respawnListener.value]
    {
      if respawnListener.Some? && playerHero == Some(killed) {
        applied := Some(listeners[respawnListener.value]);
      } else {
        applied := None;
      }
    }
  }

  /** With the invariant, at most one respawn listener is ever registered. */
  lemma AtMostOneRespawnListener(rs: RespawnSettings)
    requires rs.Valid()
    ensures |rs.listeners.Keys| <= 1
  {
    if rs.respawnListener.Some? {
      assert rs.listeners.Keys == {rs.respawnListener.value};
    } else {
      assert rs.listeners.Keys == {};
    }
  }

  // ---------------------------------------------------------------------
  // freezePlayerHero, isPlayerHeroFrozen

  datatype MoveCapability = MoveNone | MoveGround

  /** The player's hero (GameRules.Addon.playerHero) as far as freezing
      touches it, and the module variable playerHeroFrozen. */
  class PlayerHero {
    var hero: Option<Entity>
    var pacifist: bool
    var moveCapability: MoveCapability
    var stopOrders: nat
    var playerHeroFrozen: bool

    constructor (hero: Option<Entity>)
      ensures this.hero == hero && !playerHeroFrozen && !pacifist && stopOrders == 0
    {
      this.hero := hero;
      pacifist := false;
      moveCapability := MoveGround;
      stopOrders := 0;
      playerHeroFrozen := false;
    }

    /** isPlayerHeroFrozen. */
    function IsPlayerHeroFrozen(): bool
      reads this
    {
      playerHeroFrozen
    }

    /** freezePlayerHero: without a hero the script aborts and nothing
        changes; otherwise the hero becomes pacifist and unable to move (and
        is stopped) when frozen, or the reverse, and the flag records it. */
    method FreezePlayerHero(frozen: bool) returns (outcome: Result<(), string>)
      modifies this
      ensures hero == old(hero)
      ensures old(hero).None? ==> outcome == Failure("Could not find player hero") && unchanged(this)
      ensures old(hero).Some? ==>
        && outcome.Success?
        && IsPlayerHeroFrozen() == frozen
        && pacifist == frozen
        && moveCapability == (if frozen then MoveNone else MoveGround)
        && stopOrders == old(stopOrders) + (if frozen then 1 else 0)
    {
      var h := GetOrError(hero, Some("Could not find player hero"));
      if h.Failure? {
        return Failure(h.error);
      }
      pacifist := frozen;
      if frozen {
        stopOrders := stopOrders + 1;
      }
      moveCapability := if frozen then MoveNone else MoveGround;
      playerHeroFrozen := frozen;
      outcome := Success(());
    }
  }
}
