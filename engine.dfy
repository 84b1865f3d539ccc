/** The host-side vocabulary the tutorial scripts talk to: entity handles,
    positions, unit orders as seen by an order filter, HUD feedback, and the
    addon's shared context together with the engine's idea of which entities
    still exist. Engine calls the scripts make become the few methods of
    World below; everything else the engine does is not modelled. */
module Engine {
  import opened Wrappers

  type PlayerId = int

  /** Unit names (CustomNpcKeys and hero names) the scripts compare against.
      The string values of CustomNpcKeys are not part of this model, so the
      keys are kept symbolic. */
  datatype UnitName =
    | RadiantMeleeCreep
    | RadiantRangedCreep
    | DireMeleeCreep
    | DireRangedCreep
    | OtherUnit(name: string)

  /** An entity handle. Its entity name (GetName) and unit name (GetUnitName)
      never change over its lifetime, so they travel with the handle. */
  datatype Entity = Entity(index: nat, name: string, unitName: UnitName)

  /** A world position. Coordinates are integers here; the engine's are floats. */
  datatype Vec = Vec(x: int, y: int, z: int)

  datatype UnitOrder =
    | MoveToPosition
    | AttackTarget
    | CastNoTarget
    | TrainAbility
    | Glyph
    | Radar
    | OtherOrder(code: int)

  /** What an order filter reads from an ExecuteOrderFilterEvent: the issuing
      player, the order type, the name of the ability its entindex_ability
      resolves to (None when the field is absent or resolves to nothing), and
      the target position. */
  datatype Order = Order(issuer: PlayerId, orderType: UnitOrder, ability: Option<string>, position: Vec)

  /** The order is the real player's own. When no real player is found the
      filters compare against undefined, which no order matches. */
  predicate IsPlayerOrder(order: Order, realPlayer: Option<PlayerId>)
  {
    realPlayer == Some(order.issuer)
  }

  /** Feedback a script gives the player: a red HUD error message, or a
      voice line played by one of the guides. */
  datatype Feedback = HudError(message: string) | VoiceLine(key: string)

  /** Keys of the shared context. The chapter 2 keys are the two members of
      Chapter2SpecificKeys the scripts clear; every other key is an entity or
      hero name. */
  datatype ContextKey = Chapter2RadiantCreeps | Chapter2DireCreeps | Named(name: string)

  /** A context entry that holds entities: a single handle or an array of them. */
  datatype ContextValue = Single(entity: Entity) | Many(entities: seq<Entity>)

  /** The entities held by a context entry, in array order. */
  function Members(v: ContextValue): (es: seq<Entity>)
    ensures v.Single? ==> es == [v.entity]
    ensures v.Many? ==> es == v.entities
  {
    match v
    case Single(e) => [e]
    case Many(es) => es
  }

  /** The set of entities of a sequence. */
  function Elements(es: seq<Entity>): set<Entity>
  {
    set e | e in es
  }

  /** GameRules.Addon.context, shared by every step of a running section,
      together with the engine state the scripts query about entities:
      which handles are still valid (IsValidEntity), which units are alive
      (IsAlive), and the order in which the scripts removed entities
      (UTIL_Remove and RemoveSelf). A key that is absent from `context`
      reads as undefined. */
  class World {
    var context: map<ContextKey, ContextValue>
    var valid: set<Entity>
    var alive: set<Entity>
    var removed: seq<Entity>

    constructor (entities: set<Entity>, living: set<Entity>)
      ensures context == map[] && valid == entities && alive == living && removed == []
    {
      context := map[];
      valid := entities;
      alive := living;
      removed := [];
    }

    /** UTIL_Remove / RemoveSelf on a valid entity: it stops being valid or
        alive, and the removal is recorded. */
    method Remove(e: Entity)
      requires e in valid
      modifies this
      ensures valid == old(valid) - {e} && alive == old(alive) - {e}
      ensures removed == old(removed) + [e]
      ensures context == old(context)
    {
      valid := valid - {e};
      alive := alive - {e};
      removed := removed + [e];
    }

    /** CreateUnitByName for each of `spawned`: the engine hands out new,
        living handles. */
    method Spawn(spawned: seq<Entity>)
      requires forall e :: e in spawned ==> e !in valid
      modifies this
      ensures valid == old(valid) + Elements(spawned)
      ensures alive == old(alive) + Elements(spawned)
      ensures removed == old(removed) && context == old(context)
    {
      valid := valid + Elements(spawned);
      alive := alive + Elements(spawned);
    }

    /** `context[key] = value`. */
    method Put(key: ContextKey, value: ContextValue)
      modifies this
      ensures context == old(context)[key := value]
      ensures valid == old(valid) && alive == old(alive) && removed == old(removed)
    {
      context := context[key := value];
    }

    /** `context[key] = undefined`: in Lua this deletes the key. */
    method Clear(key: ContextKey)
      modifies this
      ensures context == old(context) - {key}
      ensures valid == old(valid) && alive == old(alive) && removed == old(removed)
    {
      context := context - {key};
    }
  }
}
