/** The host platform's documents, reduced to the fields the module reads and writes:
    tokens, actors with their items and active effects, and combats with their combatants.
    The host owns these; `World` is the mutable state that the module's handlers update. */
module Documents {
  import opened Wrappers
  import opened SscConfig

  /** A value stored under a flag key. */
  datatype FlagValue = FlagBool(b: bool) | FlagString(s: string) | FlagList(entries: seq<string>)

  /** A document's flags: scope (a module id) to key to value. */
  type Flags = map<string, map<string, FlagValue>>

  /** JavaScript truthiness of a flag lookup; a missing flag is `undefined`, which is falsy. */
  predicate Truthy(v: Option<FlagValue>) {
    match v
    case None => false
    case Some(FlagBool(b)) => b
    case Some(FlagString(s)) => s != ""
    case Some(FlagList(_)) => true
  }

  /** The host's `getFlag(NAME, key)`. */
  function GetFlag(flags: Flags, key: string): Option<FlagValue> {
    if NAME in flags && key in flags[NAME] then Some(flags[NAME][key]) else None
  }

  /** The host's `setFlag(NAME, key, value)`: a later `getFlag` of that key reads the value,
      and every other key and every other scope is left as it was. */
  function SetFlag(flags: Flags, key: string, v: FlagValue): (r: Flags)
    ensures GetFlag(r, key) == Some(v)
    ensures forall k :: k != key ==> GetFlag(r, k) == GetFlag(flags, k)
    ensures forall scope :: scope in flags && scope != NAME ==> scope in r && r[scope] == flags[scope]
    ensures r.Keys == flags.Keys + {NAME}
  {
    var scope := if NAME in flags then flags[NAME] else map[];
    flags[NAME := scope[key := v]]
  }

  /** Setting a key twice keeps only the second value. */
  lemma SetFlagTwice(flags: Flags, key: string, v1: FlagValue, v2: FlagValue)
    ensures SetFlag(SetFlag(flags, key, v1), key, v2) == SetFlag(flags, key, v2)
  {
    var a := SetFlag(SetFlag(flags, key, v1), key, v2);
    var b := SetFlag(flags, key, v2);
    assert a[NAME] == b[NAME];
  }

  /** `getFlag(NAME, "shapes") ?? []`: the list of shape actor uuids of a power. */
  function ShapeList(flags: Flags): seq<string> {
    match GetFlag(flags, FLAG_SHAPES)
    case Some(FlagList(l)) => l
    case _ => []
  }

  /** An item (edge, hindrance, power, skill, ability, ...); `grantedBy` is "" when absent. */
  datatype Item = Item(
    id: string, itemType: string, name: string,
    swid: string, attribute: string, grantedBy: string,
    flags: Flags)

  /** An active effect; `changeKeys` are the keys of its changes, `active` says whether
      the host counts it among the actor's applied effects. */
  datatype Effect = Effect(id: string, isTemporary: bool, active: bool, changeKeys: seq<string>)

  datatype Die = Die(sides: int, modifier: int)
  datatype Attribute = Attribute(die: Die, animal: bool)
  /** A value with its maximum: bennies, wounds and fatigue. */
  datatype Pool = Pool(value: int, max: int)

  datatype Stats = Stats(
    smarts: Attribute, spirit: Attribute, strength: Attribute, vigor: Attribute,
    bennies: Pool, wounds: Pool, fatigue: Pool,
    autoCalcToughness: bool, autoCalcParry: bool)

  /** The part of an actor's prototype token that a new token is created from. */
  datatype Prototype = Prototype(name: string, hidden: bool, actorLink: bool, flags: Flags)

  datatype Actor = Actor(
    id: string, uuid: string, name: string,
    items: seq<Item>, effects: seq<Effect>,
    system: Stats, ownership: map<string, int>,
    prototype: Prototype)

  datatype Token = Token(id: string, name: string, actorId: string, x: int, y: int, hidden: bool, flags: Flags)

  datatype Combatant = Combatant(id: string, tokenId: string, sceneId: string, actorId: string)
  datatype Combat = Combat(id: string, combatants: seq<Combatant>)

  /** An actor update: each present field overwrites the actor's field of that path. */
  datatype ActorUpdate = ActorUpdate(
    ownership: Option<map<string, int>>,
    smarts: Option<Attribute>, spirit: Option<Attribute>,
    benniesValue: Option<int>,
    wounds: Option<Pool>, fatigue: Option<Pool>,
    woundsValue: Option<int>, fatigueValue: Option<int>,
    autoCalcToughness: Option<bool>, autoCalcParry: Option<bool>,
    strengthSides: Option<int>, vigorSides: Option<int>)

  function Or<T>(o: Option<T>, d: T): T {
    if o.Some? then o.value else d
  }

  /** The host's `actor.update(data)`. */
  function ApplyUpdate(a: Actor, u: ActorUpdate): Actor {
    var s := a.system;
    var wounds := Or(u.wounds, s.wounds);
    var fatigue := Or(u.fatigue, s.fatigue);
    a.(ownership := Or(u.ownership, a.ownership),
       system := s.(
         smarts := Or(u.smarts, s.smarts),
         spirit := Or(u.spirit, s.spirit),
         strength := s.strength.(die := s.strength.die.(sides := Or(u.strengthSides, s.strength.die.sides))),
         vigor := s.vigor.(die := s.vigor.die.(sides := Or(u.vigorSides, s.vigor.die.sides))),
         bennies := s.bennies.(value := Or(u.benniesValue, s.bennies.value)),
         wounds := wounds.(value := Or(u.woundsValue, wounds.value)),
         fatigue := fatigue.(value := Or(u.fatigueValue, fatigue.value)),
         autoCalcToughness := Or(u.autoCalcToughness, s.autoCalcToughness),
         autoCalcParry := Or(u.autoCalcParry, s.autoCalcParry)))
  }

  const NoUpdate: ActorUpdate :=
    ActorUpdate(None, None, None, None, None, None, None, None, None, None, None, None)

  /** The host state the module reads and mutates: the current scene's tokens and grid size,
      the actors (world actors and the synthetic actors of unlinked tokens) and the combats. */
  class World {
    const sceneId: string
    const gridSize: int
    var tokens: map<string, Token>
    var actors: map<string, Actor>
    var combats: seq<Combat>

    constructor (sceneId: string, gridSize: int, tokens: map<string, Token>,
                 actors: map<string, Actor>, combats: seq<Combat>)
      ensures this.sceneId == sceneId && this.gridSize == gridSize
      ensures this.tokens == tokens && this.actors == actors && this.combats == combats
    {
      this.sceneId := sceneId;
      this.gridSize := gridSize;
      this.tokens := tokens;
      this.actors := actors;
      this.combats := combats;
    }
  }
}
