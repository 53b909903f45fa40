/** The shape-change transform and its revert (modules/shape-changer.js): which items and
    effects move between the two actors, which numbers are overwritten, how the two tokens
    are placed and flagged, and how the combat trackers are rewritten. */
module ShapeChanger {
  import opened Wrappers
  import opened SscConfig
  import opened Names
  import opened Seqs
  import opened Documents

  /* ---------------------------------------------------------------------------------- */
  /* Item selection                                                                      */
  /* ---------------------------------------------------------------------------------- */

  predicate IsCarriedCategory(it: Item) {
    it.itemType == "edge" || it.itemType == "hindrance" || it.itemType == "power"
  }

  /** An edge, hindrance or power that no other item granted. */
  predicate IsCarriedOver(it: Item) {
    IsCarriedCategory(it) && it.grantedBy == ""
  }

  /** A skill linked to spirit or smarts. */
  predicate IsMentalSkill(it: Item) {
    it.itemType == "skill" && (it.attribute == "spirit" || it.attribute == "smarts")
  }

  predicate IsResilientAbility(it: Item) {
    it.itemType == "ability" &&
    (Includes(it.swid, "resilient") || Includes(ToLower(it.name), "resilient"))
  }

  predicate IsInnatePowerAbility(it: Item) {
    it.itemType == "ability" &&
    (Includes(it.swid, "innate-power") || Includes(ToLower(it.name), "innate power"))
  }

  /** The callback of the first removal filter. Its body is a block that evaluates the
      edge/hindrance/power test and discards it; without a `return` the callback yields
      `undefined`, which `filter` treats as false. */
  predicate DiscardedCategoryTest(it: Item) {
    false
  }

  /** `itemsToRemove`: four filters of the created actor's items, concatenated. */
  function ItemsToRemove(items: seq<Item>): seq<Item> {
    Filter(items, DiscardedCategoryTest) + Filter(items, IsMentalSkill) +
    Filter(items, IsResilientAbility) + Filter(items, IsInnatePowerAbility)
  }

  /** `itemsToAdd`: the original actor's ungranted edges, hindrances and powers, then its
      spirit- and smarts-linked skills. */
  function ItemsToAdd(items: seq<Item>): seq<Item> {
    Filter(items, IsCarriedOver) + Filter(items, IsMentalSkill)
  }

  /** How often `ItemsToRemove` lists an item: once for every filter that selects it, so an
      ability matching both the resilient and the innate-power test is listed twice, and the
      first filter contributes nothing. */
  lemma RemovalMultiplicity(items: seq<Item>, x: Item)
    ensures multiset(ItemsToRemove(items))[x] ==
      (if IsMentalSkill(x) then multiset(items)[x] else 0) +
      (if IsResilientAbility(x) then multiset(items)[x] else 0) +
      (if IsInnatePowerAbility(x) then multiset(items)[x] else 0)
  {
    FilterCount(items, DiscardedCategoryTest, x);
    FilterCount(items, IsMentalSkill, x);
    FilterCount(items, IsResilientAbility, x);
    FilterCount(items, IsInnatePowerAbility, x);
  }

  /** The removal list never holds an edge, a hindrance or a power, granted or not. */
  lemma RemovalSkipsCarriedCategories(items: seq<Item>)
    ensures forall x :: x in ItemsToRemove(items) ==> !IsCarriedCategory(x)
    ensures Filter(items, DiscardedCategoryTest) == []
  {
    FilterNone(items, DiscardedCategoryTest);
  }

  /** `itemsToAdd` holds exactly the ungranted edges, hindrances and powers and the mental
      skills of the original actor, none of them more often than the original actor has it,
      with the edges, hindrances and powers first in their original order. */
  lemma ItemsToAddSelection(items: seq<Item>)
    ensures forall x :: x in ItemsToAdd(items) <==> x in items && (IsCarriedOver(x) || IsMentalSkill(x))
    ensures multiset(ItemsToAdd(items)) <= multiset(items)
    ensures ItemsToAdd(items)[..|Filter(items, IsCarriedOver)|] == Filter(items, IsCarriedOver)
  {
    var carried := Filter(items, IsCarriedOver);
    assert (carried + Filter(items, IsMentalSkill))[..|carried|] == carried;
    forall x ensures multiset(ItemsToAdd(items))[x] <= multiset(items)[x] {
      FilterCount(items, IsCarriedOver, x);
      FilterCount(items, IsMentalSkill, x);
    }
  }

  /* ---------------------------------------------------------------------------------- */
  /* Item deletion by id                                                                 */
  /* ---------------------------------------------------------------------------------- */

  function IdsOf(items: seq<Item>): set<string> {
    set it | it in items :: it.id
  }

  /** The items left after every item whose id is in `ids` is deleted. */
  function WithoutIds(items: seq<Item>, ids: set<string>): (r: seq<Item>)
    ensures forall x :: x in r <==> x in items && x.id !in ids
  {
    if items == [] then []
    else
      assert forall x :: x in items <==> x == items[0] || x in items[1..];
      (if items[0].id in ids then [] else [items[0]]) + WithoutIds(items[1..], ids)
  }

  lemma {:induction false} WithoutIdsStep(items: seq<Item>, ids: set<string>, id: string)
    ensures WithoutIds(WithoutIds(items, ids), {id}) == WithoutIds(items, ids + {id})
  {
    if items != [] {
      WithoutIdsStep(items[1..], ids, id);
      var w := WithoutIds(items, ids);
      if items[0].id in ids {
        assert w == WithoutIds(items[1..], ids);
      } else {
        assert w == [items[0]] + WithoutIds(items[1..], ids);
        assert w != [] && w[0] == items[0] && w[1..] == WithoutIds(items[1..], ids);
      }
    }
  }

  lemma IdsOfStep(s: seq<Item>, i: nat)
    requires i < |s|
    ensures IdsOf(s[..i + 1]) == IdsOf(s[..i]) + {s[i].id}
  {
    assert s[..i + 1] == s[..i] + [s[i]];
  }

  predicate UniqueItemIds(items: seq<Item>) {
    forall i, j :: 0 <= i < |items| && 0 <= j < |items| && items[i].id == items[j].id ==> i == j
  }

  /** The created actor's items after the deletion loop. */
  function StrippedItems(items: seq<Item>): seq<Item> {
    WithoutIds(items, IdsOf(ItemsToRemove(items)))
  }

  /** With the host's unique item ids, the deletion loop removes exactly the mental skills and
      the resilient and innate-power abilities; in particular every edge, hindrance and power
      of the created actor, granted or not, stays. */
  lemma StrippedItemsAre(items: seq<Item>)
    requires UniqueItemIds(items)
    ensures forall x :: x in StrippedItems(items) <==>
      x in items && !IsMentalSkill(x) && !IsResilientAbility(x) && !IsInnatePowerAbility(x)
    ensures forall x :: x in items && IsCarriedCategory(x) ==> x in StrippedItems(items)
  {
    var removed := ItemsToRemove(items);
    forall x | x in items
      ensures x.id in IdsOf(removed) <==> (IsMentalSkill(x) || IsResilientAbility(x) || IsInnatePowerAbility(x))
    {
      if x.id in IdsOf(removed) {
        var y :| y in removed && y.id == x.id;
        assert y in items;
        var i :| 0 <= i < |items| && items[i] == x;
        var j :| 0 <= j < |items| && items[j] == y;
        assert i == j;
      } else {
        assert x !in removed;
      }
    }
  }

  /* ---------------------------------------------------------------------------------- */
  /* Effects                                                                             */
  /* ---------------------------------------------------------------------------------- */

  predicate IsTemporary(e: Effect) {
    e.isTemporary
  }

  predicate IsPermanent(e: Effect) {
    !e.isTemporary
  }

  predicate IsApplied(e: Effect) {
    e.active
  }

  /** `effects.filter(effect => effect.isTemporary)`. */
  function TemporaryEffects(effects: seq<Effect>): seq<Effect> {
    Filter(effects, IsTemporary)
  }

  /** The host's `appliedEffects`: the effects currently in force. */
  function AppliedEffects(effects: seq<Effect>): seq<Effect> {
    Filter(effects, IsApplied)
  }

  function TemporaryIds(effects: seq<Effect>): set<string> {
    set e | e in effects && e.isTemporary :: e.id
  }

  /** The effects left after every effect whose id is in `ids` is deleted. */
  function WithoutEffectIds(effects: seq<Effect>, ids: set<string>): (r: seq<Effect>)
    ensures forall e :: e in r <==> e in effects && e.id !in ids
  {
    if effects == [] then []
    else
      assert forall e :: e in effects <==> e == effects[0] || e in effects[1..];
      (if effects[0].id in ids then [] else [effects[0]]) + WithoutEffectIds(effects[1..], ids)
  }

  predicate UniqueEffectIds(effects: seq<Effect>) {
    forall i, j :: 0 <= i < |effects| && 0 <= j < |effects| && effects[i].id == effects[j].id ==> i == j
  }

  /** With unique effect ids, deleting the ids of the temporary effects keeps exactly the
      permanent effects, in order. */
  lemma {:induction false} DeleteTemporaryKeepsPermanent(effects: seq<Effect>, ids: set<string>)
    requires forall e :: e in effects ==> (e.id in ids <==> e.isTemporary)
    ensures WithoutEffectIds(effects, ids) == Filter(effects, IsPermanent)
  {
    if effects != [] {
      DeleteTemporaryKeepsPermanent(effects[1..], ids);
    }
  }

  /* ---------------------------------------------------------------------------------- */
  /* Actor update data                                                                   */
  /* ---------------------------------------------------------------------------------- */

  const RAISE_DIE_STEP: int := 2

  /** The update applied to the created actor: smarts, spirit, bennies, wounds and fatigue
      of the original actor, both auto-calculation switches on, and on a raise for the base
      change type the created actor's strength and vigor dice two sides larger. */
  function TransformUpdate(original: Actor, created: Stats, typeChoice: string, raise: bool): ActorUpdate {
    var boost := typeChoice == CHANGE_TYPE_BASE && raise;
    ActorUpdate(
      ownership := None,
      smarts := Some(original.system.smarts),
      spirit := Some(original.system.spirit),
      benniesValue := Some(original.system.bennies.value),
      wounds := Some(original.system.wounds),
      fatigue := Some(original.system.fatigue),
      woundsValue := None, fatigueValue := None,
      autoCalcToughness := Some(true), autoCalcParry := Some(true),
      strengthSides := if boost then Some(created.strength.die.sides + RAISE_DIE_STEP) else None,
      vigorSides := if boost then Some(created.vigor.die.sides + RAISE_DIE_STEP) else None)
  }

  /** What the created actor's numbers are after the update: the copied ones equal the
      original actor's, strength and vigor rise by exactly two sides only for a base change
      with a raise (their other parts never change), and the bennies' maximum, the items,
      the effects and the ownership stay the created actor's. */
  lemma TransformedStats(original: Actor, created: Actor, typeChoice: string, raise: bool)
    ensures var r := ApplyUpdate(created, TransformUpdate(original, created.system, typeChoice, raise));
      && r.system.smarts == original.system.smarts
      && r.system.spirit == original.system.spirit
      && r.system.bennies == created.system.bennies.(value := original.system.bennies.value)
      && r.system.wounds == original.system.wounds
      && r.system.fatigue == original.system.fatigue
      && r.system.autoCalcToughness && r.system.autoCalcParry
      && var step := if typeChoice == CHANGE_TYPE_BASE && raise then RAISE_DIE_STEP else 0;
      && r.system.strength == created.system.strength.(die := created.system.strength.die.(sides := created.system.strength.die.sides + step))
      && r.system.vigor == created.system.vigor.(die := created.system.vigor.die.(sides := created.system.vigor.die.sides + step))
      && r.items == created.items && r.effects == created.effects && r.ownership == created.ownership
      && r.id == created.id
  {
  }

  /** The raise keys are present exactly for a base change with a raise. */
  lemma RaiseKeysOnlyForBaseRaise(original: Actor, created: Stats, typeChoice: string, raise: bool)
    ensures var u := TransformUpdate(original, created, typeChoice, raise);
      (u.strengthSides.Some? <==> typeChoice == CHANGE_TYPE_BASE && raise) &&
      (u.vigorSides.Some? <==> typeChoice == CHANGE_TYPE_BASE && raise)
  {
  }

  /** The update applied to the original actor on revert: the current values (and only the
      values) of bennies, wounds and fatigue of the created actor. */
  function RevertUpdate(created: Actor): ActorUpdate {
    NoUpdate.(
      benniesValue := Some(created.system.bennies.value),
      woundsValue := Some(created.system.wounds.value),
      fatigueValue := Some(created.system.fatigue.value))
  }

  /* ---------------------------------------------------------------------------------- */
  /* Tokens                                                                              */
  /* ---------------------------------------------------------------------------------- */

  function MarkChangeSource(t: Token, v: bool): Token {
    t.(flags := SetFlag(t.flags, FLAG_IS_CHANGE_SOURCE, FlagBool(v)))
  }

  /** The source token moved one grid square up and left, and hidden. */
  function HideAndOffset(t: Token, grid: int): Token {
    t.(x := t.x - grid, y := t.y - grid, hidden := true)
  }

  function LinkToOriginal(t: Token, originalId: string): Token {
    t.(flags := SetFlag(t.flags, FLAG_ORIGINAL_TOKEN, FlagString(originalId)))
  }

  /** A token placed at (x, y) and made visible. */
  function ShowAt(t: Token, x: int, y: int): Token {
    t.(x := x, y := y, hidden := false)
  }

  /** The token created for the new shape: the template's prototype token, at the source
      token's position and with its name, bound to the actor `actorId`. */
  function NewTokenFor(template: Actor, source: Token, tokenId: string, actorId: string): Token {
    Token(tokenId, source.name, actorId, source.x, source.y, template.prototype.hidden, template.prototype.flags)
  }

  /** The convention a completed shape change leaves behind: the created token names its
      original, and the original is a hidden change source. */
  predicate ChangedPair(tokens: map<string, Token>, createdId: string, originalId: string) {
    && createdId in tokens && originalId in tokens
    && GetFlag(tokens[createdId].flags, FLAG_ORIGINAL_TOKEN) == Some(FlagString(originalId))
    && GetFlag(tokens[originalId].flags, FLAG_IS_CHANGE_SOURCE) == Some(FlagBool(true))
    && tokens[originalId].hidden
  }

  /** Transform then revert puts the source token back where it was, visible, with its
      change-source flag cleared and every other flag as before. */
  lemma SourceTokenRoundTrip(source: Token, template: Actor, grid: int, createdId: string, actorId: string)
    ensures var created := NewTokenFor(template, source, createdId, actorId);
      MarkChangeSource(ShowAt(HideAndOffset(MarkChangeSource(source, true), grid), created.x, created.y), false)
        == MarkChangeSource(source, false).(hidden := false)
  {
    SetFlagTwice(source.flags, FLAG_IS_CHANGE_SOURCE, FlagBool(true), FlagBool(false));
  }

  /* ---------------------------------------------------------------------------------- */
  /* Combat tracker swap                                                                 */
  /* ---------------------------------------------------------------------------------- */

  datatype CombatantUpdate = CombatantUpdate(id: string, tokenId: string, sceneId: string, actorId: string)
  datatype CombatUpdate = CombatUpdate(combatId: string, combatantUpdateData: seq<CombatantUpdate>)

  /** `combat.combatants.find(c => c.tokenId == tokenId)` finds something. */
  predicate InCombat(c: Combat, tokenId: string) {
    exists k :: 0 <= k < |c.combatants| && c.combatants[k].tokenId == tokenId
  }

  function MatchingCombats(combats: seq<Combat>, tokenId: string): seq<Combat> {
    Filter(combats, (c: Combat) => InCombat(c, tokenId))
  }

  function MatchingCombatants(cs: seq<Combatant>, tokenId: string): seq<Combatant> {
    Filter(cs, (x: Combatant) => x.tokenId == tokenId)
  }

  function CombatantEntry(x: Combatant, newTokenId: string, sceneId: string, newActorId: string): CombatantUpdate {
    CombatantUpdate(x.id, newTokenId, sceneId, newActorId)
  }

  function CombatantUpdates(cs: seq<Combatant>, cur: string, newTokenId: string, sceneId: string, newActorId: string): seq<CombatantUpdate> {
    Map(MatchingCombatants(cs, cur), (x: Combatant) => CombatantEntry(x, newTokenId, sceneId, newActorId))
  }

  function CombatEntry(c: Combat, cur: string, newTokenId: string, sceneId: string, newActorId: string): CombatUpdate {
    CombatUpdate(c.id, CombatantUpdates(c.combatants, cur, newTokenId, sceneId, newActorId))
  }

  /** `combatUpdateData`: one entry per combat holding the current token, each listing that
      combat's combatants of the current token. */
  function CombatUpdates(combats: seq<Combat>, cur: string, newTokenId: string, sceneId: string, newActorId: string): seq<CombatUpdate> {
    CombatEntries(MatchingCombats(combats, cur), cur, newTokenId, sceneId, newActorId)
  }

  function CombatEntries(matching: seq<Combat>, cur: string, newTokenId: string, sceneId: string, newActorId: string): seq<CombatUpdate> {
    Map(matching, (c: Combat) => CombatEntry(c, cur, newTokenId, sceneId, newActorId))
  }

  /** Builds `combatUpdateData` from the matching combats with the two nested loops of
      `swapTokensInCombat`. */
  method BuildCombatUpdateData(matching: seq<Combat>, cur: string, newTokenId: string, sceneId: string, newActorId: string)
    returns (data: seq<CombatUpdate>)
    ensures data == CombatEntries(matching, cur, newTokenId, sceneId, newActorId)
  {
    data := [];
    for i := 0 to |matching|
      invariant |data| == i
      invariant forall k :: 0 <= k < i ==> data[k] == CombatEntry(matching[k], cur, newTokenId, sceneId, newActorId)
    {
      var combat := matching[i];
      var entries := BuildCombatantEntries(combat.combatants, cur, newTokenId, sceneId, newActorId);
      data := data + [CombatUpdate(combat.id, entries)];
    }
    MapPointwise(matching, (c: Combat) => CombatEntry(c, cur, newTokenId, sceneId, newActorId), data);
  }

  /** A list that agrees with `Map(s, f)` at every index is `Map(s, f)`. */
  lemma MapPointwise<T, U>(s: seq<T>, f: T -> U, r: seq<U>)
    requires |r| == |s| && forall k :: 0 <= k < |s| ==> r[k] == f(s[k])
    ensures r == Map(s, f)
  {
  }

  /** The inner loop of `swapTokensInCombat`: one update per combatant of the current token. */
  method BuildCombatantEntries(cs: seq<Combatant>, cur: string, newTokenId: string, sceneId: string, newActorId: string)
    returns (entries: seq<CombatantUpdate>)
    ensures entries == CombatantUpdates(cs, cur, newTokenId, sceneId, newActorId)
  {
    var combatants := MatchingCombatants(cs, cur);
    entries := [];
    for j := 0 to |combatants|
      invariant |entries| == j
      invariant forall k :: 0 <= k < j ==> entries[k] == CombatantEntry(combatants[k], newTokenId, sceneId, newActorId)
    {
      entries := entries + [CombatantEntry(combatants[j], newTokenId, sceneId, newActorId)];
    }
  }

  /** The host applying one combatant update: the combatant with that id is rewritten. */
  function ApplyCombatantUpdate(x: Combatant, u: CombatantUpdate): Combatant {
    if x.id == u.id then x.(tokenId := u.tokenId, sceneId := u.sceneId, actorId := u.actorId) else x
  }

  /** One combatant after every update of the list, in order. */
  function ReceiveAll(x: Combatant, ups: seq<CombatantUpdate>): Combatant
    decreases |ups|
  {
    if ups == [] then x else ReceiveAll(ApplyCombatantUpdate(x, ups[0]), ups[1..])
  }

  /** The host's `combat.updateEmbeddedDocuments("Combatant", ups)`. */
  function ApplyCombatantUpdates(cs: seq<Combatant>, ups: seq<CombatantUpdate>): (r: seq<Combatant>)
    ensures |r| == |cs|
    ensures forall k :: 0 <= k < |cs| ==> r[k] == ReceiveAll(cs[k], ups)
  {
    if cs == [] then [] else [ReceiveAll(cs[0], ups)] + ApplyCombatantUpdates(cs[1..], ups)
  }

  /** One combat after an entry of `combatUpdateData` is applied to the combat of that id. */
  function ApplyCombatEntry(c: Combat, d: CombatUpdate): Combat {
    if c.id == d.combatId then c.(combatants := ApplyCombatantUpdates(c.combatants, d.combatantUpdateData)) else c
  }

  function ApplyCombatUpdate(combats: seq<Combat>, d: CombatUpdate): (r: seq<Combat>)
    ensures |r| == |combats|
    ensures forall k :: 0 <= k < |combats| ==> r[k] == ApplyCombatEntry(combats[k], d)
  {
    if combats == [] then [] else [ApplyCombatEntry(combats[0], d)] + ApplyCombatUpdate(combats[1..], d)
  }

  /** The combats after the entries of `data` are applied in order. */
  function ApplyCombatData(combats: seq<Combat>, data: seq<CombatUpdate>): (r: seq<Combat>)
    ensures |r| == |combats|
    decreases |data|
  {
    if data == [] then combats
    else ApplyCombatData(ApplyCombatUpdate(combats, data[0]), data[1..])
  }

  /** The ids of the combats, in order; `game.combats.find(c => c.id == id)` finds a combat
      exactly when `id` is among them. */
  function CombatIdList(combats: seq<Combat>): (r: seq<string>)
    ensures |r| == |combats| && forall k :: 0 <= k < |combats| ==> r[k] == combats[k].id
  {
    if combats == [] then [] else [combats[0].id] + CombatIdList(combats[1..])
  }

  /** A combatant of the current token, pointed at the new token, its actor and the scene. */
  function Rewrite(x: Combatant, cur: string, newTokenId: string, sceneId: string, newActorId: string): Combatant {
    if x.tokenId == cur then x.(tokenId := newTokenId, sceneId := sceneId, actorId := newActorId) else x
  }

  function RewriteAll(cs: seq<Combatant>, cur: string, newTokenId: string, sceneId: string, newActorId: string): (r: seq<Combatant>)
    ensures |r| == |cs|
    ensures forall k :: 0 <= k < |cs| ==> r[k] == Rewrite(cs[k], cur, newTokenId, sceneId, newActorId)
  {
    if cs == [] then [] else [Rewrite(cs[0], cur, newTokenId, sceneId, newActorId)] + RewriteAll(cs[1..], cur, newTokenId, sceneId, newActorId)
  }

  /** One combat with its combatants of the current token rewritten. */
  function SwapOne(c: Combat, cur: string, newTokenId: string, sceneId: string, newActorId: string): Combat {
    c.(combatants := RewriteAll(c.combatants, cur, newTokenId, sceneId, newActorId))
  }

  /** Every combat with its combatants of the current token rewritten, and nothing else. */
  function SwapAll(combats: seq<Combat>, cur: string, newTokenId: string, sceneId: string, newActorId: string): (r: seq<Combat>)
    ensures |r| == |combats|
    ensures forall k :: 0 <= k < |combats| ==> r[k] == SwapOne(combats[k], cur, newTokenId, sceneId, newActorId)
  {
    if combats == [] then []
    else [SwapOne(combats[0], cur, newTokenId, sceneId, newActorId)] + SwapAll(combats[1..], cur, newTokenId, sceneId, newActorId)
  }

  predicate UniqueCombatantIds(cs: seq<Combatant>) {
    forall i, j :: 0 <= i < |cs| && 0 <= j < |cs| && cs[i].id == cs[j].id ==> i == j
  }

  predicate UniqueCombatIds(combats: seq<Combat>) {
    forall i, j :: 0 <= i < |combats| && 0 <= j < |combats| && combats[i].id == combats[j].id ==> i == j
  }

  /** A combatant receives an update list in which every update addressed to it is `e`. */
  lemma {:induction false} ReceiveOnly(x: Combatant, ups: seq<CombatantUpdate>, e: CombatantUpdate)
    requires e.id == x.id
    requires forall u :: u in ups && u.id == x.id ==> u == e
    ensures ReceiveAll(x, ups) == if e in ups then ApplyCombatantUpdate(x, e) else x
    decreases |ups|
  {
    if ups != [] {
      var y := ApplyCombatantUpdate(x, ups[0]);
      assert forall u :: u in ups[1..] ==> u in ups;
      if ups[0] == e {
        ReceiveOnly(y, ups[1..], e);
        assert ApplyCombatantUpdate(y, e) == y;
      } else {
        assert y == x;
        ReceiveOnly(x, ups[1..], e);
      }
    }
  }

  /** The combatant entries of one combat, one per combatant of the current token. */
  lemma CombatantUpdatesShape(cs: seq<Combatant>, cur: string, newTokenId: string, sceneId: string, newActorId: string)
    ensures var ups := CombatantUpdates(cs, cur, newTokenId, sceneId, newActorId);
      var ms := MatchingCombatants(cs, cur);
      && |ups| == |ms|
      && (forall j :: 0 <= j < |ms| ==> ups[j] == CombatantEntry(ms[j], newTokenId, sceneId, newActorId))
      && (forall y :: y in ms <==> y in cs && y.tokenId == cur)
  {
  }

  /** With unique combatant ids, the only entry addressed to a combatant is its own, and it
      is there exactly when the combatant belongs to the current token. */
  lemma EntryAddressing(cs: seq<Combatant>, k: nat, cur: string, newTokenId: string, sceneId: string, newActorId: string)
    requires UniqueCombatantIds(cs) && k < |cs|
    ensures var ups := CombatantUpdates(cs, cur, newTokenId, sceneId, newActorId);
      var e := CombatantEntry(cs[k], newTokenId, sceneId, newActorId);
      && (forall u :: u in ups && u.id == cs[k].id ==> u == e)
      && (e in ups <==> cs[k].tokenId == cur)
  {
    var ups := CombatantUpdates(cs, cur, newTokenId, sceneId, newActorId);
    var ms := MatchingCombatants(cs, cur);
    var x := cs[k];
    var e := CombatantEntry(x, newTokenId, sceneId, newActorId);
    CombatantUpdatesShape(cs, cur, newTokenId, sceneId, newActorId);
    forall u | u in ups && u.id == x.id ensures u == e {
      var j :| 0 <= j < |ups| && ups[j] == u;
      var i :| 0 <= i < |cs| && cs[i] == ms[j];
      assert i == k;
    }
    if x.tokenId == cur {
      var j :| 0 <= j < |ms| && ms[j] == x;
      assert ups[j] == e;
    }
    if e in ups {
      var j :| 0 <= j < |ups| && ups[j] == e;
      var i :| 0 <= i < |cs| && cs[i] == ms[j];
      assert i == k;
    }
  }

  /** In one combat, the host applying the combatant entries rewrites exactly the combatants
      of the current token. */
  lemma CombatantSwap(cs: seq<Combatant>, cur: string, newTokenId: string, sceneId: string, newActorId: string)
    requires UniqueCombatantIds(cs)
    ensures ApplyCombatantUpdates(cs, CombatantUpdates(cs, cur, newTokenId, sceneId, newActorId))
            == RewriteAll(cs, cur, newTokenId, sceneId, newActorId)
  {
    var ups := CombatantUpdates(cs, cur, newTokenId, sceneId, newActorId);
    forall k | 0 <= k < |cs|
      ensures ReceiveAll(cs[k], ups) == Rewrite(cs[k], cur, newTokenId, sceneId, newActorId)
    {
      EntryAddressing(cs, k, cur, newTokenId, sceneId, newActorId);
      ReceiveOnly(cs[k], ups, CombatantEntry(cs[k], newTokenId, sceneId, newActorId));
    }
  }

  lemma MapConcat<T, U>(a: seq<T>, b: seq<T>, f: T -> U)
    ensures Map(a + b, f) == Map(a, f) + Map(b, f)
  {
  }

  lemma {:induction false} CombatUpdatesStep(combats: seq<Combat>, m: nat, cur: string, newTokenId: string, sceneId: string, newActorId: string)
    requires m < |combats|
    ensures CombatUpdates(combats[..m + 1], cur, newTokenId, sceneId, newActorId)
      == CombatUpdates(combats[..m], cur, newTokenId, sceneId, newActorId) +
         (if InCombat(combats[m], cur) then [CombatEntry(combats[m], cur, newTokenId, sceneId, newActorId)] else [])
  {
    var p := (c: Combat) => InCombat(c, cur);
    var f := (c: Combat) => CombatEntry(c, cur, newTokenId, sceneId, newActorId);
    assert combats[..m + 1] == combats[..m] + [combats[m]];
    FilterConcat(combats[..m], [combats[m]], p);
    MapConcat(Filter(combats[..m], p), Filter([combats[m]], p), f);
  }

  lemma {:induction false} ApplyDataSnoc(combats: seq<Combat>, data: seq<CombatUpdate>, d: CombatUpdate)
    ensures ApplyCombatData(combats, data + [d]) == ApplyCombatUpdate(ApplyCombatData(combats, data), d)
    decreases |data|
  {
    if data == [] {
      assert [d][1..] == [];
    } else {
      assert (data + [d])[0] == data[0] && (data + [d])[1..] == data[1..] + [d];
      ApplyDataSnoc(ApplyCombatUpdate(combats, data[0]), data[1..], d);
    }
  }

  /** A combat that does not hold the current token is left as it is. */
  lemma SwapOneOutside(c: Combat, cur: string, newTokenId: string, sceneId: string, newActorId: string)
    requires !InCombat(c, cur)
    ensures SwapOne(c, cur, newTokenId, sceneId, newActorId) == c
  {
    var r := RewriteAll(c.combatants, cur, newTokenId, sceneId, newActorId);
    assert forall k :: 0 <= k < |c.combatants| ==> r[k] == c.combatants[k];
  }

  /** The data built from the first `m` combats, applied to all combats, swaps those first
      `m` combats and leaves the rest. */
  lemma {:induction false} CombatSwapPrefix(combats: seq<Combat>, m: nat, cur: string, newTokenId: string, sceneId: string, newActorId: string)
    requires m <= |combats|
    requires UniqueCombatIds(combats)
    requires forall k :: 0 <= k < |combats| ==> UniqueCombatantIds(combats[k].combatants)
    ensures var r := ApplyCombatData(combats, CombatUpdates(combats[..m], cur, newTokenId, sceneId, newActorId));
      forall k :: 0 <= k < |combats| ==>
        r[k] == if k < m then SwapOne(combats[k], cur, newTokenId, sceneId, newActorId) else combats[k]
  {
    if m == 0 {
      assert combats[..0] == [];
      assert CombatUpdates(combats[..0], cur, newTokenId, sceneId, newActorId) == [];
    } else {
      var n := m - 1;
      CombatSwapPrefix(combats, n, cur, newTokenId, sceneId, newActorId);
      CombatUpdatesStep(combats, n, cur, newTokenId, sceneId, newActorId);
      SwapStep(combats, CombatUpdates(combats[..n], cur, newTokenId, sceneId, newActorId), n, cur, newTokenId, sceneId, newActorId);
    }
  }

  /** One step of `CombatSwapPrefix`: the entry of combat `n`, when there is one, swaps
      that combat and no other. */
  lemma SwapStep(combats: seq<Combat>, before: seq<CombatUpdate>, n: nat, cur: string, newTokenId: string, sceneId: string, newActorId: string)
    requires n < |combats| && UniqueCombatIds(combats) && UniqueCombatantIds(combats[n].combatants)
    requires var mid := ApplyCombatData(combats, before);
      forall k :: 0 <= k < |combats| ==>
        mid[k] == if k < n then SwapOne(combats[k], cur, newTokenId, sceneId, newActorId) else combats[k]
    ensures var step := if InCombat(combats[n], cur) then [CombatEntry(combats[n], cur, newTokenId, sceneId, newActorId)] else [];
      var r := ApplyCombatData(combats, before + step);
      forall k :: 0 <= k < |combats| ==>
        r[k] == if k < n + 1 then SwapOne(combats[k], cur, newTokenId, sceneId, newActorId) else combats[k]
  {
    var mid := ApplyCombatData(combats, before);
    var c := combats[n];
    if InCombat(c, cur) {
      var d := CombatEntry(c, cur, newTokenId, sceneId, newActorId);
      ApplyDataSnoc(combats, before, d);
      CombatantSwap(c.combatants, cur, newTokenId, sceneId, newActorId);
      ApplyDataKeepsIds(combats, before);
      var r := ApplyCombatUpdate(mid, d);
      forall k | 0 <= k < |combats|
        ensures r[k] == if k < n + 1 then SwapOne(combats[k], cur, newTokenId, sceneId, newActorId) else combats[k]
      {
        if k != n {
          assert CombatIdList(mid)[k] == CombatIdList(combats)[k];
        }
      }
    } else {
      assert before + [] == before;
      SwapOneOutside(c, cur, newTokenId, sceneId, newActorId);
    }
  }

  /** The combat swap as a whole: with the host's unique ids, applying `combatUpdateData`
      rewrites exactly the combatants that point at the current token, in every combat. */
  lemma CombatSwapRewritesExactly(combats: seq<Combat>, cur: string, newTokenId: string, sceneId: string, newActorId: string)
    requires UniqueCombatIds(combats)
    requires forall k :: 0 <= k < |combats| ==> UniqueCombatantIds(combats[k].combatants)
    ensures ApplyCombatData(combats, CombatUpdates(combats, cur, newTokenId, sceneId, newActorId))
      == SwapAll(combats, cur, newTokenId, sceneId, newActorId)
  {
    CombatSwapPrefix(combats, |combats|, cur, newTokenId, sceneId, newActorId);
    assert combats[..|combats|] == combats;
  }

  /** Every entry of `data` names one of the combats `ids`. */
  predicate AllCombatsExist(ids: seq<string>, data: seq<CombatUpdate>) {
    AllCombatsExistFrom(ids, data, 0)
  }

  /** Every entry of `data` from index `i` on names one of the combats `ids`. */
  predicate AllCombatsExistFrom(ids: seq<string>, data: seq<CombatUpdate>, i: nat)
    decreases |data| - i
  {
    i >= |data| || (data[i].combatId in ids && AllCombatsExistFrom(ids, data, i + 1))
  }

  lemma {:induction false} AllCombatsExistAt(ids: seq<string>, data: seq<CombatUpdate>, i: nat)
    requires forall k :: 0 <= k < |data| ==> data[k].combatId in ids
    ensures AllCombatsExistFrom(ids, data, i)
    decreases |data| - i
  {
    if i < |data| {
      AllCombatsExistAt(ids, data, i + 1);
    }
  }

  lemma ApplyCombatUpdateKeepsIds(combats: seq<Combat>, d: CombatUpdate)
    ensures CombatIdList(ApplyCombatUpdate(combats, d)) == CombatIdList(combats)
  {
    assert forall k :: 0 <= k < |combats| ==> CombatIdList(ApplyCombatUpdate(combats, d))[k] == CombatIdList(combats)[k];
  }

  lemma {:induction false} ApplyDataKeepsIds(combats: seq<Combat>, data: seq<CombatUpdate>)
    ensures CombatIdList(ApplyCombatData(combats, data)) == CombatIdList(combats)
    decreases |data|
  {
    if data != [] {
      ApplyCombatUpdateKeepsIds(combats, data[0]);
      ApplyDataKeepsIds(ApplyCombatUpdate(combats, data[0]), data[1..]);
    }
  }

  /** What `updateCombatant` leaves: the entries applied in order up to the first one whose
      combat is missing, where the loop throws. */
  function UpdateCombatantEffect(combats: seq<Combat>, data: seq<CombatUpdate>): seq<Combat> {
    UpdateCombatantFrom(combats, data, 0)
  }

  /** What `updateCombatant` leaves when it starts at entry `i`. */
  function UpdateCombatantFrom(combats: seq<Combat>, data: seq<CombatUpdate>, i: nat): seq<Combat>
    decreases |data| - i
  {
    if i >= |data| || data[i].combatId !in CombatIdList(combats) then combats
    else UpdateCombatantFrom(ApplyCombatUpdate(combats, data[i]), data, i + 1)
  }

  /** When every combat exists, `updateCombatant` applies all of the data. */
  lemma UpdateCombatantAppliesAll(combats: seq<Combat>, data: seq<CombatUpdate>)
    requires AllCombatsExist(CombatIdList(combats), data)
    ensures UpdateCombatantEffect(combats, data) == ApplyCombatData(combats, data)
  {
    UpdateCombatantAppliesFrom(combats, data, 0);
  }

  lemma {:induction false} UpdateCombatantAppliesFrom(combats: seq<Combat>, data: seq<CombatUpdate>, i: nat)
    requires i <= |data|
    requires AllCombatsExistFrom(CombatIdList(combats), data, i)
    ensures UpdateCombatantFrom(combats, data, i) == ApplyCombatData(combats, data[i..])
    decreases |data| - i
  {
    if i < |data| {
      assert data[i..][0] == data[i] && data[i..][1..] == data[i + 1..];
      ApplyCombatUpdateKeepsIds(combats, data[i]);
      UpdateCombatantAppliesFrom(ApplyCombatUpdate(combats, data[i]), data, i + 1);
    }
  }

  /** `updateCombatant`, run by the privileged client: each entry's combat is looked up by id
      and its combatants updated; a missing combat throws and ends the loop, which `ok`
      reports. */
  method UpdateCombatant(w: World, data: seq<CombatUpdate>) returns (ok: bool)
    modifies w`combats
    ensures w.combats == UpdateCombatantEffect(old(w.combats), data)
    ensures ok == AllCombatsExist(CombatIdList(old(w.combats)), data)
    ensures CombatIdList(w.combats) == CombatIdList(old(w.combats))
  {
    ghost var ids := CombatIdList(w.combats);
    var i := 0;
    while i < |data|
      invariant i <= |data|
      invariant UpdateCombatantFrom(w.combats, data, i) == UpdateCombatantEffect(old(w.combats), data)
      invariant CombatIdList(w.combats) == ids
      invariant AllCombatsExist(ids, data) == AllCombatsExistFrom(ids, data, i)
    {
      var d := data[i];
      if d.combatId !in CombatIdList(w.combats) {
        return false;
      }
      ApplyCombatUpdateKeepsIds(w.combats, d);
      w.combats := ApplyCombatUpdate(w.combats, d);
      i := i + 1;
    }
    return true;
  }

  /** `swapTokensInCombat`: the new token takes the current token's place in every combat
      tracker; the request goes to the privileged client only when some combat holds the
      current token. */
  method SwapTokensInCombat(w: World, cur: string, newTokenId: string, newActorId: string) returns (rpcIssued: bool)
    modifies w`combats
    ensures rpcIssued <==> exists k :: 0 <= k < |old(w.combats)| && InCombat(old(w.combats)[k], cur)
    ensures w.combats == ApplyCombatData(old(w.combats), CombatUpdates(old(w.combats), cur, newTokenId, w.sceneId, newActorId))
  {
    var matching := MatchingCombats(w.combats, cur);
    rpcIssued := |matching| > 0;
    assert rpcIssued <==> exists k :: 0 <= k < |w.combats| && InCombat(w.combats[k], cur) by {
      if exists k :: 0 <= k < |w.combats| && InCombat(w.combats[k], cur) {
        var k :| 0 <= k < |w.combats| && InCombat(w.combats[k], cur);
        assert w.combats[k] in matching;
      }
      if |matching| > 0 {
        assert matching[0] in w.combats;
      }
    }
    if rpcIssued {
      var data := BuildCombatUpdateData(matching, cur, newTokenId, w.sceneId, newActorId);
      CombatUpdatesExist(w.combats, cur, newTokenId, w.sceneId, newActorId);
      UpdateCombatantAppliesAll(w.combats, data);
      var _ := UpdateCombatant(w, data);
    } else {
      assert CombatUpdates(w.combats, cur, newTokenId, w.sceneId, newActorId) == [];
    }
  }

  /** Every entry of `combatUpdateData` names a combat it was built from. */
  lemma CombatUpdatesExist(combats: seq<Combat>, cur: string, newTokenId: string, sceneId: string, newActorId: string)
    ensures AllCombatsExist(CombatIdList(combats), CombatUpdates(combats, cur, newTokenId, sceneId, newActorId))
  {
    var data := CombatUpdates(combats, cur, newTokenId, sceneId, newActorId);
    var matching := MatchingCombats(combats, cur);
    forall k | 0 <= k < |data| ensures data[k].combatId in CombatIdList(combats) {
      assert matching[k] in combats;
      var i :| 0 <= i < |combats| && combats[i] == matching[k];
      assert CombatIdList(combats)[i] == data[k].combatId;
    }
    AllCombatsExistAt(CombatIdList(combats), data, 0);
  }

  /* ---------------------------------------------------------------------------------- */
  /* Max-wound warning                                                                   */
  /* ---------------------------------------------------------------------------------- */

  const MAX_WOUNDS_KEY: string := "system.wounds.max"

  predicate HasMaxWoundChange(effects: seq<Effect>) {
    exists i, j :: 0 <= i < |effects| && 0 <= j < |effects[i].changeKeys| && effects[i].changeKeys[j] == MAX_WOUNDS_KEY
  }

  /** The `hasMaxWoundChange` loops: the inner loop stops at the first matching change. */
  method FindMaxWoundChange(effects: seq<Effect>) returns (found: bool)
    ensures found == HasMaxWoundChange(effects)
  {
    found := false;
    for i := 0 to |effects|
      invariant found <==> exists i', j :: 0 <= i' < i && 0 <= j < |effects[i'].changeKeys| && effects[i'].changeKeys[j] == MAX_WOUNDS_KEY
    {
      var changes := effects[i].changeKeys;
      var j := 0;
      while j < |changes|
        invariant 0 <= j <= |changes|
        invariant found <==>
          (exists i', j' :: 0 <= i' < i && 0 <= j' < |effects[i'].changeKeys| && effects[i'].changeKeys[j'] == MAX_WOUNDS_KEY) ||
          (exists j' :: 0 <= j' < j && changes[j'] == MAX_WOUNDS_KEY)
      {
        if changes[j] == MAX_WOUNDS_KEY {
          found := true;
          break;
        }
        j := j + 1;
      }
    }
  }

  /* ---------------------------------------------------------------------------------- */
  /* Transform                                                                           */
  /* ---------------------------------------------------------------------------------- */

  /** The created token's actor: the template's data under its own id, owned like the source
      token's actor. */
  function SyntheticActor(template: Actor, actorId: string, ownership: map<string, int>): Actor {
    template.(id := actorId, ownership := ownership)
  }

  /** The created actor once the items are swapped and the temporary effects copied. */
  function PreparedActor(base: Actor, original: Actor): Actor {
    base.(items := StrippedItems(base.items) + ItemsToAdd(original.items),
          effects := base.effects + TemporaryEffects(original.effects))
  }

  /** The created actor at the end of a transform. */
  function ChangedActor(base: Actor, original: Actor, typeChoice: string, raise: bool): Actor {
    ApplyUpdate(PreparedActor(base, original), TransformUpdate(original, base.system, typeChoice, raise))
  }

  datatype TransformOutcome =
    | Transformed(maxWoundWarning: bool, combatRpcIssued: bool)
      /** `updateDatafoundry` is not defined: the animal-smarts branch throws. */
    | ReferenceError

  /** The deletion loop over `itemsToRemove`. */
  method DeleteItems(w: World, actorId: string, toRemove: seq<Item>)
    requires actorId in w.actors
    modifies w`actors
    ensures w.actors == old(w.actors)[actorId := old(w.actors[actorId]).(items := WithoutIds(old(w.actors[actorId].items), IdsOf(toRemove)))]
  {
    ghost var a0 := w.actors[actorId];
    assert IdsOf(toRemove[..0]) == {};
    assert WithoutIds(a0.items, {}) == a0.items by {
      WithoutNoIds(a0.items);
    }
    for i := 0 to |toRemove|
      invariant w.actors == old(w.actors)[actorId := a0.(items := WithoutIds(a0.items, IdsOf(toRemove[..i])))]
    {
      var a := w.actors[actorId];
      w.actors := w.actors[actorId := a.(items := WithoutIds(a.items, {toRemove[i].id}))];
      WithoutIdsStep(a0.items, IdsOf(toRemove[..i]), toRemove[i].id);
      IdsOfStep(toRemove, i);
    }
    assert toRemove[..|toRemove|] == toRemove;
  }

  lemma {:induction false} WithoutNoIds(items: seq<Item>)
    ensures WithoutIds(items, {}) == items
  {
    if items != [] {
      WithoutNoIds(items[1..]);
    }
  }

  /** The scene's tokens after a transform, step by step: the source is flagged as a change
      source, the new token is created, the source is hidden and moved, and (when the run
      gets that far) the new token records its original. */
  function TokensAfterTransform(tokens: map<string, Token>, originalTokenId: string, template: Actor,
                                newTokenId: string, newActorId: string, grid: int, linked: bool): map<string, Token>
    requires originalTokenId in tokens
  {
    var source := tokens[originalTokenId];
    var marked := tokens[originalTokenId := MarkChangeSource(source, true)];
    var created := marked[newTokenId := NewTokenFor(template, source, newTokenId, newActorId)];
    var hidden := created[originalTokenId := HideAndOffset(created[originalTokenId], grid)];
    if linked then hidden[newTokenId := LinkToOriginal(hidden[newTokenId], originalTokenId)] else hidden
  }

  /** What the transform does to the tokens: exactly one token is added, the source becomes a
      hidden change source one square up and left, every other token is untouched, and a run
      that gets as far as linking leaves a changed pair behind. */
  lemma TokensAfterTransformAre(tokens: map<string, Token>, originalTokenId: string, template: Actor,
                                newTokenId: string, newActorId: string, grid: int, linked: bool)
    requires originalTokenId in tokens && newTokenId !in tokens
    ensures var r := TokensAfterTransform(tokens, originalTokenId, template, newTokenId, newActorId, grid, linked);
      var source := tokens[originalTokenId];
      var created := NewTokenFor(template, source, newTokenId, newActorId);
      && r.Keys == tokens.Keys + {newTokenId}
      && r[originalTokenId] == HideAndOffset(MarkChangeSource(source, true), grid)
      && r[newTokenId] == (if linked then LinkToOriginal(created, originalTokenId) else created)
      && (forall k :: k in tokens && k != originalTokenId ==> r[k] == tokens[k])
      && (linked ==> ChangedPair(r, newTokenId, originalTokenId))
  {
  }

  /** `changeTokenIntoActor`, as the steps run: flag the source, create the token and its
      actor, hide and offset the source, delete the stripped items, add the carried items
      and the temporary effects, then (unless the animal-smarts branch throws) update the
      created actor, link the created token to its original, swap the combatants and decide
      on the max-wound warning. `newTokenId` and `newActorId` are the ids the host gives the
      created token and its actor; `ignoreWoundWarning` is the module setting. */
  method ChangeTokenIntoActor(
    w: World, originalTokenId: string, actorToCreate: Actor, newTokenId: string, newActorId: string,
    typeChoice: string, animalSmarts: bool, raise: bool, ignoreWoundWarning: bool)
    returns (outcome: TransformOutcome)
    requires originalTokenId in w.tokens && w.tokens[originalTokenId].actorId in w.actors
    requires newTokenId !in w.tokens && newActorId !in w.actors
    modifies w
    ensures outcome.ReferenceError? <==> animalSmarts
    ensures w.tokens == TokensAfterTransform(old(w.tokens), originalTokenId, actorToCreate, newTokenId, newActorId, w.gridSize, !animalSmarts)
    ensures var original := old(w.actors[w.tokens[originalTokenId].actorId]);
      var base := SyntheticActor(actorToCreate, newActorId, original.ownership);
      w.actors == old(w.actors)[newActorId := if animalSmarts then PreparedActor(base, original)
                                              else ChangedActor(base, original, typeChoice, raise)]
    ensures animalSmarts ==> w.combats == old(w.combats)
    ensures !animalSmarts ==>
      w.combats == ApplyCombatData(old(w.combats), CombatUpdates(old(w.combats), originalTokenId, newTokenId, w.sceneId, newActorId))
    ensures outcome.Transformed? ==>
      outcome.maxWoundWarning == (!ignoreWoundWarning && HasMaxWoundChange(AppliedEffects(old(w.actors[w.tokens[originalTokenId].actorId]).effects)))
    ensures outcome.Transformed? ==>
      (outcome.combatRpcIssued <==> exists k :: 0 <= k < |old(w.combats)| && InCombat(old(w.combats)[k], originalTokenId))
  {
    var source := w.tokens[originalTokenId];
    var original := w.actors[source.actorId];

    ghost var base := SyntheticActor(actorToCreate, newActorId, original.ownership);

    CreateShapeToken(w, originalTokenId, actorToCreate, newTokenId, newActorId);
    ghost var shaped := w.tokens;

    SwapItemsAndEffects(w, newActorId, original);
    MapUpdateTwice(old(w.actors), newActorId, base, PreparedActor(base, original));

    if animalSmarts {
      return ReferenceError;
    }

    outcome := CompleteTransform(w, originalTokenId, original, actorToCreate.system, newTokenId, newActorId,
                                 typeChoice, raise, ignoreWoundWarning);
    MapUpdateTwice(old(w.actors), newActorId, PreparedActor(base, original), ChangedActor(base, original, typeChoice, raise));
    assert w.tokens == shaped[newTokenId := LinkToOriginal(shaped[newTokenId], originalTokenId)];
  }

  lemma MapUpdateTwice<K, V>(m: map<K, V>, k: K, v1: V, v2: V)
    ensures m[k := v1][k := v2] == m[k := v2]
  {
  }

  /** The steps after the animal-smarts branch: update the created actor's numbers, link the
      created token to its original, swap the combatants and decide on the max-wound
      warning. */
  method CompleteTransform(w: World, originalTokenId: string, original: Actor, createdStats: Stats,
                           newTokenId: string, newActorId: string, typeChoice: string, raise: bool,
                           ignoreWoundWarning: bool)
    returns (outcome: TransformOutcome)
    requires newTokenId in w.tokens && newActorId in w.actors
    modifies w
    ensures w.tokens == old(w.tokens)[newTokenId := LinkToOriginal(old(w.tokens[newTokenId]), originalTokenId)]
    ensures w.actors == old(w.actors)[newActorId := ApplyUpdate(old(w.actors[newActorId]), TransformUpdate(original, createdStats, typeChoice, raise))]
    ensures w.combats == ApplyCombatData(old(w.combats), CombatUpdates(old(w.combats), originalTokenId, newTokenId, w.sceneId, newActorId))
    ensures outcome == Transformed(
      !ignoreWoundWarning && HasMaxWoundChange(AppliedEffects(original.effects)),
      exists k :: 0 <= k < |old(w.combats)| && InCombat(old(w.combats)[k], originalTokenId))
  {
    var createdActor := w.actors[newActorId];
    var update := TransformUpdate(original, createdStats, typeChoice, raise);
    w.actors := w.actors[newActorId := ApplyUpdate(createdActor, update)];

    w.tokens := w.tokens[newTokenId := LinkToOriginal(w.tokens[newTokenId], originalTokenId)];

    var rpc := SwapTokensInCombat(w, originalTokenId, newTokenId, newActorId);

    var warn := false;
    if !ignoreWoundWarning {
      warn := FindMaxWoundChange(AppliedEffects(original.effects));
    }
    outcome := Transformed(warn, rpc);
  }

  /** The first steps of the transform: flag the source, create the new token with its
      synthetic actor (owned like the source's actor), hide and move the source. */
  method CreateShapeToken(w: World, originalTokenId: string, actorToCreate: Actor, newTokenId: string, newActorId: string)
    requires originalTokenId in w.tokens && w.tokens[originalTokenId].actorId in w.actors
    modifies w`tokens, w`actors
    ensures w.tokens == TokensAfterTransform(old(w.tokens), originalTokenId, actorToCreate, newTokenId, newActorId, w.gridSize, false)
    ensures w.actors == old(w.actors)[newActorId :=
      SyntheticActor(actorToCreate, newActorId, old(w.actors[w.tokens[originalTokenId].actorId]).ownership)]
  {
    var source := w.tokens[originalTokenId];
    var original := w.actors[source.actorId];
    var newTokenDoc := NewTokenFor(actorToCreate, source, newTokenId, newActorId);

    w.tokens := w.tokens[originalTokenId := MarkChangeSource(source, true)];

    w.tokens := w.tokens[newTokenId := newTokenDoc];
    w.actors := w.actors[newActorId := SyntheticActor(actorToCreate, newActorId, original.ownership)];

    w.tokens := w.tokens[originalTokenId := HideAndOffset(w.tokens[originalTokenId], w.gridSize)];
  }

  /** The item and effect steps of the transform on the created actor: delete the stripped
      items, add the carried items, add the original actor's temporary effects. */
  method SwapItemsAndEffects(w: World, actorId: string, original: Actor)
    requires actorId in w.actors
    modifies w`actors
    ensures w.actors == old(w.actors)[actorId := PreparedActor(old(w.actors[actorId]), original)]
  {
    var created := w.actors[actorId];
    var itemsToRemove := ItemsToRemove(created.items);
    DeleteItems(w, actorId, itemsToRemove);

    var itemsToAdd := ItemsToAdd(original.items);
    var stripped := w.actors[actorId];
    w.actors := w.actors[actorId := stripped.(items := stripped.items + itemsToAdd)];

    var effectsToAdd := TemporaryEffects(original.effects);
    var withItems := w.actors[actorId];
    w.actors := w.actors[actorId := withItems.(effects := withItems.effects + effectsToAdd)];
  }

  /* ---------------------------------------------------------------------------------- */
  /* Revert                                                                              */
  /* ---------------------------------------------------------------------------------- */

  /** The original actor after revert: the created actor's bennies, wounds and fatigue values,
      its temporary effects deleted and the created actor's temporary effects added. */
  function RevertedActor(original: Actor, created: Actor): Actor {
    var a := ApplyUpdate(original, RevertUpdate(created));
    a.(effects := WithoutEffectIds(a.effects, TemporaryIds(a.effects)) + TemporaryEffects(created.effects))
  }

  /** With unique effect ids, an effect's id is among the temporary ids exactly when the
      effect itself is temporary. */
  lemma TemporaryIdsExact(es: seq<Effect>)
    requires UniqueEffectIds(es)
    ensures forall e :: e in es ==> (e.id in TemporaryIds(es) <==> e.isTemporary)
  {
    forall e | e in es ensures e.id in TemporaryIds(es) <==> e.isTemporary {
      if e.id in TemporaryIds(es) {
        var f :| f in es && f.isTemporary && f.id == e.id;
        var i :| 0 <= i < |es| && es[i] == e;
        var j :| 0 <= j < |es| && es[j] == f;
        assert i == j;
      }
    }
  }

  /** The effects revert leaves: the original actor's permanent effects, in order, then the
      created actor's temporary effects. */
  lemma RevertedEffects(original: Actor, created: Actor)
    requires UniqueEffectIds(original.effects)
    ensures RevertedActor(original, created).effects
      == Filter(original.effects, IsPermanent) + TemporaryEffects(created.effects)
  {
    TemporaryIdsExact(original.effects);
    DeleteTemporaryKeepsPermanent(original.effects, TemporaryIds(original.effects));
  }

  /** Revert copies back the current values of bennies, wounds and fatigue and nothing else
      of the numbers; with unique effect ids it keeps the original actor's permanent effects
      as they were and leaves it with exactly the created actor's temporary effects. */
  lemma RevertedActorIs(original: Actor, created: Actor)
    requires UniqueEffectIds(original.effects)
    ensures var r := RevertedActor(original, created);
      && r.system == original.system.(
           bennies := original.system.bennies.(value := created.system.bennies.value),
           wounds := original.system.wounds.(value := created.system.wounds.value),
           fatigue := original.system.fatigue.(value := created.system.fatigue.value))
      && r.items == original.items && r.ownership == original.ownership
      && Filter(r.effects, IsPermanent) == Filter(original.effects, IsPermanent)
      && Filter(r.effects, IsTemporary) == TemporaryEffects(created.effects)
  {
    RevertedEffects(original, created);
    var kept := Filter(original.effects, IsPermanent);
    var added := TemporaryEffects(created.effects);
    FilterConcat(kept, added, IsPermanent);
    FilterConcat(kept, added, IsTemporary);
    FilterAll(kept, IsPermanent);
    FilterNone(kept, IsTemporary);
    FilterNone(added, IsPermanent);
    FilterAll(added, IsTemporary);
  }

  /** With nothing changed in between, revert gives the original actor back its own numbers. */
  lemma StatsRoundTrip(base: Actor, original: Actor, typeChoice: string, raise: bool)
    ensures RevertedActor(original, ChangedActor(base, original, typeChoice, raise)).system == original.system
  {
  }

  /** With nothing changed in between, revert leaves the original actor with its permanent
      effects, then the template's temporary effects, then its own temporary effects. */
  lemma EffectsRoundTrip(base: Actor, original: Actor, typeChoice: string, raise: bool)
    requires UniqueEffectIds(original.effects)
    ensures RevertedActor(original, ChangedActor(base, original, typeChoice, raise)).effects
      == Filter(original.effects, IsPermanent) + TemporaryEffects(base.effects) + TemporaryEffects(original.effects)
  {
    var created := ChangedActor(base, original, typeChoice, raise);
    var temps := TemporaryEffects(original.effects);
    assert created.effects == base.effects + temps;
    FilterConcat(base.effects, temps, IsTemporary);
    FilterAll(temps, IsTemporary);
    RevertedEffects(original, created);
  }

  /** `revertChangeForToken`: place and show the original token where the created one
      stands, copy the numbers back, clear the change-source flag, replace the temporary
      effects, swap the combatants back and delete the created token. The created token's
      actor record is left in `actors`, unreferenced. */
  method RevertChangeForToken(w: World, createdTokenId: string, originalTokenId: string) returns (combatRpcIssued: bool)
    requires createdTokenId in w.tokens && originalTokenId in w.tokens && createdTokenId != originalTokenId
    requires w.tokens[createdTokenId].actorId in w.actors && w.tokens[originalTokenId].actorId in w.actors
    requires w.tokens[createdTokenId].actorId != w.tokens[originalTokenId].actorId
    modifies w
    ensures var c := old(w.tokens[createdTokenId]);
      var o := old(w.tokens[originalTokenId]);
      && w.tokens == old(w.tokens)[originalTokenId := MarkChangeSource(ShowAt(o, c.x, c.y), false)] - {createdTokenId}
      && w.actors == old(w.actors)[o.actorId := RevertedActor(old(w.actors[o.actorId]), old(w.actors[c.actorId]))]
      && w.combats == ApplyCombatData(old(w.combats), CombatUpdates(old(w.combats), createdTokenId, originalTokenId, w.sceneId, o.actorId))
      && (combatRpcIssued <==> exists k :: 0 <= k < |old(w.combats)| && InCombat(old(w.combats)[k], createdTokenId))
  {
    var createdToken := w.tokens[createdTokenId];
    var originalToken := w.tokens[originalTokenId];
    var createdActor := w.actors[createdToken.actorId];
    ghost var originalActor := w.actors[originalToken.actorId];

    UpdateToken(w, originalTokenId, ShowAt(originalToken, createdToken.x, createdToken.y));

    RevertNumbers(w, originalToken.actorId, createdActor);

    UpdateToken(w, originalTokenId, MarkChangeSource(ShowAt(originalToken, createdToken.x, createdToken.y), false));

    ReplaceTemporaryEffects(w, originalToken.actorId, createdActor);
    MapUpdateTwice(old(w.actors), originalToken.actorId, ApplyUpdate(originalActor, RevertUpdate(createdActor)),
                   RevertedActor(originalActor, createdActor));
    MapUpdateTwice(old(w.tokens), originalTokenId, ShowAt(originalToken, createdToken.x, createdToken.y),
                   MarkChangeSource(ShowAt(originalToken, createdToken.x, createdToken.y), false));

    combatRpcIssued := SwapTokensInCombat(w, createdTokenId, originalTokenId, originalToken.actorId);

    DeleteToken(w, createdTokenId);
  }

  /** The host's `token.update(data)`, with the token's new document already computed. */
  method UpdateToken(w: World, tokenId: string, t: Token)
    modifies w`tokens
    ensures w.tokens == old(w.tokens)[tokenId := t]
  {
    w.tokens := w.tokens[tokenId := t];
  }

  /** The host's `token.delete()`. */
  method DeleteToken(w: World, tokenId: string)
    modifies w`tokens
    ensures w.tokens == old(w.tokens) - {tokenId}
  {
    w.tokens := w.tokens - {tokenId};
  }

  /** The revert's actor update: the created actor's bennies, wounds and fatigue values. */
  method RevertNumbers(w: World, actorId: string, created: Actor)
    requires actorId in w.actors
    modifies w`actors
    ensures w.actors == old(w.actors)[actorId := ApplyUpdate(old(w.actors[actorId]), RevertUpdate(created))]
  {
    w.actors := w.actors[actorId := ApplyUpdate(w.actors[actorId], RevertUpdate(created))];
  }

  /** The revert's effect steps: delete the actor's temporary effects by id, then add the
      created actor's temporary effects. */
  method ReplaceTemporaryEffects(w: World, actorId: string, created: Actor)
    requires actorId in w.actors
    modifies w`actors
    ensures var a := old(w.actors[actorId]);
      w.actors == old(w.actors)[actorId :=
        a.(effects := WithoutEffectIds(a.effects, TemporaryIds(a.effects)) + TemporaryEffects(created.effects))]
  {
    var updated := w.actors[actorId];
    var effectIdsToDelete := TemporaryIds(updated.effects);
    w.actors := w.actors[actorId := updated.(effects := WithoutEffectIds(updated.effects, effectIdsToDelete))];

    var effectsToAdd := TemporaryEffects(created.effects);
    var stripped := w.actors[actorId];
    w.actors := w.actors[actorId := stripped.(effects := stripped.effects + effectsToAdd)];
  }
}
