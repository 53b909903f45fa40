/** The older entry point (modules/shape-changer-api.js): `changeShape` collects the shapes
    of the token's shape-change power and offers them, `createTokenWithActor` turns the
    token into the chosen shape with its own variant of the transform. */
module ShapeChangerApi {
  import opened Wrappers
  import opened SscConfig
  import opened Names
  import opened Seqs
  import opened Documents
  import opened Utils
  import opened ShapeChanger

  /* ---------------------------------------------------------------------------------- */
  /* changeShape                                                                         */
  /* ---------------------------------------------------------------------------------- */

  const SHAPE_CHANGE_NAME: string := "Shape Change"

  /** The power `changeShape` looks for: swid "shape-change" or the exact name. */
  predicate IsApiShapePower(it: Item) {
    it.itemType == "power" && (it.swid == SWID_SHAPE_CHANGE || it.name == SHAPE_CHANGE_NAME)
  }

  /** Every power this entry point accepts is a shape-change power for the rest of the
      module. */
  lemma ApiPowerIsShapeChangePower(it: Item)
    ensures IsApiShapePower(it) ==> IsShapeChangePower(Some(it))
  {
    if it.name == SHAPE_CHANGE_NAME {
      LowerCased(it.name, "shape change");
    }
  }

  /** The reverse fails: a power whose name matches only after lower-casing ("shape change",
      "SHAPE CHANGE") is a shape-change power for the rest of the module but is refused here,
      and so is a baleful polymorph. */
  lemma OtherSpellingsRefused(it: Item)
    requires it.itemType == "power" && it.swid != SWID_SHAPE_CHANGE && it.name != SHAPE_CHANGE_NAME
    requires it.swid == SWID_BALEFUL_POLYMORPH || ToLower(it.name) == "shape change"
    ensures IsShapeChangePower(Some(it)) && !IsApiShapePower(it)
  {
  }

  lemma LowerCased(s: string, t: string)
    requires |s| == |t| && forall k :: 0 <= k < |s| ==> LowerChar(s[k]) == t[k]
    ensures ToLower(s) == t
  {
  }

  /** One entry of the shape list the dialog shows. */
  datatype ShapeEntry = ShapeEntry(name: string, labelText: string, shapeActor: Actor)

  function EntryName(e: ShapeEntry): string {
    e.name
  }

  /** The entries are built without a `key` field: reading it gives `undefined`. */
  function EntryKey(e: ShapeEntry): Option<string> {
    None
  }

  function EntryFor(a: Actor): ShapeEntry {
    ShapeEntry(a.name, a.name, a)
  }

  /** The entries of the resolved shape actors, in the order of the uuids. */
  function ShapeEntries(shapes: seq<string>, resolve: map<string, Actor>): (r: seq<ShapeEntry>)
    requires forall k :: 0 <= k < |shapes| ==> shapes[k] in resolve
    ensures |r| == |shapes|
    ensures forall k :: 0 <= k < |shapes| ==> r[k] == EntryFor(resolve[shapes[k]])
  {
    if shapes == [] then [] else [EntryFor(resolve[shapes[0]])] + ShapeEntries(shapes[1..], resolve)
  }

  datatype ChangeShapeOutcome =
    | NotAShapeChanger
    | NoShapes
      /** `fromUuid` found no actor for this uuid; reading its name throws. */
    | ShapeActorMissing(uuid: string)
    | ShowDialog(shapes: seq<ShapeEntry>, shape: Option<string>, changeType: string)

  /** `changeShape`: nothing happens without a matching power or with an empty shape list;
      otherwise each uuid is resolved (`resolve` stands for `fromUuid`), the entries are
      sorted by name and the dialog opens with no shape preselected and the base change
      type. */
  method ChangeShape(items: seq<Item>, resolve: map<string, Actor>) returns (outcome: ChangeShapeOutcome)
    ensures outcome.NotAShapeChanger? <==> forall k :: 0 <= k < |items| ==> !IsApiShapePower(items[k])
    ensures outcome.NoShapes? <==> var p := Find(items, IsApiShapePower); p.Some? && ShapeList(p.value.flags) == []
    ensures outcome.ShapeActorMissing? ==> var shapes := ShapeList(Find(items, IsApiShapePower).value.flags);
      exists k :: 0 <= k < |shapes| && shapes[k] == outcome.uuid && outcome.uuid !in resolve
                  && forall j :: 0 <= j < k ==> shapes[j] in resolve
    ensures outcome.ShowDialog? ==> var shapes := ShapeList(Find(items, IsApiShapePower).value.flags);
      && shapes != []
      && (forall k :: 0 <= k < |shapes| ==> shapes[k] in resolve)
      && SortedBy(outcome.shapes, EntryName)
      && multiset(outcome.shapes) == multiset(ShapeEntries(shapes, resolve))
      && outcome.shape == None && outcome.changeType == CHANGE_TYPE_BASE
  {
    var shapePower := Find(items, IsApiShapePower);
    if shapePower.None? {
      return NotAShapeChanger;
    }
    var shapes := ShapeList(shapePower.value.flags);
    if |shapes| == 0 {
      return NoShapes;
    }
    var shapeNames: seq<ShapeEntry> := [];
    for i := 0 to |shapes|
      invariant |shapeNames| == i
      invariant forall k :: 0 <= k < i ==> shapes[k] in resolve && shapeNames[k] == EntryFor(resolve[shapes[k]])
    {
      if shapes[i] !in resolve {
        return ShapeActorMissing(shapes[i]);
      }
      shapeNames := shapeNames + [EntryFor(resolve[shapes[i]])];
    }
    assert shapeNames == ShapeEntries(shapes, resolve);
    shapeNames := SortBy(shapeNames, EntryName);
    var shape := EntryKey(shapeNames[0]);
    outcome := ShowDialog(shapeNames, shape, CHANGE_TYPE_BASE);
  }

  /** The confirm callback's lookup `shapeNames.find(s => s.key == choice)`. */
  function ConfirmedShape(entries: seq<ShapeEntry>, choice: Option<string>): (r: Option<ShapeEntry>)
    ensures choice.Some? ==> r == None
    ensures choice.None? && entries != [] ==> r == Some(entries[0])
  {
    Find(entries, (e: ShapeEntry) => EntryKey(e) == choice)
  }

  /* ---------------------------------------------------------------------------------- */
  /* createTokenWithActor                                                                */
  /* ---------------------------------------------------------------------------------- */

  /** The update applied to the created actor: the original actor's ownership, smarts, spirit,
      wounds and fatigue (bennies are not copied), both auto-calculation switches on, and the
      same raise boost as the newer transform. */
  function ApiUpdate(original: Actor, created: Stats, typeChoice: string, raise: bool): ActorUpdate {
    TransformUpdate(original, created, typeChoice, raise).(
      ownership := Some(original.ownership),
      benniesValue := None)
  }

  /** Against the newer transform's update, this one also hands over ownership and leaves
      the created actor's bennies as they were. */
  lemma ApiUpdateAgainstTransform(original: Actor, created: Actor, typeChoice: string, raise: bool)
    ensures var api := ApplyUpdate(created, ApiUpdate(original, created.system, typeChoice, raise));
      var newer := ApplyUpdate(created, TransformUpdate(original, created.system, typeChoice, raise));
      && api.ownership == original.ownership
      && newer.ownership == created.ownership
      && api.system.bennies == created.system.bennies
      && api.system == newer.system.(bennies := created.system.bennies)
      && api.items == newer.items && api.effects == newer.effects
  {
  }

  /** The token `getTokenDocument({x, y})` gives: the template's prototype token at the
      source's position, bound to `actorId`. */
  function PrototypeTokenAt(template: Actor, source: Token, tokenId: string, actorId: string): Token {
    Token(tokenId, template.prototype.name, actorId, source.x, source.y, template.prototype.hidden, template.prototype.flags)
  }

  /** The actor the created token stands for: the template itself when its prototype token
      is linked, otherwise a synthetic copy under `newActorId`. */
  function CreatedActorId(template: Actor, newActorId: string): string {
    if template.prototype.actorLink then template.id else newActorId
  }

  /** The created actor after the items are swapped, before any effect is copied. */
  function ItemsSwapped(base: Actor, original: Actor): Actor {
    base.(items := StrippedItems(base.items) + ItemsToAdd(original.items))
  }

  /** The created actor at the end of a completed run. */
  function ApiChangedActor(base: Actor, original: Actor, typeChoice: string, raise: bool): Actor {
    ApplyUpdate(PreparedActor(base, original), ApiUpdate(original, base.system, typeChoice, raise))
  }

  /** The older transform keeps the same items and effects as the newer one; the numbers
      differ only in the bennies, and the ownership is the original actor's. */
  lemma ApiChangedAgainstChanged(base: Actor, original: Actor, typeChoice: string, raise: bool)
    ensures var api := ApiChangedActor(base, original, typeChoice, raise);
      var newer := ChangedActor(base, original, typeChoice, raise);
      && api.items == newer.items && api.effects == newer.effects
      && api.system == newer.system.(bennies := base.system.bennies)
      && api.ownership == original.ownership
      && ItemsSwapped(base, original).effects == base.effects
  {
  }

  datatype ApiOutcome =
    | Created(maxWoundWarning: bool)
      /** `updateDatafoundry` is not defined: the animal-smarts branch throws. */
    | ApiReferenceError

  /** `createTokenWithActor`: create the token from the template's prototype, delete the
      stripped items, add the carried items, look for a max-wound change, then (unless the
      animal-smarts branch throws) copy the temporary effects, update the created actor and
      hide and move the source. No flag is written and the combat trackers are not touched.
      `newTokenId` and `newActorId` are the ids the host gives the token and an unlinked
      token's synthetic actor. */
  method CreateTokenWithActor(
    w: World, originalTokenId: string, templateId: string, newTokenId: string, newActorId: string,
    typeChoice: string, animalSmarts: bool, raise: bool)
    returns (outcome: ApiOutcome)
    requires originalTokenId in w.tokens && w.tokens[originalTokenId].actorId in w.actors
    requires templateId in w.actors && w.actors[templateId].id == templateId
    requires templateId != w.tokens[originalTokenId].actorId
    requires newTokenId !in w.tokens && newActorId !in w.actors
    modifies w`tokens, w`actors
    ensures outcome.ApiReferenceError? <==> animalSmarts
    ensures var source := old(w.tokens[originalTokenId]);
      var template := old(w.actors[templateId]);
      var placed := old(w.tokens)[newTokenId := PrototypeTokenAt(template, source, newTokenId, CreatedActorId(template, newActorId))];
      w.tokens == if animalSmarts then placed else placed[originalTokenId := HideAndOffset(source, w.gridSize)]
    ensures var template := old(w.actors[templateId]);
      var original := old(w.actors[w.tokens[originalTokenId].actorId]);
      var createdId := CreatedActorId(template, newActorId);
      var base := template.(id := createdId);
      w.actors == old(w.actors)[createdId :=
        if animalSmarts then ItemsSwapped(base, original) else ApiChangedActor(base, original, typeChoice, raise)]
    ensures outcome.Created? ==>
      outcome.maxWoundWarning == HasMaxWoundChange(AppliedEffects(old(w.actors[w.tokens[originalTokenId].actorId]).effects))
  {
    var source := w.tokens[originalTokenId];
    var original := w.actors[source.actorId];
    var template := w.actors[templateId];
    var createdId := CreatedActorId(template, newActorId);
    var base := template.(id := createdId);

    PlaceCreatedToken(w, PrototypeTokenAt(template, source, newTokenId, createdId), createdId, base);
    ghost var placed := w.tokens;

    SwapItems(w, createdId, original);
    MapUpdateTwice(old(w.actors), createdId, base, ItemsSwapped(base, original));

    var hasMaxWoundChange := FindMaxWoundChange(AppliedEffects(original.effects));

    if animalSmarts {
      return ApiReferenceError;
    }

    FinishCreatedActor(w, createdId, original, typeChoice, raise);
    MapUpdateTwice(old(w.actors), createdId, ItemsSwapped(base, original), ApiChangedActor(base, original, typeChoice, raise));

    ShapeChanger.UpdateToken(w, originalTokenId, HideAndOffset(source, w.gridSize));

    outcome := Created(hasMaxWoundChange);
  }

  /** The token creation: the token is added, and an unlinked token brings its synthetic
      actor with it. */
  method PlaceCreatedToken(w: World, t: Token, createdId: string, base: Actor)
    requires createdId in w.actors ==> w.actors[createdId] == base
    modifies w`tokens, w`actors
    ensures w.tokens == old(w.tokens)[t.id := t]
    ensures w.actors == old(w.actors)[createdId := base]
  {
    w.tokens := w.tokens[t.id := t];
    if createdId !in w.actors {
      w.actors := w.actors[createdId := base];
    } else {
      assert w.actors == w.actors[createdId := base];
    }
  }

  /** The item steps: delete the stripped items, then add the carried items. */
  method SwapItems(w: World, actorId: string, original: Actor)
    requires actorId in w.actors
    modifies w`actors
    ensures w.actors == old(w.actors)[actorId := ItemsSwapped(old(w.actors[actorId]), original)]
  {
    var created := w.actors[actorId];
    DeleteItems(w, actorId, ItemsToRemove(created.items));
    var stripped := w.actors[actorId];
    w.actors := w.actors[actorId := stripped.(items := stripped.items + ItemsToAdd(original.items))];
  }

  /** The steps after the animal-smarts branch that touch the created actor: copy the
      temporary effects, then apply the update data. */
  method FinishCreatedActor(w: World, actorId: string, original: Actor, typeChoice: string, raise: bool)
    requires actorId in w.actors
    modifies w`actors
    ensures var a := old(w.actors[actorId]);
      w.actors == old(w.actors)[actorId :=
        ApplyUpdate(a.(effects := a.effects + TemporaryEffects(original.effects)), ApiUpdate(original, a.system, typeChoice, raise))]
  {
    var created := w.actors[actorId];
    var update := ApiUpdate(original, created.system, typeChoice, raise);
    w.actors := w.actors[actorId := created.(effects := created.effects + TemporaryEffects(original.effects))];
    var withEffects := w.actors[actorId];
    w.actors := w.actors[actorId := ApplyUpdate(withEffects, update)];
  }
}
