# SWADE Shape Changer — a verified model of its rules

SWADE Shape Changer is a module for a virtual tabletop. You drop actors onto a
shape-change power's item sheet. From a token's dialog you then turn the token into one of
those shapes and back again. The module is mostly glue over the host's document model. This
project models the rules under that glue, in Dafny, and proves what they do:

- which items and effects move between the original actor and the created one;
- which numbers are overwritten, and the raise boost;
- how the two tokens are placed and flagged, and how revert undoes that;
- how the combat trackers are rewritten;
- how the per-power shape list is kept;
- how the shape-change dialog builds its lists and resolves a confirmed choice;
- when a token delete is blocked.

The modules follow the source files:

| Dafny module | source |
|---|---|
| `SscConfig` | modules/ssc-config.js (constants) |
| `Documents` | the host's documents: items, effects, actors, tokens, combats, and a `World` class holding the scene's tokens, the actors and the combats |
| `Utils` | modules/utils.js |
| `ShapeChanger` | modules/shape-changer.js |
| `ShapeChangerApi` | modules/shape-changer-api.js |
| `Handlers` | modules/handlers.js |
| `HooksManager` | modules/hooks-manager.js |
| `ChangeShapeDialog` | modules/change-shape-dialog.js |
| `Seqs`, `Names`, `Wrappers` | generic helpers: filter, map, de-duplication, find; ASCII lower-casing, `startsWith`/`includes`, name order and a stable sort; `Option` |
| `Scenarios` | a concrete input that pins down one rule |

Where the source changes state step by step, the model does too:

- `changeTokenIntoActor`, `revertChangeForToken`, `swapTokensInCombat`, `updateCombatant` and
  `createTokenWithActor` are methods over the `World` object.
- The dialog is a class whose fields are `shapeNames`, `targets`, `targetTokens` and
  `changeType`.
- The power's flags and the remembered sheet tab are fields of small classes.

Each such method states its new state through a specification function. Lemmas prove what the
source promises about that function.

Where the code behaves differently from its comments or its description, the model follows
the code:

- The first removal filter of both transforms has a block body without `return`. It
  therefore selects nothing, and the created actor keeps all of its edges, hindrances and
  powers.
- `updateDatafoundry` is an unbound name. Choosing animal smarts therefore throws at that
  point. The model ends the run there, in an error outcome, with the state reached so far.
- Power points are not copied to the created actor. The module's description says they are.
- `!shapePowers` tests an array and never fires. An actor without shape-change powers gets
  the "no shapes" error instead.
- The entries of `changeShape` have no `key` field. The preselected shape is `undefined`, and the confirmed
  lookup compares `undefined` with the choice, so a chosen shape is never found.

## Model

| member | source | states |
|---|---|---|
| Utils.NotificationText | modules/utils.js:65-68 | the notification text is "SSC | " followed by exactly the message |
| Utils.ConsoleArgs | modules/utils.js:70-77 | the prefixed message is always passed; the objects and the substitutions are passed exactly when non-empty; nothing else is passed; the order is the objects, the message, then the substitutions |
| Utils.HasModuleFlags | modules/utils.js:79-85 | true exactly when the object has flags and flags in the module's scope |
| Utils.GetModuleFlag | modules/utils.js:87-93 | nothing without module flags; with module flags, exactly the value stored under the flag, and nothing when none is stored |
| Utils.GetModuleFlagAgreesWithGetFlag | modules/utils.js:87-93 | on a document with flags, `getModuleFlag` reads what `getFlag` reads, so it returns what `setFlag` last wrote |
| Utils.NotAPowerIsNotShapeChange | modules/utils.js:95-98 | a missing item or a non-power is never a shape-change power |
| Utils.NameMatchIgnoresCase | modules/utils.js:100-103 | lower-casing an item's name never changes whether it is a shape-change power |
| Scenarios.SwidMatchIsCaseSensitive | modules/utils.js:100-101 | the swid test is case-sensitive: "Shape-Change" with an unrelated name does not qualify |
| ShapeChanger.RemovalSkipsCarriedCategories | modules/shape-changer.js:47-49 | the removal list never holds an edge, hindrance or power, granted or not, because the first filter selects nothing |
| ShapeChanger.RemovalMultiplicity | modules/shape-changer.js:47-64 | an item is listed once for every filter that selects it: spirit/smarts skills once, abilities matching the resilient test or the innate-power test (by swid or lower-cased name) once each, so twice when they match both |
| ShapeChanger.StrippedItemsAre | modules/shape-changer.js:66-68 | with unique item ids, the deletion loop removes exactly the mental skills and the resilient and innate-power abilities, in order, and keeps every other item |
| ShapeChanger.ItemsToAddSelection | modules/shape-changer.js:73-80 | the add list holds exactly the ungranted edges, hindrances and powers, first and in order, then the spirit/smarts skills; no item more often than the original actor has it |
| ShapeChanger.TransformedStats | modules/shape-changer.js:89-112 | after the update the created actor has the original's smarts, spirit, bennies value, wounds and fatigue and both auto-calculation flags; strength and vigor rise by exactly two sides only for a base change with a raise; items, effects and ownership stay |
| ShapeChanger.RaiseKeysOnlyForBaseRaise | modules/shape-changer.js:104-110 | the strength and vigor keys are in the update exactly when the type is "base" and the cast is a raise |
| ShapeChanger.FindMaxWoundChange | modules/shape-changer.js:122-130 | the nested loops with their `break` find a max-wound change exactly when some applied effect has a change keyed "system.wounds.max" |
| ShapeChanger.TokensAfterTransformAre | modules/shape-changer.js:27-39 | the transform adds exactly the new token; the source becomes a hidden change source one grid square up and left; other tokens are untouched; a run that reaches line 115 leaves the created token naming its original |
| ShapeChanger.CreateShapeToken | modules/shape-changer.js:14-39 | flags the source, creates the token and its synthetic actor owned like the source's actor, and hides and moves the source; nothing else changes |
| ShapeChanger.DeleteItems | modules/shape-changer.js:66-68 | the deletion loop leaves the created actor's items without every listed id |
| ShapeChanger.SwapItemsAndEffects | modules/shape-changer.js:66-87 | the created actor ends with its stripped items, then the carried items, and its effects followed by the original's temporary effects |
| ShapeChanger.CompleteTransform | modules/shape-changer.js:112-148 | updates the created actor, links the created token to its original, swaps the combatants, and reports the max-wound warning exactly when the setting is off and an applied effect changes the max wounds |
| ShapeChanger.ChangeTokenIntoActor | modules/shape-changer.js:14-149 | the whole transform, as the tokens, actors and combats it leaves; the animal-smarts choice ends in the reference error with the items and effects already swapped |
| ShapeChanger.BuildCombatantEntries | modules/shape-changer.js:203-212 | one entry per combatant of the current token, pointed at the new token, the scene and the new actor |
| ShapeChanger.BuildCombatUpdateData | modules/shape-changer.js:199-218 | the nested loops build one entry per combat holding the current token, each listing that combat's combatants of the current token |
| ShapeChanger.CombatUpdatesExist | modules/shape-changer.js:199-218 | every entry names a combat it was built from |
| ShapeChanger.CombatantSwap | modules/shape-changer.js:203-211 | in one combat, applying its entries rewrites exactly the combatants of the current token |
| ShapeChanger.CombatSwapRewritesExactly | modules/shape-changer.js:198-221 | with unique ids, applying the update data rewrites exactly the combatants pointing at the current token, in every combat, and leaves the rest |
| ShapeChanger.UpdateCombatant | modules/shape-changer.js:227-232 | each entry's combat is looked up and updated in order; a missing combat ends the loop, which the result reports; combat ids never change |
| ShapeChanger.UpdateCombatantAppliesAll | modules/shape-changer.js:228-231 | when every entry's combat exists, the loop applies all of the data |
| ShapeChanger.SwapTokensInCombat | modules/shape-changer.js:198-221 | the request is sent exactly when some combat holds the current token; the combats then end as the exact rewrite above |
| ShapeChanger.DeleteTemporaryKeepsPermanent | modules/shape-changer.js:179-181 | with unique ids, deleting the temporary effects' ids keeps exactly the permanent effects, in order |
| ShapeChanger.RevertedEffects | modules/shape-changer.js:177-184 | after revert the original actor has its permanent effects in order, then the created actor's temporary effects |
| ShapeChanger.RevertedActorIs | modules/shape-changer.js:167-184 | revert copies back only the current values of bennies, wounds and fatigue, keeps the permanent effects, and leaves exactly the created actor's temporary effects |
| ShapeChanger.RevertNumbers | modules/shape-changer.js:167-172 | the original actor receives the created actor's bennies, wounds and fatigue values; nothing else changes |
| ShapeChanger.ReplaceTemporaryEffects | modules/shape-changer.js:179-184 | the original actor's temporary effects are deleted and the created actor's added |
| ShapeChanger.RevertChangeForToken | modules/shape-changer.js:156-191 | the whole revert: the original token placed at the created one's position, shown and no longer a change source; numbers and effects copied back; combatants swapped back; the created token deleted |
| ShapeChanger.SourceTokenRoundTrip | modules/shape-changer.js:160-175 | transform then revert puts the source token back where it was, visible, change-source flag false, every other flag as before |
| ShapeChanger.StatsRoundTrip | modules/shape-changer.js:167-172 | with nothing changed in between, revert gives the original actor its own numbers back |
| ShapeChanger.EffectsRoundTrip | modules/shape-changer.js:177-184 | with nothing changed in between, revert leaves the permanent effects, then the template's temporary effects, then the original's own temporary effects |
| ShapeChangerApi.ApiPowerIsShapeChangePower | modules/shape-changer-api.js:15 | every power `changeShape` accepts is a shape-change power for the rest of the module |
| ShapeChangerApi.OtherSpellingsRefused | modules/shape-changer-api.js:15 | a baleful polymorph, or a name that matches only after lower-casing, is a shape-change power elsewhere but is refused here |
| ShapeChangerApi.ShapeEntries | modules/shape-changer-api.js:25-29 | one entry per uuid, in order, with the resolved actor's name |
| ShapeChangerApi.ChangeShape | modules/shape-changer-api.js:14-37 | nothing without a matching power; nothing with an empty or missing list; the first unresolved uuid throws; otherwise a sorted permutation of the entries, no shape preselected, change type "base" |
| ShapeChangerApi.ConfirmedShape | modules/shape-changer-api.js:39-47 | the lookup compares the missing `key`: a chosen value never finds a shape, and an unset choice matches the first entry |
| ShapeChangerApi.ApiUpdateAgainstTransform | modules/shape-changer-api.js:130-152 | the update equals the newer transform's with ownership added and the bennies left out |
| ShapeChangerApi.ApiChangedAgainstChanged | modules/shape-changer-api.js:102-159 | the older transform leaves the same items and effects as the newer; the numbers differ only in the bennies; the ownership is the original actor's |
| ShapeChangerApi.PlaceCreatedToken | modules/shape-changer-api.js:74-76 | the token is added and an unlinked token brings its synthetic actor |
| ShapeChangerApi.SwapItems | modules/shape-changer-api.js:102-118 | the created actor's stripped items, then the carried items |
| ShapeChangerApi.FinishCreatedActor | modules/shape-changer-api.js:154-159 | the temporary effects are copied, then the update applied |
| ShapeChangerApi.CreateTokenWithActor | modules/shape-changer-api.js:72-176 | the whole older transform; animal smarts ends in the error with the items swapped and no effects copied; the warning is shown exactly when an applied effect changes the max wounds; no flag or combat is touched |
| Handlers.AddShapeRules | modules/handlers.js:117-144 | a compendium uuid, a listed uuid and the power's own actor leave the list unchanged; any other uuid is appended at the end; a duplicate-free list stays duplicate-free |
| Handlers.ShapePower.AddActor | modules/handlers.js:117-144 | the stored flag becomes the added list (a missing flag reads as empty) exactly when the uuid is appended; otherwise the flags are unchanged |
| Handlers.OnDropOnPowerSheet | modules/handlers.js:47-52 | only an actor drop reaches the add; the power's flags then end as `addActorToShapeChangePower` leaves them, and any other drop leaves them unchanged |
| Handlers.RemoveShapeRules | modules/handlers.js:99-103 | the clicked id is gone; every other id keeps its count; every entry keeps its place between the filtered entries before and after it; a list without it is unchanged; no duplicates are introduced |
| Handlers.RemoveShapeSplits | modules/handlers.js:99-103 | filtering a list split around one entry gives the filtered prefix, that entry unless it is the clicked id, then the filtered suffix |
| Handlers.ShapePower.DeleteShape | modules/handlers.js:99-103 | the stored list is replaced by the filtered list; without a stored list the handler throws and the flags are unchanged |
| Handlers.AddThenRemove | modules/handlers.js:117-144 | deleting a shape just appended gives the list back |
| Handlers.TabMemory.OnPreUpdateItem | modules/handlers.js:24-32 | only an update of a shape-change power sets `openTab` and records the active tab |
| Handlers.TabMemory.RestoreTabAfterRender | modules/handlers.js:105-109 | a pending tab is activated once and `openTab` reset; otherwise nothing happens |
| Handlers.TabRoundTrip | modules/handlers.js:105-109 | an update of a shape-change power followed by a render activates the remembered tab exactly once; updates of other items change nothing |
| Handlers.DropForwardTarget | modules/handlers.js:153-166 | forwarding is offered only for an actor drop, to a power with swid exactly "shape-change" that no earlier item matches, and whenever there is one |
| Handlers.DropNeedsExactSwid | modules/handlers.js:155 | a power known only by name, or a baleful polymorph, is never offered |
| HooksManager.RenderItemSheet | modules/hooks-manager.js:51-58 | while items are being added the sheet is closed and nothing installed; otherwise handlers go onto shape-change powers only |
| HooksManager.PreDeleteToken | modules/hooks-manager.js:75-91 | never blocks with `skipDialog`; otherwise blocks exactly when either flag is truthy, with the source body when the token is a change source |
| HooksManager.ConfirmedDeleteProceeds | modules/hooks-manager.js:85 | the delete re-issued on confirmation is never blocked |
| HooksManager.ChangedPairIsGuarded | modules/hooks-manager.js:77-80 | both tokens of a changed pair are guarded, the source with the source body |
| HooksManager.TransformGuardsBothTokens | modules/hooks-manager.js:79-88 | a completed transform leaves both of its tokens guarded |
| HooksManager.RevertedSourceUnguarded | modules/hooks-manager.js:77-79 | after revert only the `originalToken` flag can still block the source's deletion |
| ChangeShapeDialog.ShapesOf | modules/change-shape-dialog.js:38-41 | a uuid is in the merged list exactly when one of the powers lists it |
| ChangeShapeDialog.CollectShapes | modules/change-shape-dialog.js:38-41 | the loop concatenates the powers' lists in order, a missing list counting as empty |
| ChangeShapeDialog.NoPowerNoShapes | modules/change-shape-dialog.js:31-47 | an actor without shape-change powers has no shapes, so it ends at the "no shapes" error |
| ChangeShapeDialog.AllShapesMembership | modules/change-shape-dialog.js:31-41 | a uuid is offered exactly when a shape-change power on the actor lists it |
| Seqs.DedupKeepsFirstOccurrenceOrder | modules/change-shape-dialog.js:50 | de-duplication keeps each value's first occurrence, in the order of first occurrences |
| ChangeShapeDialog.Dialog.ResolveShapeNames | modules/change-shape-dialog.js:52-56 | one entry per uuid, in order; an unresolved uuid throws |
| Names.SortBy | modules/change-shape-dialog.js:57 | the sorted list is ordered by name and is a permutation of its input |
| Names.NameLeTotal | modules/change-shape-dialog.js:57 | the name order compares any two names |
| ChangeShapeDialog.ShapeListIs | modules/change-shape-dialog.js:49-57 | the shape list is sorted by name and holds one entry for each distinct uuid listed by some power |
| ChangeShapeDialog.CollectTargets | modules/change-shape-dialog.js:62-64 | one entry per user target, in order |
| ChangeShapeDialog.TargetListIs | modules/change-shape-dialog.js:61-68 | "All" comes first, then the user targets sorted by name as a permutation; choosing "All" yields one token per user target, each a target's id |
| ChangeShapeDialog.Dialog.PrepareTargets | modules/change-shape-dialog.js:59-71 | several targets fill the list and no token; one target or none gives that target or the source token |
| ChangeShapeDialog.Dialog.FinishContext | modules/change-shape-dialog.js:59-83 | the targets, `changeType` kept or defaulted to "base", and the context's first shape and first target |
| ChangeShapeDialog.Dialog.PrepareContext | modules/change-shape-dialog.js:29-84 | "no shapes" exactly when no power lists a shape, leaving the dialog unchanged; an unresolved uuid throws; otherwise the sorted shape list, the targets, the change type and the context |
| ChangeShapeDialog.SelectionRules | modules/change-shape-dialog.js:111-123 | with several targets, "All" adds every non-null token of the list and any other choice adds its own token |
| ChangeShapeDialog.Dialog.AddAllTargets | modules/change-shape-dialog.js:115-119 | every non-null token of the list is pushed, in order |
| ChangeShapeDialog.Dialog.SelectTargets | modules/change-shape-dialog.js:111-123 | the chosen target is found by name and its tokens added; a missing target throws with the list unchanged |
| ChangeShapeDialog.ReplaceStep | modules/change-shape-dialog.js:127-136 | a target whose original exists is taken out and the original appended; any other target leaves the list as it was |
| ChangeShapeDialog.Dialog.ReplaceChangedTargets | modules/change-shape-dialog.js:126-138 | the loop over the list as it stood replaces every changed target, in order, and reports each one sent to revert |
| ChangeShapeDialog.ReplacedTargetsAre | modules/change-shape-dialog.js:126-137 | when no original is itself changed, every changed target is replaced by its original, every other target stays, and nothing else comes in |
| ChangeShapeDialog.BuildRequests | modules/change-shape-dialog.js:143-155 | one request per target token, in order, with the chosen shape, the change type and the three choices |
| ChangeShapeDialog.ConfirmRequests | modules/change-shape-dialog.js:143-153 | a missing shape throws exactly when there is a token to change; otherwise every final token gets one request carrying the uuid of a shape with the chosen name |
| ChangeShapeDialog.Dialog.HandleConfirm | modules/change-shape-dialog.js:102-158 | without an active GM nothing changes; a missing target throws; otherwise the replaced target list and the requests |

## Left out

- Host calls become state or parameters. Document creation, update and deletion become
  updates of the `World` fields. `fromUuid` is a map from uuid to actor, and a missing key
  is the throw. `getTokenDocument` becomes a token built from the template's prototype.
  The grid size and the scene id are constants of the world. The ids the host assigns to
  created tokens and actors are parameters that must be fresh.
- Dialogs, notifications, localization, templates, tab HTML, the drag-drop binding, jQuery
  reads of form inputs and sheet rendering are presentation. The model takes the user's
  choices as parameters and returns what would be shown.
- Awaiting and interleaving are left out. The un-awaited `createEmbeddedDocuments` calls run
  in program order.
- `localeCompare` is modelled as lexicographic character-code order, and `toLowerCase` as
  ASCII lower-casing.
- The host's item ids: items copied to the created actor keep their ids.
- The settings module is left out; the `ignoreWoundWarning` setting is a parameter.
- `ShapeChanger.AddingItems` is a parameter of `RenderItemSheet`. The shown files never set it.
- The `renderChoiceDialog` close hook and the hook registration are left out. They decide
  nothing.
- `ShapeChangerAPI.revertShape` is called but defined nowhere in these files, and the dialog
  neither imports `ShapeChangerAPI` nor declares `sourceToken`. The model records each
  target sent to revert and does not model what revert does there.
- The dialog's runs, as the source is written, stop early at three points. The model goes past
  each of them and describes what the code evidently means to do:
  - `_prepareContext` ends in `Utils.useSUCC()` (change-shape-dialog.js:82). That is not
    defined, so the call throws and no context is returned.
  - When a changed target is found, the names `ShapeChangerAPI` and `sourceToken` at
    change-shape-dialog.js:132-133 are unbound, so confirming throws a reference error.
  - `ShapeChanger.validateFinalValues` (change-shape-dialog.js:154) is not defined, so the
    request loop throws after its first request.
- ShapeChanger.DeleteItems: an ability that matches both the resilient and the innate-power
  test is listed twice, so `item.delete()` runs again on an item already deleted. The host's
  behaviour there is not settled by these files. The model takes a second delete of an
  already-deleted item to change nothing. ShapeChanger.StrippedItemsAre and
  ShapeChangerApi.SwapItems rest on the same assumption.
- `ShapeChanger.validateFinalValues` is defined nowhere in these files and is not modelled.
- `Utils.useSUCC` and `validateSUCCConfig` are defined nowhere in these files and are not
  modelled.
- ChangeShapeDialog.BuildRequests: the dialog sends seven arguments to
  `changeTokenIntoActor`, a scene id, a token id and a uuid among them. The registered
  handler takes five and expects documents. The model keeps the requests as records and
  does not connect them to `ShapeChanger.ChangeTokenIntoActor`.
- ChangeShapeDialog.ReplacedTargetsAre: stated only when no original is itself a changed
  token. Chains of changes give an order-dependent result.
- ChangeShapeDialog.Dialog.HandleConfirm: the target tokens are ids, and a token's flags are
  read from the canvas map. `dialog.close()` and the notification are not modelled.
- ShapeChangerApi.CreateTokenWithActor: it requires the template actor to differ from the
  source token's actor. A linked template that is the source's own actor would alias the two
  actors.
- Handlers.ShapePower.DeleteShape: a stored flag that is not a list is treated like a
  missing one (the handler throws).
- The shapes tab's sorted display list and the actor-button handler only render.
- The non-list shapes flag reads as an empty list wherever `?? []` is applied.
