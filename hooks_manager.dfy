/** The hook handlers of modules/hooks-manager.js that decide something: the delete guard
    on tokens and the short-circuit of item-sheet renders while a shape change adds items. */
module HooksManager {
  import opened Wrappers
  import opened SscConfig
  import opened Documents
  import opened Utils
  import opened ShapeChanger

  const SOURCE_BODY: string := "SSC.DeleteTokenWarning.SourceBody"
  const CREATED_BODY: string := "SSC.DeleteTokenWarning.CreatedBody"

  /** What `preDeleteToken` does: let the delete go ahead, or block it (return false) after
      opening a confirmation with the given body. */
  datatype DeleteDecision = Proceed | Block(body: string)

  /** `preDeleteToken` for a token with these flags. */
  function PreDeleteToken(flags: Flags, skipDialog: bool): (r: DeleteDecision)
    ensures skipDialog ==> r == Proceed
    ensures r.Block? <==>
      !skipDialog && (Truthy(GetFlag(flags, FLAG_IS_CHANGE_SOURCE)) || Truthy(GetFlag(flags, FLAG_ORIGINAL_TOKEN)))
    ensures r.Block? ==> r.body == if Truthy(GetFlag(flags, FLAG_IS_CHANGE_SOURCE)) then SOURCE_BODY else CREATED_BODY
  {
    if skipDialog then Proceed
    else
      var isChangeSource := GetFlag(flags, FLAG_IS_CHANGE_SOURCE);
      var originalToken := GetFlag(flags, FLAG_ORIGINAL_TOKEN);
      if Truthy(isChangeSource) || Truthy(originalToken) then
        Block(if Truthy(isChangeSource) then SOURCE_BODY else CREATED_BODY)
      else Proceed
  }

  /** Confirming the dialog deletes again with `skipDialog`, which the guard lets through. */
  lemma ConfirmedDeleteProceeds(flags: Flags)
    ensures PreDeleteToken(flags, true) == Proceed
  {
  }

  /** Both tokens of a completed shape change are guarded: deleting the hidden source warns
      with the source text, deleting the created token warns too (token ids are never
      empty, so the id it records is truthy). */
  lemma ChangedPairIsGuarded(tokens: map<string, Token>, createdId: string, originalId: string)
    requires ChangedPair(tokens, createdId, originalId) && originalId != ""
    ensures PreDeleteToken(tokens[originalId].flags, false) == Block(SOURCE_BODY)
    ensures PreDeleteToken(tokens[createdId].flags, false).Block?
  {
  }

  /** A completed transform leaves both tokens guarded. */
  lemma TransformGuardsBothTokens(tokens: map<string, Token>, originalTokenId: string, template: Actor,
                                  newTokenId: string, newActorId: string, grid: int)
    requires originalTokenId in tokens && newTokenId !in tokens && originalTokenId != ""
    ensures var r := TokensAfterTransform(tokens, originalTokenId, template, newTokenId, newActorId, grid, true);
      && PreDeleteToken(r[originalTokenId].flags, false) == Block(SOURCE_BODY)
      && PreDeleteToken(r[newTokenId].flags, false).Block?
  {
    TokensAfterTransformAre(tokens, originalTokenId, template, newTokenId, newActorId, grid, true);
    ChangedPairIsGuarded(TokensAfterTransform(tokens, originalTokenId, template, newTokenId, newActorId, grid, true),
                         newTokenId, originalTokenId);
  }

  /** After revert the source counts as a change source no more: whether its deletion is
      blocked depends on its `originalToken` flag alone. */
  lemma RevertedSourceUnguarded(t: Token, x: int, y: int)
    ensures var r := MarkChangeSource(ShowAt(t, x, y), false);
      PreDeleteToken(r.flags, false).Block? <==> Truthy(GetFlag(t.flags, FLAG_ORIGINAL_TOKEN))
  {
  }

  /** What the `renderItemSheet` hook does. */
  datatype SheetAction = CloseSheet | Ignore | InstallHandlers

  /** `renderItemSheet`: while `AddingItems` is truthy every item sheet is closed and nothing
      is installed; otherwise the drop binding and the shapes tab go onto a shape-change
      power's sheet and onto no other. */
  function RenderItemSheet(addingItems: bool, item: Option<Item>): (r: SheetAction)
    ensures r == CloseSheet <==> addingItems
    ensures r == InstallHandlers <==> !addingItems && IsShapeChangePower(item)
  {
    if addingItems then CloseSheet
    else if !IsShapeChangePower(item) then Ignore
    else InstallHandlers
  }
}
