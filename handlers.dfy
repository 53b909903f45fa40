/** The item-sheet and drop handlers (modules/handlers.js): the per-power list of shape
    actor uuids, the remembered sheet tab, and the drop on an actor sheet. */
module Handlers {
  import opened Wrappers
  import opened SscConfig
  import opened Names
  import opened Seqs
  import opened Documents
  import opened Utils

  /* ---------------------------------------------------------------------------------- */
  /* The shape list                                                                      */
  /* ---------------------------------------------------------------------------------- */

  const COMPENDIUM_PREFIX: string := "Compendium"

  /** What `addActorToShapeChangePower` does with a dropped uuid. */
  datatype AddResult =
    | CompendiumWarning  // a compendium actor: a warning dialog, nothing stored
    | AlreadyListed
    | OwnActor           // the power's own actor
    | Appended

  /** The guards of `addActorToShapeChangePower`, in their order; `ownUuid` is the uuid of
      the actor holding the power, when it has one. */
  function AddDecision(shapes: seq<string>, uuid: string, ownUuid: Option<string>): AddResult {
    if StartsWith(uuid, COMPENDIUM_PREFIX) then CompendiumWarning
    else if uuid in shapes then AlreadyListed
    else if ownUuid == Some(uuid) then OwnActor
    else Appended
  }

  /** The shape list after the drop of `uuid`. */
  function AddShape(shapes: seq<string>, uuid: string, ownUuid: Option<string>): seq<string> {
    if AddDecision(shapes, uuid, ownUuid) == Appended then shapes + [uuid] else shapes
  }

  /** A compendium uuid, a uuid already listed and the power's own actor leave the list as
      it was; any other uuid is appended at the end, and then it is listed exactly once
      when the list had no duplicates. */
  lemma AddShapeRules(shapes: seq<string>, uuid: string, ownUuid: Option<string>)
    ensures var r := AddShape(shapes, uuid, ownUuid);
      && (StartsWith(uuid, COMPENDIUM_PREFIX) || uuid in shapes || ownUuid == Some(uuid) ==> r == shapes)
      && (!StartsWith(uuid, COMPENDIUM_PREFIX) && uuid !in shapes && ownUuid != Some(uuid) ==> r == shapes + [uuid])
      && (NoDups(shapes) ==> NoDups(r))
      && (forall x :: x in r <==> x in shapes || (x == uuid && AddDecision(shapes, uuid, ownUuid) == Appended))
  {
  }

  /** `shapes.filter(e => e !== shapeId)`. */
  function RemoveShape(shapes: seq<string>, shapeId: string): seq<string> {
    Filter(shapes, (e: string) => e != shapeId)
  }

  /** Delete takes out every copy of the clicked id and keeps every other entry, each as
      often as before and in the same order; it keeps a list free of duplicates. */
  lemma RemoveShapeRules(shapes: seq<string>, shapeId: string)
    ensures var r := RemoveShape(shapes, shapeId);
      && shapeId !in r
      && (forall x :: x != shapeId ==> multiset(r)[x] == multiset(shapes)[x])
      && (shapeId !in shapes ==> r == shapes)
      && (NoDups(shapes) ==> NoDups(r))
      && (forall i :: 0 <= i < |shapes| ==>
            r == RemoveShape(shapes[..i], shapeId) + (if shapes[i] == shapeId then [] else [shapes[i]])
                 + RemoveShape(shapes[i + 1..], shapeId))
  {
    var p := (e: string) => e != shapeId;
    forall i | 0 <= i < |shapes|
      ensures RemoveShape(shapes, shapeId) == RemoveShape(shapes[..i], shapeId)
                + (if shapes[i] == shapeId then [] else [shapes[i]]) + RemoveShape(shapes[i + 1..], shapeId)
    {
      assert shapes == shapes[..i] + [shapes[i]] + shapes[i + 1..];
      RemoveShapeSplits(shapes[..i], shapes[i], shapes[i + 1..], shapeId);
    }
    forall x | x != shapeId ensures multiset(RemoveShape(shapes, shapeId))[x] == multiset(shapes)[x] {
      FilterCount(shapes, p, x);
    }
    if shapeId !in shapes {
      FilterAll(shapes, p);
    }
    if NoDups(shapes) {
      FilterKeepsNoDups(shapes, p);
    }
  }

  /** Delete keeps the order: each entry stays between the entries that came before it and
      those that came after it, and only the clicked id drops out. */
  lemma {:induction false} RemoveShapeSplits(before: seq<string>, x: string, after: seq<string>, shapeId: string)
    ensures RemoveShape(before + [x] + after, shapeId)
         == RemoveShape(before, shapeId) + (if x == shapeId then [] else [x]) + RemoveShape(after, shapeId)
  {
    var p := (e: string) => e != shapeId;
    FilterConcat(before + [x], after, p);
    FilterConcat(before, [x], p);
    assert [x][1..] == [];
    assert Filter([x], p) == if x == shapeId then [] else [x];
  }

  lemma {:induction false} FilterKeepsNoDups<T(!new)>(s: seq<T>, p: T -> bool)
    requires NoDups(s)
    ensures NoDups(Filter(s, p))
  {
    if s != [] {
      assert NoDups(s[1..]);
      FilterKeepsNoDups(s[1..], p);
      assert s[0] !in s[1..];
    }
  }

  /** Deleting a shape just added gives the list back. */
  lemma AddThenRemove(shapes: seq<string>, uuid: string, ownUuid: Option<string>)
    ensures RemoveShape(AddShape(shapes, uuid, ownUuid), uuid) == RemoveShape(shapes, uuid)
    ensures AddDecision(shapes, uuid, ownUuid) == Appended ==> RemoveShape(AddShape(shapes, uuid, ownUuid), uuid) == shapes
  {
    var p := (e: string) => e != uuid;
    if AddDecision(shapes, uuid, ownUuid) == Appended {
      FilterConcat(shapes, [uuid], p);
      FilterAll(shapes, p);
    }
  }

  /** A shape-change power item; its flags hold the shape list. */
  class ShapePower {
    var flags: Flags
    /** The uuid of the actor that holds the power, when it is held. */
    const ownUuid: Option<string>

    constructor (flags: Flags, ownUuid: Option<string>)
      ensures this.flags == flags && this.ownUuid == ownUuid
    {
      this.flags := flags;
      this.ownUuid := ownUuid;
    }

    /** `addActorToShapeChangePower`: the guards, then the uuid pushed onto the list (a
        missing flag counts as an empty list) and the list written back. */
    method AddActor(uuid: string) returns (result: AddResult)
      modifies this
      ensures result == AddDecision(ShapeList(old(flags)), uuid, ownUuid)
      ensures result == Appended ==>
        flags == SetFlag(old(flags), FLAG_SHAPES, FlagList(AddShape(ShapeList(old(flags)), uuid, ownUuid)))
      ensures result != Appended ==> flags == old(flags)
    {
      if StartsWith(uuid, COMPENDIUM_PREFIX) {
        return CompendiumWarning;
      }
      var shapes := ShapeList(flags);
      if uuid in shapes {
        return AlreadyListed;
      }
      if ownUuid.Some? && uuid == ownUuid.value {
        return OwnActor;
      }
      shapes := shapes + [uuid];
      flags := SetFlag(flags, FLAG_SHAPES, FlagList(shapes));
      result := Appended;
    }

    /** The delete button's handler: the stored list filtered and written back. Without a
        stored list `filter` is called on `undefined` and throws, which `ok` reports. */
    method DeleteShape(shapeId: string) returns (ok: bool)
      modifies this
      ensures ok <==> GetFlag(old(flags), FLAG_SHAPES).Some? && GetFlag(old(flags), FLAG_SHAPES).value.FlagList?
      ensures ok ==> flags == SetFlag(old(flags), FLAG_SHAPES, FlagList(RemoveShape(ShapeList(old(flags)), shapeId)))
      ensures !ok ==> flags == old(flags)
    {
      var stored := GetFlag(flags, FLAG_SHAPES);
      if !(stored.Some? && stored.value.FlagList?) {
        return false;
      }
      var shapes := RemoveShape(stored.value.entries, shapeId);
      flags := SetFlag(flags, FLAG_SHAPES, FlagList(shapes));
      ok := true;
    }
  }

  /** A drop on the power's own sheet: only actor drops are passed on. */
  method OnDropOnPowerSheet(power: ShapePower, dataType: string, uuid: string) returns (result: Option<AddResult>)
    modifies power
    ensures dataType != "Actor" ==> result == None && power.flags == old(power.flags)
    ensures dataType == "Actor" ==> result == Some(AddDecision(ShapeList(old(power.flags)), uuid, power.ownUuid))
    ensures dataType == "Actor" && result == Some(Appended) ==>
      power.flags == SetFlag(old(power.flags), FLAG_SHAPES, FlagList(AddShape(ShapeList(old(power.flags)), uuid, power.ownUuid)))
    ensures dataType == "Actor" && result != Some(Appended) ==> power.flags == old(power.flags)
  {
    if dataType == "Actor" {
      var r := power.AddActor(uuid);
      result := Some(r);
    } else {
      result := None;
    }
  }

  /* ---------------------------------------------------------------------------------- */
  /* The remembered tab                                                                  */
  /* ---------------------------------------------------------------------------------- */

  /** The static `openTab` and `activeTab`. */
  datatype TabState = TabState(openTab: bool, activeTab: Option<string>)

  /** `onPreUpdateItem`: an update of a shape-change power remembers the sheet's active tab
      (`undefined` when the sheet has no tabs). */
  function PreUpdate(s: TabState, item: Option<Item>, sheetTab: Option<string>): TabState {
    if IsShapeChangePower(item) then TabState(true, sheetTab) else s
  }

  /** The tab step at the end of `addTabToShapeChangeSheet`: what the sheet is asked to
      activate (nothing when no tab is pending) and the state afterwards. */
  function RestoreTab(s: TabState): (Option<Option<string>>, TabState) {
    if s.openTab then (Some(s.activeTab), s.(openTab := false)) else (None, s)
  }

  /** An update of a shape-change power followed by a render re-activates the tab it
      remembered, exactly once; an update of anything else changes nothing. */
  lemma TabRoundTrip(s: TabState, item: Option<Item>, sheetTab: Option<string>)
    ensures IsShapeChangePower(item) ==>
      var (act, s1) := RestoreTab(PreUpdate(s, item, sheetTab));
      act == Some(sheetTab) && !s1.openTab && RestoreTab(s1).0 == None
    ensures !IsShapeChangePower(item) ==> PreUpdate(s, item, sheetTab) == s
  {
  }

  class TabMemory {
    var openTab: bool
    var activeTab: Option<string>

    constructor ()
      ensures !openTab && activeTab == None
    {
      openTab := false;
      activeTab := None;
    }

    function State(): TabState
      reads this
    {
      TabState(openTab, activeTab)
    }

    method OnPreUpdateItem(item: Option<Item>, sheetTab: Option<string>)
      modifies this
      ensures State() == PreUpdate(old(State()), item, sheetTab)
    {
      if !IsShapeChangePower(item) {
        return;
      }
      openTab := true;
      activeTab := sheetTab;
    }

    method RestoreTabAfterRender() returns (activate: Option<Option<string>>)
      modifies this
      ensures (activate, State()) == RestoreTab(old(State()))
    {
      activate := None;
      if openTab {
        activate := Some(activeTab);
        openTab := false;
      }
    }
  }

  /* ---------------------------------------------------------------------------------- */
  /* Drop on an actor sheet                                                              */
  /* ---------------------------------------------------------------------------------- */

  /** The power a drop on an actor sheet looks for: a power with swid exactly "shape-change". */
  predicate IsDropTargetPower(it: Item) {
    it.itemType == "power" && it.swid == SWID_SHAPE_CHANGE
  }

  /** `onDropActorSheetData`: the power the confirmation would forward the dropped actor
      to, if any. */
  function DropForwardTarget(items: seq<Item>, dataType: string): (r: Option<Item>)
    ensures r.Some? ==> dataType == "Actor" && r.value in items && IsDropTargetPower(r.value)
    ensures r.None? <==> dataType != "Actor" || forall k :: 0 <= k < |items| ==> !IsDropTargetPower(items[k])
    ensures r.Some? ==> exists k :: 0 <= k < |items| && items[k] == r.value
                                  && forall j :: 0 <= j < k ==> !IsDropTargetPower(items[j])
  {
    if dataType == "Actor" then Find(items, IsDropTargetPower) else None
  }

  /** A power recognised only by its name, or a baleful polymorph, is not offered. */
  lemma DropNeedsExactSwid(items: seq<Item>, dataType: string)
    requires forall k :: 0 <= k < |items| ==> items[k].swid != SWID_SHAPE_CHANGE
    ensures DropForwardTarget(items, dataType) == None
  {
  }
}
