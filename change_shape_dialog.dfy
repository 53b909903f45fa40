/** The shape-change dialog (modules/change-shape-dialog.js): building the shape and target
    lists when the dialog renders, and resolving the confirmed choice into the tokens to
    change and the requests sent to the privileged client. */
module ChangeShapeDialog {
  import opened Wrappers
  import opened SscConfig
  import opened Names
  import opened Seqs
  import opened Documents
  import opened Utils

  /** An entry of `shapeNames`. */
  datatype ShapeName = ShapeName(name: string, labelText: string, uuid: string)

  /** An entry of `targets`: a user target, or the leading "All" entry with no token. */
  datatype Target = Target(name: string, labelText: string, token: Option<string>)

  function ShapeNameKey(s: ShapeName): string {
    s.name
  }

  function TargetKey(t: Target): string {
    t.name
  }

  /* ---------------------------------------------------------------------------------- */
  /* The shape list                                                                      */
  /* ---------------------------------------------------------------------------------- */

  predicate IsShapePowerItem(it: Item) {
    IsShapeChangePower(Some(it))
  }

  /** The shape lists of the first `i` powers, concatenated (`getFlag(...) ?? []` each). */
  function ShapesOf(powers: seq<Item>, i: nat): (r: seq<string>)
    requires i <= |powers|
    ensures forall x :: x in r <==> exists k :: 0 <= k < i && x in ShapeList(powers[k].flags)
  {
    if i == 0 then []
    else
      var r := ShapesOf(powers, i - 1) + ShapeList(powers[i - 1].flags);
      assert forall x :: x in ShapeList(powers[i - 1].flags) ==> x in r;
      r
  }

  /** Every uuid listed by any of the actor's shape-change powers. */
  function AllShapes(items: seq<Item>): seq<string> {
    var powers := Filter(items, IsShapePowerItem);
    ShapesOf(powers, |powers|)
  }

  /** An actor without a shape-change power has no shapes at all. */
  lemma NoPowerNoShapes(items: seq<Item>)
    requires forall k :: 0 <= k < |items| ==> !IsShapePowerItem(items[k])
    ensures AllShapes(items) == []
  {
    FilterNone(items, IsShapePowerItem);
  }

  /** A uuid is offered exactly when some shape-change power of the actor lists it. */
  lemma AllShapesMembership(items: seq<Item>, x: string)
    ensures x in AllShapes(items) <==> exists it :: it in items && IsShapePowerItem(it) && x in ShapeList(it.flags)
  {
    if x in AllShapes(items) {
      ListedByAPower(items, x);
    }
    if exists it :: it in items && IsShapePowerItem(it) && x in ShapeList(it.flags) {
      var it :| it in items && IsShapePowerItem(it) && x in ShapeList(it.flags);
      PowerListsOffered(items, it, x);
    }
  }

  lemma ListedByAPower(items: seq<Item>, x: string)
    requires x in AllShapes(items)
    ensures exists it :: it in items && IsShapePowerItem(it) && x in ShapeList(it.flags)
  {
    var powers := Filter(items, IsShapePowerItem);
    var k :| 0 <= k < |powers| && x in ShapeList(powers[k].flags);
    assert powers[k] in powers;
  }

  lemma PowerListsOffered(items: seq<Item>, it: Item, x: string)
    requires it in items && IsShapePowerItem(it) && x in ShapeList(it.flags)
    ensures x in AllShapes(items)
  {
    var powers := Filter(items, IsShapePowerItem);
    assert it in powers;
    var k :| 0 <= k < |powers| && powers[k] == it;
  }

  function NameEntry(uuid: string, a: Actor): ShapeName {
    ShapeName(a.name, a.name, uuid)
  }

  /** The entries for resolved uuids, in the order of the uuids. */
  function NameEntries(shapes: seq<string>, resolve: map<string, Actor>): (r: seq<ShapeName>)
    requires forall k :: 0 <= k < |shapes| ==> shapes[k] in resolve
    ensures |r| == |shapes|
    ensures forall k :: 0 <= k < |shapes| ==> r[k] == NameEntry(shapes[k], resolve[shapes[k]])
  {
    if shapes == [] then [] else [NameEntry(shapes[0], resolve[shapes[0]])] + NameEntries(shapes[1..], resolve)
  }

  /** `[...new Set(shapes)]` of all the powers' lists. */
  function OfferedUuids(items: seq<Item>): seq<string> {
    Dedup(AllShapes(items))
  }

  /** The shape list of the dialog: one entry per distinct uuid of any shape-change power,
      sorted by name. */
  lemma ShapeListIs(items: seq<Item>, resolve: map<string, Actor>)
    requires forall x :: x in AllShapes(items) ==> x in resolve
    ensures var d := OfferedUuids(items);
      var r := SortBy(NameEntries(d, resolve), ShapeNameKey);
      && SortedBy(r, ShapeNameKey)
      && NoDups(d)
      && (forall e :: e in r <==> e.uuid in AllShapes(items) && e == NameEntry(e.uuid, resolve[e.uuid]))
      && |r| == |d|
  {
    var d := OfferedUuids(items);
    var entries := NameEntries(d, resolve);
    var r := SortBy(entries, ShapeNameKey);
    forall e ensures e in r <==> e.uuid in AllShapes(items) && e == NameEntry(e.uuid, resolve[e.uuid]) {
      ShapeListMember(items, resolve, e);
    }
    assert |r| == |multiset(r)| == |multiset(entries)| == |entries|;
  }

  lemma ShapeListMember(items: seq<Item>, resolve: map<string, Actor>, e: ShapeName)
    requires forall x :: x in AllShapes(items) ==> x in resolve
    ensures var r := SortBy(NameEntries(OfferedUuids(items), resolve), ShapeNameKey);
      e in r <==> e.uuid in AllShapes(items) && e == NameEntry(e.uuid, resolve[e.uuid])
  {
    var d := OfferedUuids(items);
    var entries := NameEntries(d, resolve);
    var r := SortBy(entries, ShapeNameKey);
    assert e in r <==> e in multiset(r);
    assert e in entries <==> e in multiset(entries);
    if e in entries {
      var k :| 0 <= k < |entries| && entries[k] == e;
      assert d[k] in d;
    }
    if e.uuid in AllShapes(items) && e == NameEntry(e.uuid, resolve[e.uuid]) {
      assert e.uuid in d;
      var k :| 0 <= k < |d| && d[k] == e.uuid;
      assert entries[k] == e;
    }
  }

  /* ---------------------------------------------------------------------------------- */
  /* The target list                                                                     */
  /* ---------------------------------------------------------------------------------- */

  function TargetOf(t: Token): Target {
    Target(t.name, t.name, Some(t.id))
  }

  function AllEntry(allLabel: string): Target {
    Target(allLabel, allLabel, None)
  }

  /** The tokens of the non-"All" entries, in list order. */
  function NonNullTokens(targets: seq<Target>): seq<string> {
    if targets == [] then []
    else (if targets[0].token.Some? then [targets[0].token.value] else []) + NonNullTokens(targets[1..])
  }

  /** A token is collected exactly when some entry carries it. */
  lemma {:induction false} NonNullTokensMembers(targets: seq<Target>, x: string)
    ensures x in NonNullTokens(targets) <==> exists k :: 0 <= k < |targets| && targets[k].token == Some(x)
  {
    if targets != [] {
      NonNullTokensMembers(targets[1..], x);
      assert forall k :: 0 < k < |targets| ==> targets[k] == targets[1..][k - 1];
      if exists k :: 0 <= k < |targets| && targets[k].token == Some(x) {
        var k :| 0 <= k < |targets| && targets[k].token == Some(x);
        if k > 0 {
          assert targets[1..][k - 1].token == Some(x);
        }
      }
    }
  }

  /** Entries that all carry a token give one token each. */
  lemma {:induction false} NonNullTokensAllSome(targets: seq<Target>)
    requires forall k :: 0 <= k < |targets| ==> targets[k].token.Some?
    ensures |NonNullTokens(targets)| == |targets|
  {
    if targets != [] {
      NonNullTokensAllSome(targets[1..]);
    }
  }

  lemma {:induction false} NonNullTokensConcat(a: seq<Target>, b: seq<Target>)
    ensures NonNullTokens(a + b) == NonNullTokens(a) + NonNullTokens(b)
  {
    if a == [] {
      assert a + b == b;
    } else {
      assert (a + b)[0] == a[0];
      assert (a + b)[1..] == a[1..] + b;
      NonNullTokensConcat(a[1..], b);
    }
  }

  /** `targets` with more than one user target: "All" first, then the targets sorted by
      name. */
  function TargetList(users: seq<Token>, allLabel: string): seq<Target> {
    [AllEntry(allLabel)] + SortBy(Map(users, TargetOf), TargetKey)
  }

  /** The target list starts with the "All" entry and holds every user target once; and
      choosing "All" picks one token per user target, each a user target's id. */
  lemma TargetListIs(users: seq<Token>, allLabel: string)
    ensures var r := TargetList(users, allLabel);
      && r[0] == AllEntry(allLabel)
      && SortedBy(r[1..], TargetKey)
      && multiset(r[1..]) == multiset(Map(users, TargetOf))
      && |NonNullTokens(r)| == |users|
      && (forall x :: x in NonNullTokens(r) <==> exists k :: 0 <= k < |users| && users[k].id == x)
  {
    var r := TargetList(users, allLabel);
    var sorted := SortBy(Map(users, TargetOf), TargetKey);
    assert r[1..] == sorted;
    TargetListTokens(users, allLabel);
  }

  lemma TargetListTokens(users: seq<Token>, allLabel: string)
    ensures var r := TargetList(users, allLabel);
      && |NonNullTokens(r)| == |users|
      && (forall x :: x in NonNullTokens(r) <==> exists k :: 0 <= k < |users| && users[k].id == x)
  {
    var r := TargetList(users, allLabel);
    var sorted := SortBy(Map(users, TargetOf), TargetKey);
    assert r[1..] == sorted;
    assert NonNullTokens(r) == NonNullTokens(sorted);
    SortedTargetsAllSome(users);
    NonNullTokensAllSome(sorted);
    forall x ensures x in NonNullTokens(sorted) <==> exists k :: 0 <= k < |users| && users[k].id == x {
      SortedTargetsMembers(users, x);
    }
  }

  lemma SortedTargetsAllSome(users: seq<Token>)
    ensures var sorted := SortBy(Map(users, TargetOf), TargetKey);
      |sorted| == |users| && forall k :: 0 <= k < |sorted| ==> sorted[k].token.Some?
  {
    var us := Map(users, TargetOf);
    var sorted := SortBy(us, TargetKey);
    forall k | 0 <= k < |sorted| ensures sorted[k].token.Some? {
      assert sorted[k] in multiset(us);
    }
    assert |sorted| == |multiset(sorted)| == |multiset(us)| == |users|;
  }

  lemma SortedTargetsMembers(users: seq<Token>, x: string)
    ensures var sorted := SortBy(Map(users, TargetOf), TargetKey);
      x in NonNullTokens(sorted) <==> exists k :: 0 <= k < |users| && users[k].id == x
  {
    var us := Map(users, TargetOf);
    var sorted := SortBy(us, TargetKey);
    NonNullTokensMembers(sorted, x);
    if exists k :: 0 <= k < |sorted| && sorted[k].token == Some(x) {
      var k :| 0 <= k < |sorted| && sorted[k].token == Some(x);
      assert sorted[k] in multiset(sorted);
      MapMember(users, sorted[k]);
    }
    if exists k :: 0 <= k < |users| && users[k].id == x {
      var k :| 0 <= k < |users| && users[k].id == x;
      UserTargetSorted(users, k);
    }
  }

  lemma MapMember(users: seq<Token>, t: Target)
    requires t in multiset(Map(users, TargetOf))
    ensures exists j :: 0 <= j < |users| && t == TargetOf(users[j])
  {
    var us := Map(users, TargetOf);
    assert t in us;
    var j :| 0 <= j < |us| && us[j] == t;
    assert t == TargetOf(users[j]);
  }

  lemma UserTargetSorted(users: seq<Token>, k: int)
    requires 0 <= k < |users|
    ensures exists j :: 0 <= j < |SortBy(Map(users, TargetOf), TargetKey)| &&
             SortBy(Map(users, TargetOf), TargetKey)[j] == TargetOf(users[k])
  {
    var us := Map(users, TargetOf);
    assert us[k] in multiset(SortBy(us, TargetKey));
    assert us[k] in SortBy(us, TargetKey);
  }

  /* ---------------------------------------------------------------------------------- */
  /* Confirm: replacing already changed targets                                          */
  /* ---------------------------------------------------------------------------------- */

  /** The existing token a target's `originalToken` flag names, if the flag is a non-empty
      id and the canvas has that token. */
  function OriginalOf(canvas: map<string, Token>, id: string): Option<string> {
    if id !in canvas then None
    else match GetFlag(canvas[id].flags, FLAG_ORIGINAL_TOKEN)
      case Some(FlagString(o)) => if o != "" && o in canvas then Some(o) else None
      case _ => None
  }

  /** One pass of the replacement loop for target `t`: a changed target is taken out and
      its original appended. */
  function ReplaceStep(list: seq<string>, t: string, canvas: map<string, Token>): (r: seq<string>)
    ensures OriginalOf(canvas, t).None? ==> r == list
    ensures OriginalOf(canvas, t).Some? ==>
      forall x :: x in r <==> (x in list && x != t) || x == OriginalOf(canvas, t).value
  {
    match OriginalOf(canvas, t)
    case Some(o) => Without(list, t) + [o]
    case None => list
  }

  /** `list.filter(x => x.id != t)`. */
  function Without(list: seq<string>, t: string): (r: seq<string>)
    ensures forall x :: x in r <==> x in list && x != t
  {
    Filter(list, (x: string) => x != t)
  }

  /** The target list after the loop has visited `snapshot[i..]`; the loop walks the list as
      it was when the loop started, while the body replaces `targetTokens`. */
  function ReplacedFrom(list: seq<string>, snapshot: seq<string>, canvas: map<string, Token>, i: nat): seq<string>
    decreases |snapshot| - i
  {
    if i >= |snapshot| then list
    else ReplacedFrom(ReplaceStep(list, snapshot[i], canvas), snapshot, canvas, i + 1)
  }

  /** The targets sent to revert, from `snapshot[i..]` on. */
  function RevertsFrom(snapshot: seq<string>, canvas: map<string, Token>, i: nat): seq<string>
    decreases |snapshot| - i
  {
    if i >= |snapshot| then []
    else (if OriginalOf(canvas, snapshot[i]).Some? then [snapshot[i]] else []) + RevertsFrom(snapshot, canvas, i + 1)
  }

  lemma ReplaceLoopStep(list: seq<string>, reverted: seq<string>, s: seq<string>, canvas: map<string, Token>, i: nat)
    requires i < |s|
    ensures ReplacedFrom(list, s, canvas, i) == ReplacedFrom(ReplaceStep(list, s[i], canvas), s, canvas, i + 1)
    ensures reverted + RevertsFrom(s, canvas, i) ==
      (reverted + if OriginalOf(canvas, s[i]).Some? then [s[i]] else []) + RevertsFrom(s, canvas, i + 1)
  {
  }

  /** No original is itself a changed token. */
  predicate NoChains(snapshot: seq<string>, canvas: map<string, Token>) {
    forall j :: 0 <= j < |snapshot| && OriginalOf(canvas, snapshot[j]).Some? ==>
      OriginalOf(canvas, OriginalOf(canvas, snapshot[j]).value).None?
  }

  /** A token that is not a changed one is never taken out. */
  lemma {:induction false} ReplaceKeepsUnchanged(list: seq<string>, s: seq<string>, canvas: map<string, Token>, i: nat, x: string)
    requires x in list && OriginalOf(canvas, x).None?
    ensures x in ReplacedFrom(list, s, canvas, i)
    decreases |s| - i
  {
    if i < |s| {
      ReplaceKeepsUnchanged(ReplaceStep(list, s[i], canvas), s, canvas, i + 1, x);
    }
  }

  /** A changed token that is out of the list stays out: only originals are added, and none
      of them is changed. */
  lemma {:induction false} ReplaceKeepsOut(list: seq<string>, s: seq<string>, canvas: map<string, Token>, i: nat, x: string)
    requires NoChains(s, canvas) && OriginalOf(canvas, x).Some? && x !in list
    ensures x !in ReplacedFrom(list, s, canvas, i)
    decreases |s| - i
  {
    if i < |s| {
      var o := OriginalOf(canvas, s[i]);
      if o.Some? {
        assert OriginalOf(canvas, o.value).None?;
      }
      ReplaceKeepsOut(ReplaceStep(list, s[i], canvas), s, canvas, i + 1, x);
    }
  }

  /** Nothing enters the list but the originals of the targets still to visit. */
  lemma {:induction false} ReplaceAddsOnlyOriginals(list: seq<string>, s: seq<string>, canvas: map<string, Token>, i: nat, x: string)
    requires x in ReplacedFrom(list, s, canvas, i)
    ensures x in list || exists j :: i <= j < |s| && OriginalOf(canvas, s[j]) == Some(x)
    decreases |s| - i
  {
    if i < |s| {
      var next := ReplaceStep(list, s[i], canvas);
      ReplaceAddsOnlyOriginals(next, s, canvas, i + 1, x);
      if x !in list && x in next {
        assert OriginalOf(canvas, s[i]) == Some(x);
      }
    }
  }

  /** The original of a changed target still to visit ends up in the list, and the target
      itself does not. */
  lemma {:induction false} ReplaceSwapsChanged(list: seq<string>, s: seq<string>, canvas: map<string, Token>, i: nat, j: nat)
    requires NoChains(s, canvas) && i <= j < |s| && OriginalOf(canvas, s[j]).Some?
    ensures OriginalOf(canvas, s[j]).value in ReplacedFrom(list, s, canvas, i)
    ensures s[j] !in ReplacedFrom(list, s, canvas, i)
    decreases |s| - i
  {
    var next := ReplaceStep(list, s[i], canvas);
    if i < j {
      ReplaceSwapsChanged(next, s, canvas, i + 1, j);
    } else {
      var o := OriginalOf(canvas, s[i]).value;
      assert OriginalOf(canvas, o).None?;
      ReplaceKeepsUnchanged(next, s, canvas, i + 1, o);
      ReplaceKeepsOut(next, s, canvas, i + 1, s[i]);
    }
  }

  /** The replacement loop over the targets as they stood: every changed target whose
      original exists is replaced by that original, every other target stays, and nothing
      else comes in. */
  lemma ReplacedTargetsAre(s: seq<string>, canvas: map<string, Token>)
    requires NoChains(s, canvas)
    ensures var r := ReplacedFrom(s, s, canvas, 0);
      && (forall j :: 0 <= j < |s| && OriginalOf(canvas, s[j]).Some? ==> OriginalOf(canvas, s[j]).value in r && s[j] !in r)
      && (forall j :: 0 <= j < |s| && OriginalOf(canvas, s[j]).None? ==> s[j] in r)
      && (forall x :: x in r ==> (x in s && OriginalOf(canvas, x).None?) || exists j :: 0 <= j < |s| && OriginalOf(canvas, s[j]) == Some(x))
  {
    var r := ReplacedFrom(s, s, canvas, 0);
    forall j | 0 <= j < |s| && OriginalOf(canvas, s[j]).Some?
      ensures OriginalOf(canvas, s[j]).value in r && s[j] !in r
    {
      ReplaceSwapsChanged(s, s, canvas, 0, j);
    }
    forall j | 0 <= j < |s| && OriginalOf(canvas, s[j]).None? ensures s[j] in r {
      ReplaceKeepsUnchanged(s, s, canvas, 0, s[j]);
    }
    forall x | x in r
      ensures (x in s && OriginalOf(canvas, x).None?) || exists j :: 0 <= j < |s| && OriginalOf(canvas, s[j]) == Some(x)
    {
      ReplaceAddsOnlyOriginals(s, s, canvas, 0, x);
    }
  }

  /* ---------------------------------------------------------------------------------- */
  /* Confirm: requests                                                                   */
  /* ---------------------------------------------------------------------------------- */

  /** The arguments of one `executeAsGM("changeTokenIntoActor", ...)` call. */
  datatype ChangeRequest = ChangeRequest(
    sceneId: string, tokenId: string, shapeUuid: string, changeType: Option<string>,
    animalSmarts: bool, longDuration: bool, raise: bool)

  datatype PrepareOutcome =
    | NoShapes
      /** `fromUuid` found no actor for this uuid; reading its name throws. */
    | ShapeActorMissing(uuid: string)
    | Context(shapes: seq<ShapeName>, shape: string, targets: seq<Target>, target: Option<string>, changeType: string)

  datatype ConfirmOutcome =
    | NoActiveGM
      /** The selected target is not in the list; reading its token throws. */
    | TargetNotFound
      /** The selected shape is not in the list; reading its uuid throws at the first request. */
    | ShapeNotFound(reverted: seq<string>)
    | Confirmed(reverted: seq<string>, requests: seq<ChangeRequest>)

  /** The target tokens after the selection step, or None when the chosen target is not in
      the list. */
  function SelectedTargets(current: seq<string>, targets: seq<Target>, targetChoice: string, userTargetCount: nat): Option<seq<string>> {
    if userTargetCount <= 1 then Some(current)
    else match Find(targets, (t: Target) => t.name == targetChoice)
      case None => None
      case Some(t) => Some(current + if t.token.None? then NonNullTokens(targets) else [t.token.value])
  }

  /** With several user targets, "All" adds every token of the list and any other choice
      adds just its own token. */
  lemma SelectionRules(current: seq<string>, targets: seq<Target>, targetChoice: string, userTargetCount: nat)
    requires userTargetCount > 1
    requires SelectedTargets(current, targets, targetChoice, userTargetCount).Some?
    ensures var r := SelectedTargets(current, targets, targetChoice, userTargetCount).value;
      var t := Find(targets, (t: Target) => t.name == targetChoice).value;
      && t in targets && t.name == targetChoice
      && (t.token.None? ==> r == current + NonNullTokens(targets))
      && (t.token.Some? ==> r == current + [t.token.value])
  {
  }

  function RequestFor(sceneId: string, tokenId: string, shapeUuid: string, changeType: Option<string>,
                      animalSmarts: bool, longDuration: bool, raise: bool): ChangeRequest {
    ChangeRequest(sceneId, tokenId, shapeUuid, changeType, animalSmarts, longDuration, raise)
  }

  /** One request per target token, in order. */
  function Requests(tokens: seq<string>, sceneId: string, shapeUuid: string, changeType: Option<string>,
                    animalSmarts: bool, longDuration: bool, raise: bool): (r: seq<ChangeRequest>)
    ensures |r| == |tokens|
    ensures forall k :: 0 <= k < |tokens| ==>
      r[k].tokenId == tokens[k] && r[k].sceneId == sceneId && r[k].shapeUuid == shapeUuid && r[k].changeType == changeType
      && r[k].animalSmarts == animalSmarts && r[k].longDuration == longDuration && r[k].raise == raise
  {
    Map(tokens, (t: string) => RequestFor(sceneId, t, shapeUuid, changeType, animalSmarts, longDuration, raise))
  }

  /** What confirm does once an active GM is there: None when the chosen target is missing,
      else the replaced target list and the outcome. */
  function ConfirmResult(shapeNames: seq<ShapeName>, targets: seq<Target>, targetTokens: seq<string>, changeType: Option<string>,
                         shapeChoice: string, targetChoice: string, userTargetCount: nat, canvas: map<string, Token>,
                         sceneId: string, animalSmarts: bool, longDuration: bool, raise: bool): Option<(seq<string>, ConfirmOutcome)>
  {
    match SelectedTargets(targetTokens, targets, targetChoice, userTargetCount)
    case None => None
    case Some(chosen) =>
      var finalTokens := ReplacedFrom(chosen, chosen, canvas, 0);
      var reverted := RevertsFrom(chosen, canvas, 0);
      var shape := Find(shapeNames, (s: ShapeName) => s.name == shapeChoice);
      Some((finalTokens,
            if finalTokens != [] && shape.None? then ShapeNotFound(reverted)
            else Confirmed(reverted, Requests(finalTokens, sceneId, if shape.Some? then shape.value.uuid else "",
                                              changeType, animalSmarts, longDuration, raise))))
  }

  /** Every request of a confirmed change goes to a token of the final list, with the uuid
      of the shape chosen by name, and every final token gets one. */
  lemma ConfirmRequests(shapeNames: seq<ShapeName>, targets: seq<Target>, targetTokens: seq<string>, changeType: Option<string>,
                        shapeChoice: string, targetChoice: string, userTargetCount: nat, canvas: map<string, Token>,
                        sceneId: string, animalSmarts: bool, longDuration: bool, raise: bool)
    requires ConfirmResult(shapeNames, targets, targetTokens, changeType, shapeChoice, targetChoice, userTargetCount,
                           canvas, sceneId, animalSmarts, longDuration, raise).Some?
    ensures var (finalTokens, outcome) := ConfirmResult(shapeNames, targets, targetTokens, changeType, shapeChoice, targetChoice,
                                                        userTargetCount, canvas, sceneId, animalSmarts, longDuration, raise).value;
      && (outcome.ShapeNotFound? <==> finalTokens != [] && forall k :: 0 <= k < |shapeNames| ==> shapeNames[k].name != shapeChoice)
      && (outcome.Confirmed? ==>
            && |outcome.requests| == |finalTokens|
            && forall k :: 0 <= k < |finalTokens| ==>
                 && outcome.requests[k].tokenId == finalTokens[k]
                 && exists j :: 0 <= j < |shapeNames| && shapeNames[j].name == shapeChoice && outcome.requests[k].shapeUuid == shapeNames[j].uuid)
  {
  }

  class Dialog {
    var shapeNames: seq<ShapeName>
    var targets: seq<Target>
    var targetTokens: seq<string>
    var changeType: Option<string>

    constructor ()
      ensures shapeNames == [] && targets == [] && targetTokens == [] && changeType == None
    {
      shapeNames := [];
      targets := [];
      targetTokens := [];
      changeType := None;
    }

    /** `_prepareContext`. The `!shapePowers` guard tests an array, which is always truthy,
        so it never fires and an actor without shape-change powers ends at the NoShapes
        error. `resolve` stands for `fromUuid`; `userTargets` are the user's targets in their
        set order and `allLabel` the localized "All". */
    method PrepareContext(sourceTokenId: string, items: seq<Item>, resolve: map<string, Actor>,
                          userTargets: seq<Token>, allLabel: string)
      returns (outcome: PrepareOutcome)
      modifies this
      ensures outcome.NoShapes? <==> AllShapes(items) == []
      ensures outcome.NoShapes? ==> unchanged(this)
      ensures outcome.ShapeActorMissing? ==>
        outcome.uuid in AllShapes(items) && outcome.uuid !in resolve
        && targets == old(targets) && targetTokens == old(targetTokens) && changeType == old(changeType)
      ensures outcome.Context? ==>
        && (forall x :: x in AllShapes(items) ==> x in resolve)
        && shapeNames == SortBy(NameEntries(OfferedUuids(items), resolve), ShapeNameKey)
        && targets == (if |userTargets| > 1 then TargetList(userTargets, allLabel) else [])
        && targetTokens == (if |userTargets| > 1 then [] else if |userTargets| == 1 then [userTargets[0].id] else [sourceTokenId])
        && changeType == Some(if old(changeType).Some? then old(changeType).value else CHANGE_TYPE_BASE)
        && shapeNames != []
        && outcome == Context(shapeNames, shapeNames[0].name, targets,
                              if targets == [] then None else Some(targets[0].name), changeType.value)
    {
      var shapePowers := Filter(items, IsShapePowerItem);
      var shapes := CollectShapes(shapePowers);
      if |shapes| == 0 {
        return NoShapes;
      }
      var offered := Dedup(shapes);
      assert shapes[0] in offered;
      var missing := ResolveShapeNames(offered, resolve);
      if missing.Some? {
        return ShapeActorMissing(missing.value);
      }
      SortShapeNames();
      outcome := FinishContext(sourceTokenId, userTargets, allLabel);
    }

    /** The rest of `_prepareContext` once the shapes are listed: the targets, the change
        type, and the context returned. */
    method FinishContext(sourceTokenId: string, userTargets: seq<Token>, allLabel: string) returns (outcome: PrepareOutcome)
      requires shapeNames != []
      modifies this`targets, this`targetTokens, this`changeType
      ensures targets == (if |userTargets| > 1 then TargetList(userTargets, allLabel) else [])
      ensures targetTokens == (if |userTargets| > 1 then [] else if |userTargets| == 1 then [userTargets[0].id] else [sourceTokenId])
      ensures changeType == Some(if old(changeType).Some? then old(changeType).value else CHANGE_TYPE_BASE)
      ensures outcome == Context(shapeNames, shapeNames[0].name, targets,
                                 if targets == [] then None else Some(targets[0].name), changeType.value)
    {
      PrepareTargets(sourceTokenId, userTargets, allLabel);
      if changeType.None? {
        changeType := Some(CHANGE_TYPE_BASE);
      }
      outcome := Context(shapeNames, shapeNames[0].name, targets,
                         if targets == [] then None else Some(targets[0].name), changeType.value);
    }

    /** The second loop of `_prepareContext`: one entry pushed onto `shapeNames` per uuid;
        an unresolved uuid throws, leaving the entries pushed so far. */
    method ResolveShapeNames(shapes: seq<string>, resolve: map<string, Actor>) returns (missing: Option<string>)
      modifies this`shapeNames
      ensures missing.Some? ==> missing.value in shapes && missing.value !in resolve
      ensures missing.None? ==> (forall x :: x in shapes ==> x in resolve) && shapeNames == NameEntries(shapes, resolve)
    {
      shapeNames := [];
      for i := 0 to |shapes|
        invariant |shapeNames| == i
        invariant forall k :: 0 <= k < i ==> shapes[k] in resolve && shapeNames[k] == NameEntry(shapes[k], resolve[shapes[k]])
      {
        if shapes[i] !in resolve {
          return Some(shapes[i]);
        }
        shapeNames := shapeNames + [NameEntry(shapes[i], resolve[shapes[i]])];
      }
      missing := None;
      assert forall x :: x in shapes ==> exists k :: 0 <= k < |shapes| && shapes[k] == x;
    }

    method SortShapeNames()
      modifies this`shapeNames
      ensures shapeNames == SortBy(old(shapeNames), ShapeNameKey)
      ensures |shapeNames| == |old(shapeNames)|
    {
      shapeNames := SortBy(shapeNames, ShapeNameKey);
      assert |shapeNames| == |multiset(shapeNames)| == |multiset(old(shapeNames))|;
    }

    /** The target part of `_prepareContext`. */
    method PrepareTargets(sourceTokenId: string, userTargets: seq<Token>, allLabel: string)
      modifies this`targets, this`targetTokens
      ensures targets == (if |userTargets| > 1 then TargetList(userTargets, allLabel) else [])
      ensures targetTokens == (if |userTargets| > 1 then [] else if |userTargets| == 1 then [userTargets[0].id] else [sourceTokenId])
    {
      targets := [];
      targetTokens := [];
      if |userTargets| > 1 {
        var entries := CollectTargets(userTargets);
        targets := [AllEntry(allLabel)] + SortBy(entries, TargetKey);
      } else {
        targetTokens := [if |userTargets| == 1 then userTargets[0].id else sourceTokenId];
      }
    }

    /** `handleChangeDialogConfirm`, up to the requests: refuse without an active GM, find
        the chosen shape by name, add the chosen targets, replace the already changed ones
        by their originals, then build one request per target token. The revert of a changed
        target is recorded in the outcome. */
    method HandleConfirm(activeGM: bool, shapeChoice: string, targetChoice: string, userTargetCount: nat,
                         canvas: map<string, Token>, sceneId: string, animalSmarts: bool, longDuration: bool, raise: bool)
      returns (outcome: ConfirmOutcome)
      modifies this`targetTokens
      ensures !activeGM ==> outcome == NoActiveGM && targetTokens == old(targetTokens)
      ensures activeGM ==>
        match ConfirmResult(shapeNames, targets, old(targetTokens), changeType, shapeChoice, targetChoice, userTargetCount,
                            canvas, sceneId, animalSmarts, longDuration, raise)
        case None => outcome == TargetNotFound && targetTokens == old(targetTokens)
        case Some((finalTokens, o)) => outcome == o && targetTokens == finalTokens
    {
      if !activeGM {
        return NoActiveGM;
      }
      var selectedShape := Find(shapeNames, (s: ShapeName) => s.name == shapeChoice);
      var found := SelectTargets(targetChoice, userTargetCount);
      if !found {
        return TargetNotFound;
      }
      var reverted := ReplaceChangedTargets(canvas);
      if targetTokens != [] && selectedShape.None? {
        return ShapeNotFound(reverted);
      }
      var requests := BuildRequests(targetTokens, sceneId, if selectedShape.Some? then selectedShape.value.uuid else "",
                                    changeType, animalSmarts, longDuration, raise);
      outcome := Confirmed(reverted, requests);
    }

    /** The target selection of confirm: with several user targets the chosen entry is
        looked up by name; "All" pushes every token of the list, any other entry its own. A
        missing entry throws. */
    method SelectTargets(targetChoice: string, userTargetCount: nat) returns (found: bool)
      modifies this`targetTokens
      ensures found <==> SelectedTargets(old(targetTokens), targets, targetChoice, userTargetCount).Some?
      ensures found ==> targetTokens == SelectedTargets(old(targetTokens), targets, targetChoice, userTargetCount).value
      ensures !found ==> targetTokens == old(targetTokens)
    {
      found := true;
      if userTargetCount > 1 {
        var target := Find(targets, (t: Target) => t.name == targetChoice);
        if target.None? {
          return false;
        }
        if target.value.token.None? {
          AddAllTargets();
        } else {
          targetTokens := targetTokens + [target.value.token.value];
        }
      }
    }

    /** The "All" loop: every non-null token of `targets` pushed, in list order. */
    method AddAllTargets()
      modifies this`targetTokens
      ensures targetTokens == old(targetTokens) + NonNullTokens(targets)
    {
      for i := 0 to |targets|
        invariant targetTokens == old(targetTokens) + NonNullTokens(targets[..i])
      {
        NonNullTokensConcat(targets[..i], [targets[i]]);
        assert targets[..i + 1] == targets[..i] + [targets[i]];
        assert [targets[i]][1..] == [];
        if targets[i].token.Some? {
          targetTokens := targetTokens + [targets[i].token.value];
        }
      }
      assert targets[..|targets|] == targets;
    }

    /** The body of the loop below for one target: when its `originalToken` flag names an
        existing token, the target is taken out and that token appended. */
    method ReplaceIfChanged(targetToken: string, canvas: map<string, Token>) returns (changed: bool)
      modifies this`targetTokens
      ensures changed <==> OriginalOf(canvas, targetToken).Some?
      ensures targetTokens == ReplaceStep(old(targetTokens), targetToken, canvas)
    {
      var originalTokenId := OriginalOf(canvas, targetToken);
      changed := originalTokenId.Some?;
      if changed {
        targetTokens := Without(targetTokens, targetToken) + [originalTokenId.value];
      }
    }

    /** The loop over already changed targets: each target whose original still exists is
        sent to revert, taken out of `targetTokens`, and its original appended. */
    method ReplaceChangedTargets(canvas: map<string, Token>) returns (reverted: seq<string>)
      modifies this`targetTokens
      ensures targetTokens == ReplacedFrom(old(targetTokens), old(targetTokens), canvas, 0)
      ensures reverted == RevertsFrom(old(targetTokens), canvas, 0)
    {
      var snapshot := targetTokens;
      reverted := [];
      for i := 0 to |snapshot|
        invariant ReplacedFrom(targetTokens, snapshot, canvas, i) == ReplacedFrom(snapshot, snapshot, canvas, 0)
        invariant reverted + RevertsFrom(snapshot, canvas, i) == RevertsFrom(snapshot, canvas, 0)
      {
        ReplaceLoopStep(targetTokens, reverted, snapshot, canvas, i);
        var targetToken := snapshot[i];
        var changed := ReplaceIfChanged(targetToken, canvas);
        if changed {
          reverted := reverted + [targetToken];
        }
      }
    }
  }

  /** The first loop of `_prepareContext`: the shape lists of the powers concatenated. */
  method CollectShapes(powers: seq<Item>) returns (shapes: seq<string>)
    ensures shapes == ShapesOf(powers, |powers|)
  {
    shapes := [];
    for i := 0 to |powers|
      invariant shapes == ShapesOf(powers, i)
    {
      shapes := shapes + ShapeList(powers[i].flags);
    }
  }

  /** The target loop of `_prepareContext`: one entry per user target, in set order. */
  method CollectTargets(users: seq<Token>) returns (entries: seq<Target>)
    ensures entries == Map(users, TargetOf)
  {
    entries := [];
    for i := 0 to |users|
      invariant |entries| == i
      invariant forall k :: 0 <= k < i ==> entries[k] == TargetOf(users[k])
    {
      entries := entries + [TargetOf(users[i])];
    }
  }

  /** The request loop: one request per target token, in order. */
  method BuildRequests(tokens: seq<string>, sceneId: string, shapeUuid: string, changeType: Option<string>,
                       animalSmarts: bool, longDuration: bool, raise: bool)
    returns (requests: seq<ChangeRequest>)
    ensures requests == Requests(tokens, sceneId, shapeUuid, changeType, animalSmarts, longDuration, raise)
  {
    requests := [];
    for i := 0 to |tokens|
      invariant |requests| == i
      invariant forall k :: 0 <= k < i ==> requests[k] == RequestFor(sceneId, tokens[k], shapeUuid, changeType, animalSmarts, longDuration, raise)
    {
      requests := requests + [RequestFor(sceneId, tokens[i], shapeUuid, changeType, animalSmarts, longDuration, raise)];
    }
    MapPointwiseRequests(tokens, sceneId, shapeUuid, changeType, animalSmarts, longDuration, raise, requests);
  }

  lemma MapPointwiseRequests(tokens: seq<string>, sceneId: string, shapeUuid: string, changeType: Option<string>,
                             animalSmarts: bool, longDuration: bool, raise: bool, r: seq<ChangeRequest>)
    requires |r| == |tokens|
    requires forall k :: 0 <= k < |tokens| ==> r[k] == RequestFor(sceneId, tokens[k], shapeUuid, changeType, animalSmarts, longDuration, raise)
    ensures r == Requests(tokens, sceneId, shapeUuid, changeType, animalSmarts, longDuration, raise)
  {
  }
}
