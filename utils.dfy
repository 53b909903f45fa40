/** Helper predicates, flag access and message assembly (modules/utils.js). */
module Utils {
  import opened Wrappers
  import opened SscConfig
  import opened Names
  import opened Documents

  /** The text `showNotification` passes to the host: the short title, a bar, the message. */
  function NotificationText(message: string): (r: string)
    ensures StartsWith(r, SHORT_TITLE + " | ")
    ensures r[|SHORT_TITLE + " | "|..] == message
  {
    SHORT_TITLE + " | " + message
  }

  /** One argument handed to the console. */
  datatype ConsoleArg = Objects(objects: seq<string>) | Message(text: string) | SubStrings(parts: seq<string>)

  /** The argument list `consoleMessage` hands to the console: the objects when there are any,
      then the prefixed message (never empty, so always present), then the substitutions when
      there are any. */
  function ConsoleArgs(objects: seq<string>, message: string, subStr: seq<string>): (r: seq<ConsoleArg>)
    ensures Message(TITLE + " | " + message) in r
    ensures Objects(objects) in r <==> |objects| > 0
    ensures SubStrings(subStr) in r <==> |subStr| > 0
    ensures forall k :: 0 <= k < |r| && r[k].Message? ==> r[k].text == TITLE + " | " + message
    ensures |r| == 1 + (if |objects| > 0 then 1 else 0) + (if |subStr| > 0 then 1 else 0)
    ensures |objects| > 0 ==> r[0] == Objects(objects)
    ensures r[if |objects| > 0 then 1 else 0] == Message(TITLE + " | " + message)
    ensures |subStr| > 0 ==> r[|r| - 1] == SubStrings(subStr)
  {
    var msg := TITLE + " | " + message;
    var params := if |objects| > 0 then [Objects(objects)] else [];
    var params := if msg != "" then params + [Message(msg)] else params;
    if |subStr| > 0 then params + [SubStrings(subStr)] else params
  }

  /** `hasModuleFlags`: false when the object has no `flags` at all, otherwise whether
      it has flags in the module's scope. */
  function HasModuleFlags(flags: Option<Flags>): (r: bool)
    ensures r <==> flags.Some? && NAME in flags.value
  {
    if flags.None? then false else NAME in flags.value
  }

  /** `getModuleFlag`: `undefined` without module flags, otherwise the value under `flag`. */
  function GetModuleFlag(flags: Option<Flags>, flag: string): (r: Option<FlagValue>)
    ensures !HasModuleFlags(flags) ==> r == None
    ensures r.Some? ==> flags.Some? && NAME in flags.value && flag in flags.value[NAME]
                        && r.value == flags.value[NAME][flag]
    ensures HasModuleFlags(flags) && flag in flags.value[NAME] ==> r == Some(flags.value[NAME][flag])
  {
    if !HasModuleFlags(flags) then None
    else if flag in flags.value[NAME] then Some(flags.value[NAME][flag])
    else None
  }

  /** On a document that has flags, `getModuleFlag` reads what the host's `getFlag` reads,
      so it returns what `setFlag` last wrote. */
  lemma GetModuleFlagAgreesWithGetFlag(flags: Flags, flag: string, v: FlagValue)
    ensures GetModuleFlag(Some(flags), flag) == GetFlag(flags, flag)
    ensures GetModuleFlag(Some(SetFlag(flags, flag, v)), flag) == Some(v)
  {
    assert HasModuleFlags(Some(SetFlag(flags, flag, v)));
  }

  const SWID_SHAPE_CHANGE: string := "shape-change"
  const SWID_BALEFUL_POLYMORPH: string := "baleful-polymorph"

  /** `isShapeChangePower`: the item exists, is a power, and has a shape-change or
      baleful-polymorph swid (compared exactly) or name (compared after lower-casing). */
  predicate IsShapeChangePower(item: Option<Item>) {
    if item.None? || item.value.itemType != "power" then false
    else
      var it := item.value;
      it.swid == SWID_SHAPE_CHANGE ||
      it.swid == SWID_BALEFUL_POLYMORPH ||
      ToLower(it.name) == "shape change" ||
      ToLower(it.name) == "baleful-polymorph"
  }

  lemma {:induction false} ToLowerIdempotent(s: string)
    ensures ToLower(ToLower(s)) == ToLower(s)
  {
    var once := ToLower(s);
    assert forall k :: 0 <= k < |s| ==> LowerChar(once[k]) == once[k];
  }

  /** Only a power can qualify, and a missing item never does. */
  lemma NotAPowerIsNotShapeChange(item: Option<Item>)
    requires item.None? || item.value.itemType != "power"
    ensures !IsShapeChangePower(item)
  {
  }

  /** The name test ignores case: lower-casing the name never changes the verdict. */
  lemma NameMatchIgnoresCase(it: Item)
    ensures IsShapeChangePower(Some(it)) == IsShapeChangePower(Some(it.(name := ToLower(it.name))))
  {
    ToLowerIdempotent(it.name);
  }
}
