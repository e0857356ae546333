/** The key half of the dispatcher (agent.js:191-236): the raw key, the
    lookup name, modifiers that are only pressed and released, and the
    fallback from a table lookup to typing a single character. */
module Keyboard {
  import opened Maybe
  import opened Js
  import opened Keys
  import opened Input

  /** `rawKey`: `String(payload.rawKey)` when that field is truthy, otherwise
      `String(payload.key || '')`; `None` when that conversion throws. */
  function RawKey(key: Value, rawKeyField: Value): (raw: Option<string>)
    ensures raw.None? <==> if Truthy(rawKeyField) then !Converts(rawKeyField) else !Converts(key)
    ensures Truthy(rawKeyField) ==> raw == ToString(rawKeyField)
    ensures !Truthy(rawKeyField) && Truthy(key) ==> raw == ToString(key)
    ensures !Truthy(rawKeyField) && !Truthy(key) ==> raw == Some("")
  {
    if Truthy(rawKeyField) then ToString(rawKeyField) else ToString(Or(key, Str("")))
  }

  /** The name looked up in the key table for a key payload, or `None` when
      reading the key fields throws (agent.js:192-193). */
  function MappedName(key: Value, rawKeyField: Value): (mapped: Option<string>)
    ensures mapped.None? <==> !Converts(key) || !Converts(rawKeyField)
  {
    match RawKey(key, rawKeyField)
    case None => None
    case Some(raw) => NormalizeKeyName(key, raw)
  }

  /** The key branch once `rawKey` and `mapped` are computed
      (agent.js:205-235). */
  function KeyBranch(action: Value, rawKey: string, mapped: string): (r: seq<Command>)
    ensures |r| <= 1
    ensures action != Str("down") && action != Str("up") ==> r == []
    ensures forall c | c in r :: c.PressKey? ==> action == Str("down") && Lookup(mapped) == Some(c.key)
    ensures forall c | c in r :: c.ReleaseKey? ==> action == Str("up") && Lookup(mapped) == Some(c.key)
    ensures forall c | c in r :: c.TypeText? ==>
      action == Str("down") && mapped !in Modifiers && Lookup(mapped) == None && c.text == rawKey && |rawKey| == 1
  {
    if mapped in Modifiers then
      match Lookup(mapped)
      case Some(k) =>
        if action == Str("down") then [PressKey(k)]
        else if action == Str("up") then [ReleaseKey(k)]
        else []
      case None => []
    else if action == Str("down") then
      match Lookup(mapped)
      case Some(k) => [PressKey(k)]
      case None => if |rawKey| == 1 then [TypeText(rawKey)] else []
    else if action == Str("up") then
      match Lookup(mapped)
      case Some(k) => [ReleaseKey(k)]
      case None => []
    else []
  }

  /** The commands for a key payload with the given `action`, `key` and
      `rawKey` fields. A key field that does not convert to a string throws
      before anything is issued, and the handler's catch swallows it. */
  function KeyCommands(action: Value, key: Value, rawKeyField: Value): (r: seq<Command>)
    ensures |r| <= 1
    ensures !Converts(key) || !Converts(rawKeyField) ==> r == []
    ensures action != Str("down") && action != Str("up") ==> r == []
    ensures forall c | c in r :: c.PressKey? ==>
      && action == Str("down") && MappedName(key, rawKeyField).Some?
      && Lookup(MappedName(key, rawKeyField).value) == Some(c.key)
    ensures forall c | c in r :: c.ReleaseKey? ==>
      && action == Str("up") && MappedName(key, rawKeyField).Some?
      && Lookup(MappedName(key, rawKeyField).value) == Some(c.key)
    ensures forall c | c in r :: c.TypeText? ==>
      && action == Str("down")
      && MappedName(key, rawKeyField).Some?
      && MappedName(key, rawKeyField).value !in Modifiers
      && Lookup(MappedName(key, rawKeyField).value) == None
      && RawKey(key, rawKeyField) == Some(c.text)
      && |c.text| == 1
  {
    match RawKey(key, rawKeyField)
    case None => []
    case Some(rawKey) =>
      match NormalizeKeyName(key, rawKey)
      case None => []
      case Some(mapped) => KeyBranch(action, rawKey, mapped)
  }

  /** A modifier is pressed on `down` and released on `up`, never typed. */
  lemma ModifierNeverTyped(action: Value, key: Value, rawKeyField: Value)
    requires MappedName(key, rawKeyField).Some? && MappedName(key, rawKeyField).value in Modifiers
    ensures forall c | c in KeyCommands(action, key, rawKeyField) :: !c.TypeText?
    ensures action == Str("down") ==>
      KeyCommands(action, key, rawKeyField) == [PressKey(Lookup(MappedName(key, rawKeyField).value).value)]
    ensures action == Str("up") ==>
      KeyCommands(action, key, rawKeyField) == [ReleaseKey(Lookup(MappedName(key, rawKeyField).value).value)]
  {
    ModifiersMapped(MappedName(key, rawKeyField).value);
  }

  /** On `down`, a key that is not a modifier is pressed when the table knows
      it; otherwise its raw key is typed exactly when it is one character. */
  lemma NonModifierDown(key: Value, rawKeyField: Value)
    requires MappedName(key, rawKeyField).Some? && MappedName(key, rawKeyField).value !in Modifiers
    ensures RawKey(key, rawKeyField).Some?
    ensures Lookup(MappedName(key, rawKeyField).value).Some? ==>
      KeyCommands(Str("down"), key, rawKeyField) == [PressKey(Lookup(MappedName(key, rawKeyField).value).value)]
    ensures Lookup(MappedName(key, rawKeyField).value).None? ==>
      (KeyCommands(Str("down"), key, rawKeyField) == [TypeText(RawKey(key, rawKeyField).value)]
       <==> |RawKey(key, rawKeyField).value| == 1)
    ensures Lookup(MappedName(key, rawKeyField).value).None? && |RawKey(key, rawKeyField).value| != 1 ==>
      KeyCommands(Str("down"), key, rawKeyField) == []
  {
  }

  /** On `up`, a key the table does not know produces nothing. */
  lemma UnmappedUpIsSilent(key: Value, rawKeyField: Value)
    requires MappedName(key, rawKeyField).Some? && Lookup(MappedName(key, rawKeyField).value).None?
    ensures KeyCommands(Str("up"), key, rawKeyField) == []
  {
  }

  /** `down` and `up` for the same key fields are paired: the key a `down`
      presses is the key the matching `up` releases, and a key that is typed
      on `down` issues nothing on `up`. */
  lemma PressReleasePaired(key: Value, rawKeyField: Value, k: Keys.Key)
    ensures KeyCommands(Str("down"), key, rawKeyField) == [PressKey(k)]
        <==> KeyCommands(Str("up"), key, rawKeyField) == [ReleaseKey(k)]
    ensures (exists c :: c in KeyCommands(Str("down"), key, rawKeyField) && c.TypeText?) ==>
        KeyCommands(Str("up"), key, rawKeyField) == []
  {
    var mapped := MappedName(key, rawKeyField);
    if mapped.Some? && mapped.value in Modifiers {
      ModifiersMapped(mapped.value);
    }
  }

  /** From a payload to a table key: a `down` whose `key` is one of `k`'s
      table names presses `k`, and the matching `up` releases it, whatever
      the raw key (as long as it converts). */
  lemma EveryKeyPressedByItsNames(k: Keys.Key, name: string, rawKeyField: Value)
    requires name in Names(k) && Converts(rawKeyField)
    ensures KeyCommands(Str("down"), Str(name), rawKeyField) == [PressKey(k)]
    ensures KeyCommands(Str("up"), Str(name), rawKeyField) == [ReleaseKey(k)]
  {
    TableNamesAreNormal(k, name);
    LookupNames(k);
    var raw := RawKey(Str(name), rawKeyField).value;
    LowerNameIsLookupName(name, raw);
  }

  /** A `down` whose `key` is `left`, `right`, `up` or `down`, in any case,
      presses the arrow key of that name, and the matching `up` releases it. */
  lemma ShortArrowNamesPressArrows(name: string, rawKeyField: Value)
    requires ToLower(name) in ArrowShortNames && Converts(rawKeyField)
    ensures var arrow := Lookup("arrow" + ToLower(name));
      && arrow.Some? && arrow.value in {LeftArrow, RightArrow, UpArrow, DownArrow}
      && KeyCommands(Str("down"), Str(name), rawKeyField) == [PressKey(arrow.value)]
      && KeyCommands(Str("up"), Str(name), rawKeyField) == [ReleaseKey(arrow.value)]
  {
    var raw := RawKey(Str(name), rawKeyField).value;
    ShortArrowNameIsRewritten(name, raw);
    ArrowShortNamesResolve();
    var low := ToLower(name);
    assert ArrowAlias(low) == "arrow" + low;
  }

  // ------------------------------------------------------------ as written

  /** Lower-case names under which the plain object the source uses as its
      key table yields an inherited `Object.prototype` member. */
  const InheritedNames: set<string> := {"constructor", "__proto__"}

  /** What reading `NUT_KEY_MAP[name]` yields: an own entry of the table, or
      an inherited member (a truthy non-key). */
  datatype TableValue = KeyEntry(key: Keys.Key) | InheritedMember(name: string)

  /** The library calls the key branch makes, with the argument as read from
      the table. */
  datatype KeyCall = PressKeyCall(arg: TableValue) | ReleaseKeyCall(arg: TableValue) | TypeCall(text: string)

  /** `NUT_KEY_MAP[name]` as the source reads it, on a plain object whose
      prototype is `Object.prototype`. */
  function LookupAsWritten(name: string): (r: Option<TableValue>)
    requires NoCapitals(name)
    ensures r.Some? && r.value.InheritedMember? <==> Lookup(name).None? && name in InheritedNames
  {
    match Lookup(name)
    case Some(k) => Some(KeyEntry(k))
    case None => if name in InheritedNames then Some(InheritedMember(name)) else None
  }

  /** The key branch as written, once `rawKey` and `mapped` are computed:
      same as `KeyBranch` except that the non-modifier lookup also finds
      inherited members. */
  function KeyBranchAsWritten(action: Value, rawKey: string, mapped: string): seq<KeyCall>
    requires NoCapitals(mapped)
  {
    if mapped in Modifiers then
      match Lookup(mapped)
      case Some(k) =>
        if action == Str("down") then [PressKeyCall(KeyEntry(k))]
        else if action == Str("up") then [ReleaseKeyCall(KeyEntry(k))]
        else []
      case None => []
    else if action == Str("down") then
      match LookupAsWritten(mapped)
      case Some(v) => [PressKeyCall(v)]
      case None => if |rawKey| == 1 then [TypeCall(rawKey)] else []
    else if action == Str("up") then
      match LookupAsWritten(mapped)
      case Some(v) => [ReleaseKeyCall(v)]
      case None => []
    else []
  }

  /** The key half of the handler as written. */
  function KeyCallsAsWritten(action: Value, key: Value, rawKeyField: Value): seq<KeyCall> {
    match RawKey(key, rawKeyField)
    case None => []
    case Some(rawKey) =>
      match NormalizeKeyName(key, rawKey)
      case None => []
      case Some(mapped) => KeyBranchAsWritten(action, rawKey, mapped)
  }

  /** The calls a list of commands stands for. */
  function AsCalls(cmds: seq<Command>): seq<KeyCall> {
    if cmds == [] then []
    else
      var rest := AsCalls(cmds[1..]);
      match cmds[0]
      case PressKey(k) => [PressKeyCall(KeyEntry(k))] + rest
      case ReleaseKey(k) => [ReleaseKeyCall(KeyEntry(k))] + rest
      case TypeText(t) => [TypeCall(t)] + rest
      case _ => rest
  }

  /** Away from the two inherited names the source's lookup and the own-entry
      lookup agree on every key payload. */
  lemma AsWrittenAgreesAwayFromInherited(action: Value, key: Value, rawKeyField: Value)
    requires MappedName(key, rawKeyField).None? || MappedName(key, rawKeyField).value !in InheritedNames
    ensures KeyCallsAsWritten(action, key, rawKeyField) == AsCalls(KeyCommands(action, key, rawKeyField))
  {
  }

  /** `constructor` is no key name. */
  lemma ConstructorIsNoKeyName()
    ensures "constructor" !in Modifiers && Lookup("constructor") == None
  {
    assert NamedLookup("constructor") == None;
  }

  /** A `constructor` key with raw key `x` is looked up unchanged. */
  lemma ConstructorLookedUpUnchanged()
    ensures RawKey(Str("constructor"), Str("x")) == Some("x")
    ensures MappedName(Str("constructor"), Str("x")) == Some("constructor")
  {
    ConstructorIsLowerCase();
    assert "constructor" !in ArrowShortNames;
  }

  lemma ConstructorIsLowerCase()
    ensures ToLower("constructor") == "constructor"
  {
    var name := "constructor";
    assert forall i :: 0 <= i < |name| ==> LowerChar(name[i]) == name[i];
  }

  /** A key named `constructor` with raw key `x`: the source passes
      `Object` to `pressKey` and types nothing; the own-entry lookup finds no
      key and types `x`. */
  lemma InheritedNameHijacksKeyDown()
    ensures KeyCallsAsWritten(Str("down"), Str("constructor"), Str("x"))
      == [PressKeyCall(InheritedMember("constructor"))]
    ensures KeyCommands(Str("down"), Str("constructor"), Str("x")) == [TypeText("x")]
  {
    ConstructorIsNoKeyName();
    ConstructorLookedUpUnchanged();
  }

}
