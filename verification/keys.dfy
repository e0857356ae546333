/** The agent's table from lower-case key names to the input library's key
    enumeration (agent.js:35-53), the modifier names, and the normalisation
    of a key name before it is looked up (agent.js:192-203). Every enumeration
    member the table probes for is taken to exist, so the table is fixed. */
module Keys {
  import opened Maybe
  import opened Js

  type UpperLetter = c: char | 'A' <= c <= 'Z' witness 'A'
  type DigitNumber = d: int | 0 <= d <= 9
  type FunctionNumber = n: int | 1 <= n <= 12 witness 1

  /** The members of the input library's `Key` enumeration the table uses:
      `Key.A`..`Key.Z`, `Key.Digit0`..`Key.Digit9`, the named keys, and
      `Key.F1`..`Key.F12`. */
  datatype Key =
    | Letter(upper: UpperLetter)
    | Digit(d: DigitNumber)
    | LeftShift | LeftControl | LeftAlt | LeftMeta | CapsLock
    | Enter | Backspace | Tab | Escape | Space | Delete
    | Home | End | PageUp | PageDown | Insert
    | LeftArrow | RightArrow | UpArrow | DownArrow
    | PrintScreen | Pause | ScrollLock | NumLock
    | F(n: FunctionNumber)

  /** The named (non-letter, non-digit) entries of the table
      (agent.js:47-52): modifiers, editing keys, navigation keys, arrows,
      lock keys and the function keys, with `ctrl`, `command` and `return`
      as second names of `control`, `meta` and `enter`. */
  function NamedLookup(name: string): Option<Key> {
    match name
    case "shift" => Some(LeftShift)
    case "control" => Some(LeftControl)
    case "ctrl" => Some(LeftControl)
    case "alt" => Some(LeftAlt)
    case "meta" => Some(LeftMeta)
    case "command" => Some(LeftMeta)
    case "capslock" => Some(CapsLock)
    case "enter" => Some(Enter)
    case "return" => Some(Enter)
    case "backspace" => Some(Backspace)
    case "tab" => Some(Tab)
    case "escape" => Some(Escape)
    case "space" => Some(Space)
    case "delete" => Some(Delete)
    case "home" => Some(Home)
    case "end" => Some(End)
    case "pageup" => Some(PageUp)
    case "pagedown" => Some(PageDown)
    case "insert" => Some(Insert)
    case "arrowleft" => Some(LeftArrow)
    case "arrowright" => Some(RightArrow)
    case "arrowup" => Some(UpArrow)
    case "arrowdown" => Some(DownArrow)
    case "printscreen" => Some(PrintScreen)
    case "pause" => Some(Pause)
    case "scrolllock" => Some(ScrollLock)
    case "numlock" => Some(NumLock)
    case "f1" => Some(F(1))
    case "f2" => Some(F(2))
    case "f3" => Some(F(3))
    case "f4" => Some(F(4))
    case "f5" => Some(F(5))
    case "f6" => Some(F(6))
    case "f7" => Some(F(7))
    case "f8" => Some(F(8))
    case "f9" => Some(F(9))
    case "f10" => Some(F(10))
    case "f11" => Some(F(11))
    case "f12" => Some(F(12))
    case _ => None
  }

  /** The key names that are pressed and released but never typed. */
  const Modifiers: set<string> := {"shift", "control", "ctrl", "alt", "meta", "command", "capslock"}

  /** Browser-style arrow names that are rewritten to `arrow<name>`. */
  const ArrowShortNames: set<string> := {"left", "right", "up", "down"}

  /** `NUT_KEY_MAP[name]` read as an own property of the table. */
  function Lookup(name: string): Option<Key> {
    if |name| == 1 && 'a' <= name[0] <= 'z' then Some(Letter((name[0] as int - 32) as char))
    else if |name| == 1 && IsDigit(name[0]) then Some(Digit(DigitValue(name[0])))
    else NamedLookup(name)
  }

  /** The canonical table name of each key. */
  function KeyName(k: Key): string {
    match k
    case Letter(c) => [(c as int + 32) as char]
    case Digit(d) => [DigitChar(d)]
    case LeftShift => "shift"
    case LeftControl => "control"
    case LeftAlt => "alt"
    case LeftMeta => "meta"
    case CapsLock => "capslock"
    case Enter => "enter"
    case Backspace => "backspace"
    case Tab => "tab"
    case Escape => "escape"
    case Space => "space"
    case Delete => "delete"
    case Home => "home"
    case End => "end"
    case PageUp => "pageup"
    case PageDown => "pagedown"
    case Insert => "insert"
    case LeftArrow => "arrowleft"
    case RightArrow => "arrowright"
    case UpArrow => "arrowup"
    case DownArrow => "arrowdown"
    case PrintScreen => "printscreen"
    case Pause => "pause"
    case ScrollLock => "scrolllock"
    case NumLock => "numlock"
    case F(n) => if n < 10 then ['f', DigitChar(n)] else ['f', '1', DigitChar(n - 10)]
  }

  /** The second table name of the three keys that have one. */
  function AliasName(k: Key): Option<string> {
    match k
    case LeftControl => Some("ctrl")
    case LeftMeta => Some("command")
    case Enter => Some("return")
    case _ => None
  }

  /** Every table name that resolves to `k`. */
  function Names(k: Key): set<string> {
    match AliasName(k)
    case Some(a) => {KeyName(k), a}
    case None => {KeyName(k)}
  }

  /** A non-empty name with no capitals that is no short arrow name:
      normalisation leaves it as it is. */
  predicate NormalName(name: string) {
    name != "" && NoCapitals(name) && name !in ArrowShortNames
  }

  /** The key name the dispatcher looks up: `payload.key`, or the raw key when
      `payload.key` is falsy, lower-cased, with the four short arrow names
      rewritten; `None` when converting `payload.key` to a string throws. */
  function NormalizeKeyName(key: Value, rawKey: string): (mapped: Option<string>)
    ensures mapped.None? <==> !Converts(key)
    ensures mapped.Some? ==> mapped.value !in ArrowShortNames
    ensures mapped.Some? ==> NoCapitals(mapped.value)
    ensures key.Str? && NormalName(key.s) ==> mapped == Some(key.s)
    ensures key.Str? && ToLower(key.s) in ArrowShortNames ==> mapped == Some("arrow" + ToLower(key.s))
  {
    var name := if Truthy(key) then ToString(key) else Some(rawKey);
    match name
    case None => None
    case Some(n) =>
      if NoCapitals(n) then ToLowerOfLower(n); Some(ArrowAlias(ToLower(n)))
      else Some(ArrowAlias(ToLower(n)))
  }

  /** Where the name comes from: a truthy `payload.key` decides it whatever
      the raw key is; otherwise a non-empty raw key is normalised exactly as a
      `payload.key` holding it would be, and an empty one gives the empty
      name. */
  lemma KeyNameSource(key: Value, rawKey: string, otherRawKey: string)
    ensures Truthy(key) ==> NormalizeKeyName(key, rawKey) == NormalizeKeyName(key, otherRawKey)
    ensures !Truthy(key) && rawKey != "" ==>
      NormalizeKeyName(key, rawKey) == NormalizeKeyName(Str(rawKey), otherRawKey)
    ensures !Truthy(key) && rawKey == "" ==> NormalizeKeyName(key, rawKey) == Some("")
  {
  }

  /** A non-empty lower-case name other than the four short arrow names is
      its own lookup name. */
  lemma LowerNameIsLookupName(name: string, rawKey: string)
    requires NormalName(name)
    ensures NormalizeKeyName(Str(name), rawKey) == Some(name)
  {
    ToLowerOfLower(name);
  }

  /** A short arrow name, in any case, is looked up under its `arrow` name. */
  lemma ShortArrowNameIsRewritten(name: string, rawKey: string)
    requires ToLower(name) in ArrowShortNames
    ensures NormalizeKeyName(Str(name), rawKey) == Some("arrow" + ToLower(name))
  {
  }

  /** A key field that is not a string is looked up under its string form. */
  lemma KeyFieldReadAsString(key: Value, rawKey: string)
    requires Truthy(key) && Converts(key)
    ensures NormalizeKeyName(key, rawKey) == NormalizeKeyName(Str(ToString(key).value), rawKey)
  {
  }

  /** Every table name is lower-case, non-empty and no short arrow name. */
  lemma TableNamesAreNormal(k: Key, name: string)
    requires name in Names(k)
    ensures NormalName(name)
  {
    match k
    case Letter(_) => assert name == KeyName(k) && |name| == 1;
    case Digit(_) => assert name == KeyName(k) && |name| == 1;
    case F(n) => assert name == KeyName(k) && name[0] == 'f' && 2 <= |name| <= 3;
    case LeftShift => ModifierNamesAreNormal();
    case LeftControl => ModifierNamesAreNormal();
    case LeftAlt => ModifierNamesAreNormal();
    case LeftMeta => ModifierNamesAreNormal();
    case CapsLock => ModifierNamesAreNormal();
    case Enter => EditingNamesAreNormal();
    case Backspace => EditingNamesAreNormal();
    case Tab => EditingNamesAreNormal();
    case Escape => EditingNamesAreNormal();
    case Space => EditingNamesAreNormal();
    case Delete => EditingNamesAreNormal();
    case Home => NavigationNamesAreNormal();
    case End => NavigationNamesAreNormal();
    case PageUp => NavigationNamesAreNormal();
    case PageDown => NavigationNamesAreNormal();
    case Insert => NavigationNamesAreNormal();
    case LeftArrow => ArrowNamesAreNormal();
    case RightArrow => ArrowNamesAreNormal();
    case UpArrow => ArrowNamesAreNormal();
    case DownArrow => ArrowNamesAreNormal();
    case PrintScreen => LockNamesAreNormal();
    case Pause => LockNamesAreNormal();
    case ScrollLock => LockNamesAreNormal();
    case NumLock => LockNamesAreNormal();
  }

  // The groups below only keep each proof obligation small.

  lemma ModifierNamesAreNormal()
    ensures NormalName("shift")
    ensures NormalName("control")
    ensures NormalName("ctrl")
    ensures NormalName("alt")
    ensures NormalName("meta")
    ensures NormalName("command")
    ensures NormalName("capslock")
  {
  }

  lemma EditingNamesAreNormal()
    ensures NormalName("enter")
    ensures NormalName("return")
    ensures NormalName("backspace")
    ensures NormalName("tab")
    ensures NormalName("escape")
    ensures NormalName("space")
    ensures NormalName("delete")
  {
  }

  lemma NavigationNamesAreNormal()
    ensures NormalName("home")
    ensures NormalName("end")
    ensures NormalName("pageup")
    ensures NormalName("pagedown")
    ensures NormalName("insert")
  {
  }

  lemma ArrowNamesAreNormal()
    ensures NormalName("arrowleft")
    ensures NormalName("arrowright")
    ensures NormalName("arrowup")
    ensures NormalName("arrowdown")
  {
  }

  lemma LockNamesAreNormal()
    ensures NormalName("printscreen")
    ensures NormalName("pause")
    ensures NormalName("scrolllock")
    ensures NormalName("numlock")
  {
  }

  /** Normalising is idempotent: a non-empty normalised name, sent back as
      `payload.key`, normalises to itself. */
  lemma NormalizeKeyNameIdempotent(key: Value, rawKey: string, otherRawKey: string)
    requires NormalizeKeyName(key, rawKey).Some? && NormalizeKeyName(key, rawKey).value != ""
    ensures NormalizeKeyName(Str(NormalizeKeyName(key, rawKey).value), otherRawKey) == NormalizeKeyName(key, rawKey)
  {
    ToLowerOfLower(NormalizeKeyName(key, rawKey).value);
  }

  /** Key names are case-insensitive: a name and its lower-case form
      normalise alike. */
  lemma NormalizeKeyNameIgnoresCase(name: string, rawKey: string)
    requires name != ""
    ensures NormalizeKeyName(Str(name), rawKey) == NormalizeKeyName(Str(ToLower(name)), rawKey)
  {
    ToLowerIdempotent(name);
  }

  /** Rewrites `left`, `right`, `up` and `down` to their `arrow` names. */
  function ArrowAlias(name: string): string {
    if name in ArrowShortNames then "arrow" + name else name
  }

  /** Every key is found under its canonical name and under its alias. */
  lemma LookupNames(k: Key)
    ensures forall name :: name in Names(k) ==> Lookup(name) == Some(k)
  {
    if k.F? {
      FunctionKeysResolve(k.n);
    } else {
      OtherKeysResolve(k);
    }
  }

  lemma OtherKeysResolve(k: Key)
    requires !k.F?
    ensures Lookup(KeyName(k)) == Some(k)
    ensures AliasName(k).Some? ==> Lookup(AliasName(k).value) == Some(k)
  {
  }

  // The case split here and the bands of name lengths below carry no meaning
  // of their own: they only keep each proof obligation small for the solver.

  lemma FunctionKeysResolve(n: FunctionNumber)
    ensures Lookup(KeyName(F(n))) == Some(F(n))
  {
    if n == 1 {} else if n == 2 {} else if n == 3 {} else if n == 4 {}
    else if n == 5 {} else if n == 6 {} else if n == 7 {} else if n == 8 {}
    else if n == 9 {} else if n == 10 {} else if n == 11 {} else {}
  }

  /** A name resolves to `k` only if it is one of `k`'s names: the table holds
      no name other than the canonical names and the three aliases. */
  lemma LookupOnlyNames(name: string, k: Key)
    requires Lookup(name) == Some(k)
    ensures name in Names(k)
  {
    if |name| == 1 {
      assert name == [name[0]];
    } else if |name| <= 4 {
      NamedEntriesUpTo4(name, k);
    } else if |name| <= 6 {
      NamedEntries5To6(name, k);
    } else if |name| <= 8 {
      NamedEntries7To8(name, k);
    } else {
      NamedEntriesFrom9(name, k);
    }
  }

  lemma NamedEntriesUpTo4(name: string, k: Key)
    requires |name| <= 4 && NamedLookup(name) == Some(k)
    ensures name in Names(k)
  {
  }

  lemma NamedEntries5To6(name: string, k: Key)
    requires 5 <= |name| <= 6 && NamedLookup(name) == Some(k)
    ensures name in Names(k)
  {
  }

  lemma NamedEntries7To8(name: string, k: Key)
    requires 7 <= |name| <= 8 && NamedLookup(name) == Some(k)
    ensures name in Names(k)
  {
  }

  lemma NamedEntriesFrom9(name: string, k: Key)
    requires 9 <= |name| && NamedLookup(name) == Some(k)
    ensures name in Names(k)
  {
  }

  /** Both directions together: the names that resolve to `k` are exactly
      `Names(k)`; in particular `ctrl`/`control`, `meta`/`command` and
      `enter`/`return` resolve to the same key. */
  lemma LookupExactlyNames(name: string, k: Key)
    ensures Lookup(name) == Some(k) <==> name in Names(k)
  {
    if Lookup(name) == Some(k) {
      LookupOnlyNames(name, k);
    }
    if name in Names(k) {
      LookupNames(k);
    }
  }

  /** Every modifier name is in the table, and resolves to one of the five
      modifier keys. */
  lemma ModifiersMapped(name: string)
    requires name in Modifiers
    ensures Lookup(name).Some?
    ensures Lookup(name).value in {LeftShift, LeftControl, LeftAlt, LeftMeta, CapsLock}
  {
  }

  /** Normalising an already normalised name changes nothing. */
  lemma ArrowAliasIdempotent(name: string)
    ensures ArrowAlias(ArrowAlias(name)) == ArrowAlias(name)
  {
    if name in ArrowShortNames {
      assert |"arrow" + name| > 5;
    }
  }

  /** The short arrow names resolve to the four arrow keys. */
  lemma ArrowShortNamesResolve()
    ensures Lookup(ArrowAlias("left")) == Some(LeftArrow)
    ensures Lookup(ArrowAlias("right")) == Some(RightArrow)
    ensures Lookup(ArrowAlias("up")) == Some(UpArrow)
    ensures Lookup(ArrowAlias("down")) == Some(DownArrow)
  {
    assert ArrowAlias("left") == "arrowleft";
    assert ArrowAlias("right") == "arrowright";
    assert ArrowAlias("up") == "arrowup";
    assert ArrowAlias("down") == "arrowdown";
  }

}
