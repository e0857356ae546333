# Viewer-control dispatcher of the amethyst host agent

The host agent (`agent.js`) is the process on the controlled machine. It
receives `control-from-viewer` events relayed from viewers and turns each
control payload into input-library calls: cursor moves, button clicks,
presses and releases, wheel scrolls, key presses and releases, and typed text.
It also echoes the cursor position back to the server (`agent-mouse`). This
project models that dispatcher as a pure function:

    Agent.Dispatch(env, payload, now, lastMoveAt) -> Outcome(commands, lastMoveAt')

The only state it carries is the timestamp of the last applied cursor move.
That timestamp is the throttle that keeps the moves the handler applies at
least `AGENT_MOUSE_MIN_MS` apart.

Modules, leaf first:

- `Maybe` (`maybe.dfy`): an `Option` type.
- `Js` (`js.dfy`): the JavaScript value semantics the handler relies on. A
  payload field is `Undefined`, `Null`, a boolean, a finite number (an exact
  real), a string, or an object. An object converts to a primitive unless it
  has its own `toString`, in which case the conversion throws. The
  conversions return `None` for that case. The module covers truthiness, `||`,
  `Number(v)`, `Math.trunc`, `String(v)` and ASCII `toLowerCase`.
- `Keys` (`keys.dfy`): the key enumeration and the key-name table
  (`NUT_KEY_MAP`). It also holds the modifier names and the rewrite of
  `left`/`right`/`up`/`down` to the arrow names.
- `Input` (`input.dfy`): the abstract commands (`MoveTo`, `EchoCursor`,
  `Click`, `Press`, `Release`, `ScrollUp/Down/Left/Right`, `PressKey`,
  `ReleaseKey`, `TypeText`) and the `Outcome` record.
- `Mouse` (`mouse.dfy`): button normalisation, the throttle interval, the
  move throttle, clamping, scroll deltas and the choice of scroll axis.
- `Keyboard` (`keyboard.dfy`): the raw key, the lookup name, and the rules for
  modifiers and for ordinary keys. It also has the key branch as written (see
  Findings).
- `Agent` (`agent.dfy`): the payload record, `Dispatch`, and properties over
  one event and over a run of events.

Every probed input-library enumeration member is taken to exist, so the key
table is fixed. That table is letters `a`–`z`, digits `0`–`9`, and the named
keys with `ctrl`, `command` and `return` as second names for `control`,
`meta` and `enter`. Likewise every library capability is taken to be present.

## Model

| member | source | states |
|---|---|---|
| Keys.LookupExactlyNames | agent.js:35-53 | A name resolves to key `k` exactly when it is `k`'s canonical table name or its alias. So `ctrl`/`control`, `meta`/`command` and `enter`/`return` resolve to the same key, and the table has no other entries. |
| Keys.ModifiersMapped | agent.js:47 | Each of the seven modifier names is in the table and resolves to one of shift, control, alt, meta or caps lock. |
| Keys.NormalizeKeyName | agent.js:193-203 | Normalising fails exactly when `String(payload.key)` throws. A normalised lookup name has no capital letters and is never one of the four short arrow names. A non-empty lower-case key other than a short arrow name is its own lookup name. A key that lower-cases to a short arrow name gets the `arrow` prefix. |
| Keys.KeyNameSource | agent.js:193 | A truthy `payload.key` decides the name whatever the raw key is. Otherwise a non-empty raw key is normalised exactly as a `payload.key` holding it would be, and an empty one gives the empty name. |
| Keys.NormalizeKeyNameIdempotent | agent.js:193-203 | A non-empty normalised name, sent back as `payload.key`, normalises to itself. |
| Keys.NormalizeKeyNameIgnoresCase | agent.js:193 | A key name and its lower-case form normalise to the same lookup name. |
| Keys.LowerNameIsLookupName | agent.js:193-203 | A non-empty lower-case key other than `left`/`right`/`up`/`down` is looked up under exactly its own name. |
| Keys.ShortArrowNameIsRewritten | agent.js:193-202 | A key that lower-cases to `left`, `right`, `up` or `down` is looked up under that name with the `arrow` prefix. |
| Keys.TableNamesAreNormal | agent.js:37-52 | Every table name is non-empty, lower-case and not one of the short arrow names, so a key field holding it is looked up under exactly that name. |
| Keys.KeyFieldReadAsString | agent.js:193 | A truthy, convertible key that is not a string is looked up as its `String` form would be. |
| Keyboard.EveryKeyPressedByItsNames | agent.js:193-234 | A `down` whose `key` is one of `k`'s table names presses `k`, and the matching `up` releases `k`, whatever the convertible raw key. |
| Keyboard.ShortArrowNamesPressArrows | agent.js:199-234 | A `down` whose `key` lower-cases to `left`/`right`/`up`/`down` presses that arrow key, and the matching `up` releases it. |
| Keys.ArrowShortNamesResolve | agent.js:199-203 | `left`, `right`, `up` and `down` look up the left, right, up and down arrow keys. |
| Keys.ArrowAliasIdempotent | agent.js:200-202 | Rewriting an already rewritten name changes nothing. |
| Mouse.PayloadButton | agent.js:55-60 | A payload button maps to the right or middle button exactly when it is the string `'right'` or `'middle'`, and to the left button otherwise. |
| Mouse.ButtonNamesRoundTrip | agent.js:175 | Every button is reachable by its own name, and re-normalising a normalised name is the identity. |
| Mouse.MinMoveMs | agent.js:107 | The throttle interval is never 0. It is 6 ms when unset, and also when set to `"0"` or `""`. |
| Mouse.MinMoveMsConfigured | agent.js:107 | A non-zero integer setting is used as given. |
| Mouse.Clamp01 | agent.js:83-84 | A normalised coordinate is clamped into [0, 1]. In-range values are unchanged, and out-of-range values go to the nearer bound. |
| Mouse.Move | agent.js:163-173 | A due move issues `MoveTo` with the clamped point first. If the socket is connected, it then echoes the unclamped point, and the timestamp becomes `now`. A move that is not due issues only the echo and keeps the timestamp. |
| Mouse.ScrollDelta | agent.js:184-185 | Reading a delta throws exactly for an object with its own `toString`. Otherwise a numeric delta is truncated toward zero, and a string delta is its parsed value truncated, or 0 if it does not parse. Missing, null, other object and `false` deltas read as 0, and `true` reads as 1. |
| Mouse.Scroll | agent.js:128-143 | There is at most one wheel call, and none exactly when both deltas are 0. The call is vertical when the vertical delta is at least as large in magnitude, and horizontal otherwise. The direction follows the sign and the amount is the magnitude. |
| Mouse.ScrollKeepsDominantAxis | agent.js:135-141 | The net wheel movement equals the delta on the dominant axis; the other delta is dropped. |
| Js.Trunc | agent.js:131-132 | Truncation rounds toward zero: the result has the sign of the input and is within 1 of it. |
| Keyboard.RawKey | agent.js:192 | The raw key is `String(payload.rawKey)` when that is truthy. Otherwise it is `String(payload.key)`, or empty when that is falsy. Reading it fails exactly when the field converted is an object that cannot convert. |
| Keyboard.KeyCommands | agent.js:192-235 | A key payload gives at most one command. It gives nothing when `key` or `rawKey` cannot be converted to a string, and nothing unless the action is `down` or `up`. A pressed key is the table entry for the lookup name, on `down` only. A released key is that entry, on `up` only. Text is typed only on `down`, only for a non-modifier absent from the table, and only as the one-character raw key. |
| Keyboard.ModifierNeverTyped | agent.js:205-217 | A modifier gives `PressKey` on `down`, `ReleaseKey` on `up`, and is never typed. |
| Keyboard.NonModifierDown | agent.js:219-229 | On `down`, a non-modifier in the table is pressed. A non-modifier absent from the table has its raw key typed exactly when that is one character, and gives nothing otherwise. |
| Keyboard.UnmappedUpIsSilent | agent.js:230-234 | On `up`, a name absent from the table gives nothing. |
| Keyboard.PressReleasePaired | agent.js:205-234 | `down` presses key `k` exactly when `up` with the same key fields releases `k`. A key typed on `down` gives nothing on `up`. |
| Keyboard.LookupAsWritten | agent.js:219 | Among lower-case names, reading the table as a plain object yields an inherited member exactly for `constructor` and `__proto__`, the two names that have no own entry. |
| Keyboard.AsWrittenAgreesAwayFromInherited | agent.js:219-234 | Except for those two names, the key branch as written makes the same calls as the corrected model. |
| Keyboard.InheritedNameHijacksKeyDown | agent.js:219-228 | Key `constructor` with raw key `x`: as written, `Object` is passed to `pressKey`; the corrected model types `x`. |
| Agent.Dispatch | agent.js:158-240 | One event gives at most two commands. It moves the cursor exactly when it is a numeric move outside the throttle window, and the `MoveTo` comes first. The timestamp becomes `now` exactly then and is otherwise kept. |
| Agent.ButtonActions | agent.js:174-182 | A mouse `click`/`down`/`up` gives exactly one `Click`/`Press`/`Release`, matching the action. The button is the one `mapButton` gives for the payload's button: right or middle exactly when the payload says `'right'` or `'middle'`, and left otherwise. The throttle is untouched. |
| Agent.AppliedMove | agent.js:163-173 | A numeric move with `now - lastMoveAt >= AGENT_MOUSE_MIN_MS` moves the cursor to a point in [0, 1]² and sets the timestamp to `now`. The echo follows exactly when the socket is connected. |
| Agent.ThrottledMove | agent.js:165-170 | A numeric move inside the throttle window gives only the cursor echo and leaves the timestamp unchanged. |
| Agent.IgnoredInputsAreNoOps | agent.js:160-236 | Each of these gives no command and leaves the timestamp unchanged: a missing payload, a move with a non-numeric coordinate, an unknown mouse action, an unknown payload type, and a key action other than `down`/`up`. |
| Agent.ConversionErrorsAreCaught | agent.js:159-239 | When reading a scroll delta (agent.js:184-185) or the `key`/`rawKey` fields (agent.js:192-193) throws, the handler's catch leaves nothing issued and the timestamp unchanged. |
| Agent.ScrollActions | agent.js:183-186 | A scroll gives at most one wheel call, and none if either delta cannot be converted. With both deltas converted, it gives none exactly when both truncated deltas are 0 and its net movement is the dominant-axis delta. The throttle is untouched. |
| Agent.KeyActions | agent.js:191-236 | A key payload is handled by the key rules alone, leaves the throttle untouched, and a modifier is never typed. |
| Agent.MovesSpaced | agent.js:162-173 | Over any run of events, the times at which the handler applies a move are at least `AGENT_MOUSE_MIN_MS` apart. The first is at least that far from the initial timestamp. |
| Agent.RunEndsAtLastMove | agent.js:166-171 | After a run, the timestamp is the time of the last applied move, or the initial one if no move was applied. |
| Agent.RunMovesAtMoveTimes | agent.js:171-173 | A run issues exactly one `MoveTo` per applied move. |
| Agent.DispatchMovesAtMostOnce | agent.js:171-173 | A single event moves the cursor at most once. |

## Left out

- Transport and process plumbing (agent.js:4-14, 145-156, 242-244). This covers reading `SERVER_URL`, `ROOM_CODE` and `AGENT_SECRET`, `process.exit`, the socket.io connection, registration and the disconnect handler. It is I/O and process lifecycle. The socket's connected state enters only as `Env.connected`, and over a run as each event's own `connected`.
- Library loading and capability probing (agent.js:19-33, 86-91, 109-127). Every capability is taken to be present. The choice between `leftClick`/`rightClick`/`click`/`pressButton`+`releaseButton` becomes one `Click` command, and `setPosition`/`move` becomes `MoveTo`. These are calls into a foreign library.
- Failures inside the library are not modelled: its exceptions, rejected promises and the `.catch(()=>{})` swallowing. One example is a failing cursor move that skips the echo. Nor is the timing of the fire-and-forget async calls: commands are listed in the order the events are handled. A cursor move first awaits the screen-size cache (agent.js:80), which may query the screen (agent.js:68-70). So two moves applied `AGENT_MOUSE_MIN_MS` apart can reach `setPosition` (agent.js:88) closer together or in reverse order, and a later throttled echo (agent.js:168) can precede an earlier move. The spacing proved is between the moments the handler applies moves, not between the library's cursor updates.
- Pixel mapping (agent.js:83-84, the rounding of `clamp * (w - 1)`) and the screen-size cache (agent.js:62-75). The cache depends on an asynchronous screen query and a clock. `MoveTo` carries the clamped normalised point instead of pixels.
- The key enumeration's numeric values. The source tests the table value for truthiness (agent.js:208, 212, 221, 231). An enumeration member whose value is 0 would fail that test and be treated as unmapped. The model treats every table entry as mapped. It also assumes the `Digit0`..`Digit9` members exist.
- The relay server is not part of this model. That is the hub holding rooms, frame fan-out, rate and backlog gates, and sequence numbers.
- `fromViewer` is received by the handler but never used, so it is not modelled.
- The event argument is taken to be an object or absent. A `null` argument throws in the parameter destructuring (agent.js:158), outside the handler's catch. That leaves an unhandled promise rejection, which by default ends the agent process.
- Js.Value: numbers are finite exact reals, so binary floating-point rounding is not modelled. `JSON.parse` turns an out-of-range literal such as `1e400` into `Infinity`, and that is not modelled either. With it the source would call `scrollDown(Infinity)` (agent.js:136), move to a clamped 1 and echo `Infinity` (agent.js:96). Arrays are not modelled, where `String([5])` is `"5"` and an element that cannot convert throws. Binary attachments, which socket.io delivers as `Buffer` objects that `String` decodes as text, are not modelled either. `Obj` stands for plain JSON objects: one with its own `toString` throws on conversion, and any other converts to `"[object Object]"`.
- Js.StringToNumber: accepts only `""` and optionally signed runs of decimal digits. JavaScript also accepts surrounding whitespace, fractions, exponents, hexadecimal and `Infinity`. Such a string scroll delta reads as 0 here instead of its value. Such a string `AGENT_MOUSE_MIN_MS` yields 6 here instead of its value.
- Js.NumberToString: writes non-integers as up to twenty fraction digits and large integers in full. JavaScript uses the shortest round-trip form, with exponent notation below 1e-6 and from 1e21 up. Either way such a string is longer than one character and is no key name, so dispatch is the same.
- Js.ToLower: lower-cases ASCII letters only. JavaScript lower-cases all of Unicode; for example the Kelvin sign becomes `k` and would then look up the `K` key.
- Keyboard.KeyCommands: the one-character test counts Unicode scalar values. JavaScript counts UTF-16 code units, so the source never types a character outside the Basic Multilingual Plane, but the model does.
- Mouse.MinMoveMs: a fractional setting such as `"2.5"` reads as NaN here and gives 6 ms; JavaScript would use 2.5 ms.

## Findings

| source | as written | input that shows it | evidently intended | confidence | as-written member | corrected member |
|---|---|---|---|---|---|---|
| agent.js:35, agent.js:219-228 | The key table is a plain object, so `NUT_KEY_MAP[mapped]` also finds the inherited members `constructor` and `__proto__`. Both are truthy and are passed to `pressKey`/`releaseKey`, and the typing fallback is skipped. | key payload `{type:'key', action:'down', key:'constructor', rawKey:'x'}`: `pressKey(Object)` is called and `x` is not typed | Only the table's own entries count as known keys. An unknown name with a one-character raw key is typed. | medium; not executed | Keyboard.KeyCallsAsWritten, shown by Keyboard.InheritedNameHijacksKeyDown | Keyboard.KeyCommands (used by Agent.Dispatch), with Keyboard.NonModifierDown and Keyboard.AsWrittenAgreesAwayFromInherited |
