/** The mouse half of the dispatcher: button-name normalisation
    (agent.js:55-60, 175-182), the move throttle (agent.js:106-107, 163-173,
    77-104) and the choice of scroll axis and amount (agent.js:128-143,
    183-186). */
module Mouse {
  import opened Maybe
  import opened Js
  import opened Input

  /** The throttle interval used when none is configured. */
  const DefaultMinMoveMs := 6

  function Abs(n: int): nat {
    if n < 0 then -n else n
  }

  // ---------------------------------------------------------------- buttons

  /** The button name the handler passes on: `payload.button` when it is
      exactly `'right'` or `'middle'`, otherwise `'left'`. */
  function ButtonName(button: Value): string {
    if button == Str("right") || button == Str("middle") then button.s else "left"
  }

  /** `mapButton`: the library button for a button name; anything other than
      `'right'` and `'middle'` is the left button. */
  function MapButton(name: string): Button {
    if name == "right" then Right
    else if name == "middle" then Middle
    else Left
  }

  /** The library button a click, down or up payload acts on. */
  function PayloadButton(button: Value): (b: Button)
    ensures b == Right <==> button == Str("right")
    ensures b == Middle <==> button == Str("middle")
    ensures b == Left <==> button != Str("right") && button != Str("middle")
  {
    MapButton(ButtonName(button))
  }

  /** The name each button is sent under. */
  function ButtonText(b: Button): string {
    match b
    case Left => "left"
    case Right => "right"
    case Middle => "middle"
  }

  /** Every button can be requested by its name, and normalising a name the
      handler produced changes nothing. */
  lemma ButtonNamesRoundTrip(b: Button, button: Value)
    ensures PayloadButton(Str(ButtonText(b))) == b
    ensures ButtonName(Str(ButtonName(button))) == ButtonName(button)
  {
  }

  // ------------------------------------------------------------------ moves

  /** `AGENT_MOUSE_MIN_MS`: `Number(setting) || 6`, where `setting` is the
      environment variable, absent or a string. */
  function MinMoveMs(setting: Option<string>): (ms: int)
    ensures ms != 0
    ensures setting == None ==> ms == DefaultMinMoveMs
    ensures setting == Some("0") || setting == Some("") ==> ms == DefaultMinMoveMs
  {
    var n := if setting.Some? then StringToNumber(setting.value) else NaN;
    match n
    case NaN => DefaultMinMoveMs
    case Finite(x) =>
      // the parser only yields integers
      if x == 0.0 then DefaultMinMoveMs else x.Floor
  }

  /** A configured interval written as a decimal integer other than zero is
      taken as given. */
  lemma MinMoveMsConfigured(ms: int)
    requires ms != 0
    ensures MinMoveMs(Some(IntToDecimal(ms))) == ms
  {
    StringToNumberOfDecimal(ms);
  }

  /** `Math.max(0, Math.min(1, v))`. */
  function Clamp01(v: real): (c: real)
    ensures 0.0 <= c <= 1.0
    ensures 0.0 <= v <= 1.0 ==> c == v
    ensures v < 0.0 ==> c == 0.0
    ensures v > 1.0 ==> c == 1.0
  {
    if v < 0.0 then 0.0 else if v > 1.0 then 1.0 else v
  }

  /** A move is applied unless it arrives less than `minMoveMs` after the
      last applied one. */
  predicate MoveDue(now: int, lastMoveAt: int, minMoveMs: int) {
    !(now - lastMoveAt < minMoveMs)
  }

  /** A move to normalised `(xNorm, yNorm)` arriving at `now`. When due, the
      cursor is moved to the clamped point and, if the socket is connected,
      the unclamped point is echoed; the timestamp becomes `now`. Otherwise
      only the echo is sent and the timestamp is kept. */
  function Move(xNorm: real, yNorm: real, now: int, lastMoveAt: int, minMoveMs: int, connected: bool): (o: Outcome)
    ensures MoveDue(now, lastMoveAt, minMoveMs) ==> o.lastMoveAt == now
    ensures !MoveDue(now, lastMoveAt, minMoveMs) ==> o.lastMoveAt == lastMoveAt
    ensures !MoveDue(now, lastMoveAt, minMoveMs) ==> o.commands == [EchoCursor(xNorm, yNorm)]
    ensures MoveDue(now, lastMoveAt, minMoveMs) ==>
      && |o.commands| >= 1
      && o.commands[0] == MoveTo(Clamp01(xNorm), Clamp01(yNorm))
      && (o.commands[1..] == if connected then [EchoCursor(xNorm, yNorm)] else [])
  {
    if now - lastMoveAt < minMoveMs then
      Outcome([EchoCursor(xNorm, yNorm)], lastMoveAt)
    else
      var echo := if connected then [EchoCursor(xNorm, yNorm)] else [];
      Outcome([MoveTo(Clamp01(xNorm), Clamp01(yNorm))] + echo, now)
  }

  // ----------------------------------------------------------------- scroll

  /** A scroll delta as the handler reads it: `Math.trunc(v || 0)`, then, in
      the scroll helper, `Math.trunc(d || 0)` again, which turns NaN into 0.
      `None` when `Math.trunc` throws on an object that does not convert. */
  function ScrollDelta(v: Value): (d: Option<int>)
    ensures d.None? <==> !Converts(v)
    ensures v.Num? ==> d == Some(Trunc(v.x))
    ensures v.Undefined? || v.Null? || v == Obj(false) || v == Bool(false) ==> d == Some(0)
    ensures v == Bool(true) ==> d == Some(1)
    ensures v.Str? ==> d == Some(match StringToNumber(v.s) case Finite(x) => Trunc(x) case NaN => 0)
  {
    match ToNumber(Or(v, Num(0.0)))
    case None => None
    case Some(NaN) => Some(0)
    case Some(Finite(x)) => Some(Trunc(x))
  }

  function ScrollAmount(c: Command): int {
    match c
    case ScrollUp(n) => n
    case ScrollDown(n) => n
    case ScrollLeft(n) => n
    case ScrollRight(n) => n
    case _ => 0
  }

  /** The wheel call for integer deltas: the vertical axis when `|dy| >= |dx|`
      (ties go vertical), otherwise the horizontal one; the sign picks the
      direction and the magnitude is the amount. */
  function Scroll(dx: int, dy: int): (r: seq<Command>)
    ensures |r| <= 1
    ensures r == [] <==> dx == 0 && dy == 0
    ensures |r| == 1 ==> ScrollAmount(r[0]) == (if Abs(dy) >= Abs(dx) then Abs(dy) else Abs(dx)) > 0
    ensures |r| == 1 ==> (r[0].ScrollDown? <==> dy > 0 && Abs(dy) >= Abs(dx))
    ensures |r| == 1 ==> (r[0].ScrollUp? <==> dy < 0 && Abs(dy) >= Abs(dx))
    ensures |r| == 1 ==> (r[0].ScrollRight? <==> dx > 0 && Abs(dx) > Abs(dy))
    ensures |r| == 1 ==> (r[0].ScrollLeft? <==> dx < 0 && Abs(dx) > Abs(dy))
  {
    if Abs(dy) >= Abs(dx) then
      if dy > 0 then [ScrollDown(Abs(dy))]
      else if dy < 0 then [ScrollUp(Abs(dy))]
      else []
    else
      if dx > 0 then [ScrollRight(Abs(dx))]
      else if dx < 0 then [ScrollLeft(Abs(dx))]
      else []
  }

  /** The net wheel movement of a list of commands, as `(dx, dy)` with down
      and right positive. */
  function Displacement(cmds: seq<Command>): (int, int) {
    if cmds == [] then (0, 0)
    else
      var (dx, dy) := Displacement(cmds[1..]);
      match cmds[0]
      case ScrollUp(n) => (dx, dy - n)
      case ScrollDown(n) => (dx, dy + n)
      case ScrollLeft(n) => (dx - n, dy)
      case ScrollRight(n) => (dx + n, dy)
      case _ => (dx, dy)
  }

  /** Undoing the axis choice: the wheel movement issued for `(dx, dy)` is the
      component along the dominant axis, and the other component is dropped. */
  lemma ScrollKeepsDominantAxis(dx: int, dy: int)
    ensures Displacement(Scroll(dx, dy)) == if Abs(dy) >= Abs(dx) then (0, dy) else (dx, 0)
  {
    var r := Scroll(dx, dy);
    if r != [] {
      assert r[1..] == [];
    }
  }

}
