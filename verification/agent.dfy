/** The `control-from-viewer` handler (agent.js:158-240) as a pure function
    of the payload, the current time and the move-throttle timestamp, and the
    properties it keeps over one event and over a run of events. */
module Agent {
  import opened Maybe
  import opened Js
  import opened Keys
  import opened Input
  import opened Mouse
  import opened Keyboard

  /** The fields of a control payload the handler reads; `kind` is the
      payload's `type` field. A payload that is not an object reads as one
      whose fields are all `Undefined`. */
  datatype Payload = Payload(
    kind: Value, action: Value, button: Value,
    xNorm: Value, yNorm: Value, deltaX: Value, deltaY: Value,
    key: Value, rawKey: Value)

  /** The throttle interval (`AGENT_MOUSE_MIN_MS`, see `Mouse.MinMoveMs`) and
      whether the socket is connected when a move completes. */
  datatype Env = Env(minMoveMs: int, connected: bool)

  /** One control event as it reaches the agent: the payload (`None` when it
      is missing or falsy), the clock reading when it is handled, and whether
      the socket is connected when its move completes. */
  datatype Event = Event(payload: Option<Payload>, at: int, connected: bool)

  /** The environment an event of a run is handled in. */
  function EnvAt(minMoveMs: int, e: Event): Env {
    Env(minMoveMs, e.connected)
  }

  /** A mouse move with numeric coordinates. */
  predicate IsMove(p: Payload) {
    p.kind == Str("mouse") && p.action == Str("move") && p.xNorm.Num? && p.yNorm.Num?
  }

  predicate HasMove(cmds: seq<Command>) {
    exists c :: c in cmds && c.MoveTo?
  }

  /** Whether the handler applies the event's move: admits it past the
      throttle and starts the cursor move. */
  predicate MoveApplies(env: Env, payload: Option<Payload>, now: int, lastMoveAt: int) {
    payload.Some? && IsMove(payload.value) && MoveDue(now, lastMoveAt, env.minMoveMs)
  }

  /** The handler: the commands issued for `payload` at time `now`, and the
      new throttle timestamp. */
  function Dispatch(env: Env, payload: Option<Payload>, now: int, lastMoveAt: int): (o: Outcome)
    ensures |o.commands| <= 2
    ensures HasMove(o.commands) <==> MoveApplies(env, payload, now, lastMoveAt)
    ensures o.lastMoveAt == if HasMove(o.commands) then now else lastMoveAt
    ensures HasMove(o.commands) ==>
      o.commands[0].MoveTo? && forall i :: 0 < i < |o.commands| ==> !o.commands[i].MoveTo?
  {
    match payload
    case None => Outcome([], lastMoveAt)
    case Some(p) =>
      if p.kind == Str("mouse") then
        if IsMove(p) then
          Move(p.xNorm.x, p.yNorm.x, now, lastMoveAt, env.minMoveMs, env.connected)
        else if p.action == Str("click") then Outcome([Click(PayloadButton(p.button))], lastMoveAt)
        else if p.action == Str("down") then Outcome([Press(PayloadButton(p.button))], lastMoveAt)
        else if p.action == Str("up") then Outcome([Release(PayloadButton(p.button))], lastMoveAt)
        else if p.action == Str("scroll") then
          var dx, dy := ScrollDelta(p.deltaX), ScrollDelta(p.deltaY);
          if dx.Some? && dy.Some? then Outcome(Scroll(dx.value, dy.value), lastMoveAt)
          else Outcome([], lastMoveAt)
        else Outcome([], lastMoveAt)
      else if p.kind == Str("key") then
        Outcome(KeyCommands(p.action, p.key, p.rawKey), lastMoveAt)
      else Outcome([], lastMoveAt)
  }

  // ------------------------------------------------------------- one event

  /** A click, down or up acts on the right or middle button only when the
      payload names it exactly; any other button value means the left one. */
  lemma ButtonActions(env: Env, p: Payload, now: int, lastMoveAt: int)
    requires p.kind == Str("mouse")
    requires p.action == Str("click") || p.action == Str("down") || p.action == Str("up")
    ensures var o := Dispatch(env, Some(p), now, lastMoveAt);
      && o.lastMoveAt == lastMoveAt
      && |o.commands| == 1
      && (o.commands[0].Click? <==> p.action == Str("click"))
      && (o.commands[0].Press? <==> p.action == Str("down"))
      && (o.commands[0].Release? <==> p.action == Str("up"))
      && (o.commands[0].Click? || o.commands[0].Press? || o.commands[0].Release?)
      && (o.commands[0].button == Left <==> p.button != Str("right") && p.button != Str("middle"))
      && o.commands[0].button == PayloadButton(p.button)
  {
  }

  /** A move outside the throttle window moves the cursor to the clamped
      point and advances the timestamp to `now`. */
  lemma AppliedMove(env: Env, p: Payload, now: int, lastMoveAt: int)
    requires IsMove(p) && now - lastMoveAt >= env.minMoveMs
    ensures var o := Dispatch(env, Some(p), now, lastMoveAt);
      && o.lastMoveAt == now
      && o.commands[0] == MoveTo(Clamp01(p.xNorm.x), Clamp01(p.yNorm.x))
      && 0.0 <= o.commands[0].x <= 1.0 && 0.0 <= o.commands[0].y <= 1.0
      && (env.connected <==> EchoCursor(p.xNorm.x, p.yNorm.x) in o.commands)
  {
  }

  /** A move inside the throttle window only echoes the cursor and keeps the
      timestamp. */
  lemma ThrottledMove(env: Env, p: Payload, now: int, lastMoveAt: int)
    requires IsMove(p) && now - lastMoveAt < env.minMoveMs
    ensures Dispatch(env, Some(p), now, lastMoveAt) == Outcome([EchoCursor(p.xNorm.x, p.yNorm.x)], lastMoveAt)
  {
  }

  /** The inputs the handler ignores outright. */
  predicate Ignored(payload: Option<Payload>) {
    match payload
    case None => true
    case Some(p) =>
      || (p.kind == Str("mouse") && p.action == Str("move") && !(p.xNorm.Num? && p.yNorm.Num?))
      || (p.kind == Str("mouse") && p.action !in {Str("move"), Str("click"), Str("down"), Str("up"), Str("scroll")})
      || (p.kind != Str("mouse") && p.kind != Str("key"))
      || (p.kind == Str("key") && p.action != Str("down") && p.action != Str("up"))
  }

  /** An ignored input issues nothing and leaves the throttle alone. */
  lemma IgnoredInputsAreNoOps(env: Env, payload: Option<Payload>, now: int, lastMoveAt: int)
    requires Ignored(payload)
    ensures Dispatch(env, payload, now, lastMoveAt) == Outcome([], lastMoveAt)
  {
  }

  /** The payloads on which the handler throws before issuing anything: a
      scroll whose delta `Math.trunc` cannot convert, and a key payload whose
      `key` or `rawKey` `String` cannot convert. */
  predicate Throws(p: Payload) {
    || (p.kind == Str("mouse") && p.action == Str("scroll") && (!Converts(p.deltaX) || !Converts(p.deltaY)))
    || (p.kind == Str("key") && (!Converts(p.key) || !Converts(p.rawKey)))
  }

  /** The handler's catch-all: a payload on which it throws issues nothing
      and leaves the throttle alone. For instance a key payload whose
      `rawKey` is `{"toString": 0}` presses nothing, even when its `key` is a
      table name. */
  lemma ConversionErrorsAreCaught(env: Env, p: Payload, now: int, lastMoveAt: int)
    requires Throws(p)
    ensures Dispatch(env, Some(p), now, lastMoveAt) == Outcome([], lastMoveAt)
  {
  }

  /** A scroll issues at most one wheel call, whose net movement is the
      truncated delta on the dominant axis (vertical on ties), and leaves the
      throttle alone; a delta that does not convert cancels the scroll. */
  lemma ScrollActions(env: Env, p: Payload, now: int, lastMoveAt: int)
    requires p.kind == Str("mouse") && p.action == Str("scroll")
    ensures var o := Dispatch(env, Some(p), now, lastMoveAt);
      && o.lastMoveAt == lastMoveAt
      && |o.commands| <= 1
      && (!Converts(p.deltaX) || !Converts(p.deltaY) ==> o.commands == [])
    ensures Converts(p.deltaX) && Converts(p.deltaY) ==>
      var o := Dispatch(env, Some(p), now, lastMoveAt);
      var dx, dy := ScrollDelta(p.deltaX).value, ScrollDelta(p.deltaY).value;
      && (o.commands == [] <==> dx == 0 && dy == 0)
      && Displacement(o.commands) == if Abs(dy) >= Abs(dx) then (0, dy) else (dx, 0)
  {
    if Converts(p.deltaX) && Converts(p.deltaY) {
      ScrollKeepsDominantAxis(ScrollDelta(p.deltaX).value, ScrollDelta(p.deltaY).value);
    }
  }

  /** A key payload is handled by the key rules alone and leaves the throttle
      alone; modifiers are never typed. */
  lemma KeyActions(env: Env, p: Payload, now: int, lastMoveAt: int)
    requires p.kind == Str("key")
    ensures var o := Dispatch(env, Some(p), now, lastMoveAt);
      && o.lastMoveAt == lastMoveAt
      && o.commands == KeyCommands(p.action, p.key, p.rawKey)
      && (MappedName(p.key, p.rawKey).Some? && MappedName(p.key, p.rawKey).value in Modifiers ==>
          forall c | c in o.commands :: !c.TypeText?)
  {
    if MappedName(p.key, p.rawKey).Some? && MappedName(p.key, p.rawKey).value in Modifiers {
      ModifierNeverTyped(p.action, p.key, p.rawKey);
    }
  }

  // ------------------------------------------------------------ many events

  /** The handler applied to a run of events in order, threading the
      timestamp. */
  function Run(minMoveMs: int, events: seq<Event>, lastMoveAt: int): Outcome
    decreases |events|
  {
    if events == [] then Outcome([], lastMoveAt)
    else
      var first := Dispatch(EnvAt(minMoveMs, events[0]), events[0].payload, events[0].at, lastMoveAt);
      var rest := Run(minMoveMs, events[1..], first.lastMoveAt);
      Outcome(first.commands + rest.commands, rest.lastMoveAt)
  }

  /** The times at which the handler applies a move in a run of events. */
  function MoveTimes(minMoveMs: int, events: seq<Event>, lastMoveAt: int): seq<int>
    decreases |events|
  {
    if events == [] then []
    else
      var first := Dispatch(EnvAt(minMoveMs, events[0]), events[0].payload, events[0].at, lastMoveAt);
      (if HasMove(first.commands) then [events[0].at] else [])
        + MoveTimes(minMoveMs, events[1..], first.lastMoveAt)
  }

  /** Applied moves are at least `minMoveMs` apart, and the first is at least
      that far from the initial timestamp. */
  predicate Spaced(times: seq<int>, start: int, gap: int) {
    && (|times| > 0 ==> times[0] - start >= gap)
    && forall i :: 0 < i < |times| ==> times[i] - times[i - 1] >= gap
  }

  /** The throttle's promise over any run: no two applied moves are closer
      than `minMoveMs`, whatever arrives in between and whatever the clock
      does. */
  lemma {:induction false} MovesSpaced(minMoveMs: int, events: seq<Event>, lastMoveAt: int)
    ensures Spaced(MoveTimes(minMoveMs, events, lastMoveAt), lastMoveAt, minMoveMs)
    decreases |events|
  {
    if events != [] {
      var first := Dispatch(EnvAt(minMoveMs, events[0]), events[0].payload, events[0].at, lastMoveAt);
      var tail := MoveTimes(minMoveMs, events[1..], first.lastMoveAt);
      MovesSpaced(minMoveMs, events[1..], first.lastMoveAt);
      if HasMove(first.commands) {
        var all := MoveTimes(minMoveMs, events, lastMoveAt);
        assert all == [events[0].at] + tail;
        forall i | 0 < i < |all|
          ensures all[i] - all[i - 1] >= minMoveMs
        {
          assert all[i] == tail[i - 1];
          if i > 1 {
            assert all[i - 1] == tail[i - 2];
          }
        }
      }
    }
  }

  /** After a run the timestamp is the time of its last applied move, or the
      initial one when no move was applied. */
  lemma {:induction false} RunEndsAtLastMove(minMoveMs: int, events: seq<Event>, lastMoveAt: int)
    ensures var times := MoveTimes(minMoveMs, events, lastMoveAt);
      Run(minMoveMs, events, lastMoveAt).lastMoveAt == if times == [] then lastMoveAt else times[|times| - 1]
    decreases |events|
  {
    if events != [] {
      var first := Dispatch(EnvAt(minMoveMs, events[0]), events[0].payload, events[0].at, lastMoveAt);
      RunEndsAtLastMove(minMoveMs, events[1..], first.lastMoveAt);
    }
  }

  /** The number of cursor moves in a list of commands. */
  function CountMoves(cmds: seq<Command>): nat {
    if cmds == [] then 0 else (if cmds[0].MoveTo? then 1 else 0) + CountMoves(cmds[1..])
  }

  lemma {:induction false} CountMovesAppend(a: seq<Command>, b: seq<Command>)
    ensures CountMoves(a + b) == CountMoves(a) + CountMoves(b)
  {
    if a == [] {
      assert a + b == b;
    } else {
      assert (a + b)[1..] == a[1..] + b;
      CountMovesAppend(a[1..], b);
    }
  }

  /** One event moves the cursor at most once. */
  lemma DispatchMovesAtMostOnce(env: Env, payload: Option<Payload>, now: int, lastMoveAt: int)
    ensures var o := Dispatch(env, payload, now, lastMoveAt);
      CountMoves(o.commands) == if HasMove(o.commands) then 1 else 0
  {
    var o := Dispatch(env, payload, now, lastMoveAt);
    var cmds := o.commands;
    if cmds != [] {
      var tail := cmds[1..];
      if tail != [] {
        assert tail[0] == cmds[1] && !tail[0].MoveTo? by {
          if HasMove(cmds) {} else { assert cmds[1] in cmds; }
        }
        assert tail[1..] == [];
        assert CountMoves(tail) == 0;
      }
      assert CountMoves(tail) == 0;
      assert cmds[0].MoveTo? <==> HasMove(cmds) by {
        if HasMove(cmds) {} else { assert cmds[0] in cmds; }
      }
    }
  }

  /** A run issues exactly one cursor move per applied move. */
  lemma {:induction false} RunMovesAtMoveTimes(minMoveMs: int, events: seq<Event>, lastMoveAt: int)
    ensures CountMoves(Run(minMoveMs, events, lastMoveAt).commands) == |MoveTimes(minMoveMs, events, lastMoveAt)|
    decreases |events|
  {
    if events != [] {
      var first := Dispatch(EnvAt(minMoveMs, events[0]), events[0].payload, events[0].at, lastMoveAt);
      var rest := Run(minMoveMs, events[1..], first.lastMoveAt);
      RunMovesAtMoveTimes(minMoveMs, events[1..], first.lastMoveAt);
      DispatchMovesAtMostOnce(EnvAt(minMoveMs, events[0]), events[0].payload, events[0].at, lastMoveAt);
      CountMovesAppend(first.commands, rest.commands);
    }
  }

}
