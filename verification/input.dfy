/** The abstract input commands the dispatcher issues. Each stands for one
    call the agent makes: on the input library (cursor move, button and wheel
    calls, key press/release, typing) or on the socket (the `agent-mouse`
    cursor echo). */
module Input {
  import opened Keys

  datatype Button = Left | Right | Middle

  datatype Command =
      /** Move the OS cursor; normalised coordinates, already clamped to [0, 1]. */
    | MoveTo(x: real, y: real)
      /** Emit `agent-mouse` so viewers can draw the cursor; coordinates as received. */
    | EchoCursor(xNorm: real, yNorm: real)
    | Click(button: Button)
    | Press(button: Button)
    | Release(button: Button)
    | ScrollUp(amount: nat)
    | ScrollDown(amount: nat)
    | ScrollLeft(amount: nat)
    | ScrollRight(amount: nat)
    | PressKey(key: Key)
    | ReleaseKey(key: Key)
    | TypeText(text: string)

  /** What one control event produces: the commands, in the order the handler
      starts them, and the
      new value of the move-throttle timestamp. */
  datatype Outcome = Outcome(commands: seq<Command>, lastMoveAt: int)

}
