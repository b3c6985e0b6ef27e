/** How an interactive session of either script stops. */
module Sessions {

  /**
   * `Quit`: the loop breaks on the user's answer (or on end of input at a prompt that
   * catches it); `Exited(code)`: `sys.exit(code)` inside discovery; `Crashed`: an
   * exception nothing catches ends the process (EOFError from `input()`, an `os.listdir`
   * error); `AwaitingInput`: the modelled answers ran out while the loop still runs.
   */
  datatype End = Quit | Exited(code: int) | Crashed | AwaitingInput
}
