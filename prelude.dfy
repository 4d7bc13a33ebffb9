/**
 * Values shared by the router and the device modules: an optional value,
 * the kinds of failure a command can end in, and the outcome of a command.
 */
module Prelude {

  datatype Option<+T> = None | Some(value: T)

  /**
   * The failures a command can end in. The source reports every one of them
   * as a formatted error message; the model keeps the data each message is
   * built from instead of its text.
   */
  datatype Error =
    | MissingCommand                 // "Missing command argument"
    | NoMatch(token: string)         // "No command matching '<token>'"
    | Ambiguous(names: seq<string>)  // "Ambiguous command, multiple matches: [...]"
    | Usage(usage: string)           // the handler's fixed usage message
    | BadIndex                       // the channel selector is not an unsigned integer
    | NoChannel(index: nat)          // the instrument has no channel with that index
    | BadValue                       // a value the foreign grammar does not accept
    | InvalidState(text: string)     // "Invalid state value '<text>'"
    | DeviceFault                    // an operation the instrument rejected

  /** What a command handler returns: `Ok(())` or an error. */
  datatype Outcome = Success | Failure(error: Error)
}
