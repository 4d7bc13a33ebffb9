# testeq-cli command dispatch, modelled in Dafny

testeq-cli is a command-line front end for laboratory instruments. A user
names an instrument, then a command with arguments. The command module for
that kind of instrument connects to it. With no command it shows the status
of the whole instrument. Otherwise it hands the arguments to a generic
router. The router resolves the first argument to exactly one handler of the
module's table by unambiguous prefix, or prints the table for `help`.

This project models three parts:

- the router (`Commands::run_command`);
- the power-supply command module (`status`, `enable`, `set_voltage`,
  `set_current`, `read_voltage`, `read_current`, `read_power`);
- the multimeter command module (`status`, `mode`, `read`, `read_now`,
  `trig_source`, `arm`).

Files:

- `prelude.dfy`: `Option`, the kinds of error a command can end in, and the
  outcome of a command.
- `parsing.dfy`: the text conversions the handlers apply. These are ASCII
  lower-casing, the parse of a channel selector as a 64-bit unsigned
  integer, and the display form of a boolean.
- `command.dfy`: the router. It is a pure function from a handler table and
  the arguments to a route: an error, the help listing, or the index of the
  one handler to invoke.
- `instrument.dfy`: the device interface as seen from outside. A `Session`
  records every call made on the instrument, in order, in a trace. It also
  records the taking and releasing of a channel's guard, and the lines
  printed. The instrument rejects a fixed set of calls. This file also holds
  the channel lookup (`get_chan`), the run of a handler's calls up to the
  first one rejected, and the status loop over all channels.
- `psu.dfy` and `dmm.dfy`: the two command modules. Each handler is
  specified by a pure function. It maps the instrument state before the
  command, the rejected calls and the arguments to an `Effect`: the outcome,
  the calls made, the lines printed and the state afterwards. The
  `PowerSupply` and `Multimeter` classes hold the channels in an array and
  update them in place. Each of their methods is proved to have exactly the
  effect its function describes. The properties of the commands are lemmas
  about those functions.

Two behaviours of the code are kept and proved as written:

- **Exact names are not preferred.** A command's full name selects it only
  if no other name starts with it. See `Command.ExactNameDispatch`.
- **The multimeter's `read` handler is unreachable.** Every token that
  `read` starts with also starts `read_now`, so such a token is always
  ambiguous. See `Dmm.ReadUnreachable`.

## Model

| member | source | states |
|---|---|---|
| Parsing.Lower | src/devices/psu.rs:105 | lower-casing keeps the length and lowers each character in place |
| Parsing.LowerMatchesIgnoringCase | src/devices/psu.rs:105-107 | a lowered value equals a lower-case word exactly when the two differ only in case |
| Parsing.BoolText | src/devices/psu.rs:103 | a boolean is shown as `true` or `false` |
| Parsing.ParseIndex | src/devices/psu.rs:85-91 | a selector parses only if it is an optional `+` followed by digits, and the value fits in 64 bits |
| Parsing.IndexRoundTrip | src/devices/psu.rs:90 | the decimal text of every 64-bit index parses back to that index, with or without `+` |
| Parsing.LeadingZeroIgnored | src/devices/dmm.rs:73 | a leading zero does not change the channel selected |
| Parsing.PlusIgnored | src/devices/psu.rs:90 | one leading `+` before text that does not itself start with `+` (digits with leading zeros included) does not change the parse |
| Parsing.OverflowRejected | src/devices/dmm.rs:73 | a selector whose value exceeds 64 bits is rejected |
| Parsing.IndexText | src/devices/psu.rs:90 | the decimal text of an index is a non-empty string of digits |
| Parsing.DigitsValueOfIndexText | src/devices/psu.rs:90 | the value of an index's decimal text is the index |
| Command.CmdHdlr | src/command.rs:6-15 | a handler registered with a name and a help text, and no usage string |
| Command.CmdHdlrArgs | src/command.rs:18-27 | a handler registered with a name, a usage string for its arguments and a help text |
| Command.StartsWith | src/command.rs:66 | a name matches a token when the token is a literal, case-sensitive prefix of it |
| Command.HelpLine | src/command.rs:54-58 | one help line: the name, then the usage string when there is one, then the help text |
| Command.HelpListing | src/command.rs:52-59 | the listing has a title line, then one line per handler in table order |
| Command.Candidates | src/command.rs:63-67 | the candidates are exactly the handlers whose name starts with the token, in table order, each once |
| Command.Pick | src/command.rs:74 | the names at the candidate indices, in candidate order, as the ambiguity error lists them |
| Command.RunCommand | src/command.rs:45-79 | a dispatch is only for non-empty arguments and names a handler in the table |
| Command.CandidatesOfNone | src/command.rs:69-70 | no name starts with the token: there are no candidates |
| Command.CandidatesOfSingle | src/command.rs:78 | exactly one name starts with the token: that handler is the only candidate |
| Command.CandidatesAre | src/command.rs:63-67 | a list that holds exactly the matching handlers, in order, is the candidate list |
| Command.NarrowedToken | src/command.rs:63-67 | a longer token that still matches a handler selected alone also selects it alone |
| Command.EmptyArgsRejected | src/command.rs:46-48 | empty arguments fail with the missing-command error |
| Command.HelpAlwaysListed | src/command.rs:51-61 | `help` always yields the whole listing, whatever follows and even if a name starts with `help` |
| Command.EmptyTokenMatchesAll | src/command.rs:66 | the empty token matches every handler |
| Command.NoMatchExactly | src/command.rs:69-70 | the no-match error, naming the token, happens if and only if no name starts with the token |
| Command.DispatchExactly | src/command.rs:71-78 | handler `i` is invoked if and only if its name is the only one starting with the token |
| Command.AmbiguousExactly | src/command.rs:71-76 | two matching names give the ambiguity error, which lists exactly the matching names in table order |
| Command.RouteIgnoresRest | src/command.rs:50-78 | the route depends only on the first argument |
| Command.ExactNameDispatch | src/command.rs:63-78 | a full name selects its handler if and only if no other name starts with it |
| Command.PrefixFreeTableDispatchesNames | src/command.rs:63-78 | in a table where no name prefixes another, every full name selects its own handler |
| Instrument.RunQueries | src/devices/psu.rs:73-79 | the calls stop at the first rejected one; success means none was rejected, and then every line is printed |
| Instrument.RunQueriesFailsAt | src/devices/psu.rs:73-79 | calls that all succeed, then a rejected one: the run stops right after it |
| Instrument.Attempt | src/devices/psu.rs:102 | one fallible call: it is recorded, and its lines are printed only when it succeeds |
| Instrument.Resolve | src/devices/psu.rs:85-91 | an unparsable selector fails with no call; otherwise the channel is requested and found exactly when it exists and the request is accepted |
| Instrument.Within | src/devices/psu.rs:98-99 | a handler's work on one channel: look the channel up, take its guard, make the calls, release the guard |
| Instrument.WithinReleases | src/devices/psu.rs:98-99 | looking up a channel, taking its guard, calling, and dropping the guard leaves no guard held |
| Instrument.Plan | src/devices/psu.rs:70-79 | the status loop's plan has one entry per channel, in enumeration order, holding that channel's queries |
| Instrument.Sweep | src/devices/psu.rs:69-80 | the status loop: for each channel in order, take its guard, make its calls, release it; stop at the first channel whose calls fail |
| Instrument.SweepStops | src/devices/psu.rs:70-80 | once a channel's calls fail, no later channel is visited |
| Instrument.SweepSucceeds | src/devices/psu.rs:70-82 | the status loop succeeds exactly when no call is rejected, and then prints every channel's lines |
| Instrument.AllLinesConcat | src/devices/psu.rs:70-80 | the loop's output is the channels' blocks of lines, one after another, in channel order |
| Instrument.Blocks | src/devices/psu.rs:70-80 | one block of lines per channel, in channel order, holding what that channel prints |
| Instrument.SweepShowsEveryChannel | src/devices/psu.rs:70-80 | when each channel's queries print its block, a completed loop prints every channel's block, channel after channel |
| Instrument.SweepAvoids | src/devices/psu.rs:70-80 | the loop makes no call of a kind none of its per-channel calls makes |
| Instrument.SweepLocked | src/devices/psu.rs:70-71 | the guards taken are for channels 0, 1, …, m − 1, with m at most the channel count, and equal to it when the loop completes |
| Instrument.SweepVisitsInOrder | src/devices/psu.rs:70-71 | guards are taken for channels 0, 1, 2, … in order, and for all of them when the loop completes |
| Instrument.SweepReleasesGuards | src/devices/psu.rs:70-80 | each channel's guard is released before the next is taken, and none is held at the end |
| Instrument.GuardedBlock | src/devices/psu.rs:98-114 | calls made while holding one guard, then releasing it, keep the guard discipline |
| Instrument.Session.Perform | src/devices/psu.rs:73-79 | makes the calls in order, printing after each success, until one is rejected |
| Instrument.Session.Call | src/devices/dmm.rs:143 | one call is recorded, and its lines are printed only if it succeeds |
| Instrument.Session.Acquire | src/devices/psu.rs:99 | taking channel `i`'s guard appends `Lock(i)` to the trace and changes nothing else |
| Instrument.Session.Release | src/devices/psu.rs:114-115 | the guard going out of scope appends `Unlock(i)` to the trace and changes nothing else |
| Instrument.Session.Print | src/command.rs:52-58 | printing the help listing appends exactly its lines to the output and changes nothing else |
| Instrument.Session.Lookup | src/devices/psu.rs:85-91 | the lookup returns the resolved channel and records the request only when a selector parses |
| Instrument.Session.Visit | src/devices/psu.rs:71-79 | the channel's calls are made between taking and releasing its guard |
| Instrument.Session.VisitAll | src/devices/psu.rs:70-80 | the status loop has exactly the effect of the loop specification |
| Psu.TableNames | src/devices/psu.rs:22-63 | the table's names, in registration order |
| Psu.Table | src/devices/psu.rs:22-63 | the seven handlers, with their usage strings and help texts, in registration order |
| Psu.ParseState | src/devices/psu.rs:105-108 | after lowering, `0`, `off` and `false` mean off, `1`, `on` and `true` mean on, and anything else is invalid |
| Psu.StatusQueries | src/devices/psu.rs:73-79 | the status view asks each channel seven things, in the source's order, each a call that prints one line and none a setter |
| Psu.Status | src/devices/psu.rs:68-83 | the channel list is requested, then each channel's seven queries are made under its guard; the first rejected call ends the command |
| Psu.Enable | src/devices/psu.rs:93-115 | the argument count is checked first, then the selector is resolved, then the get or set runs under the channel's guard |
| Psu.EnableAt | src/devices/psu.rs:101-112 | two arguments: get and print the state; three: parse the state, fail on an invalid one, else set it and update the channel if accepted |
| Psu.SetpointCommand | src/devices/psu.rs:117-157 | the argument count is checked first, then the selector is resolved, then the get or set runs under the channel's guard |
| Psu.SetpointAt | src/devices/psu.rs:125-133 | two arguments: get and print the set point with its unit; three: parse the number, fail on a bad one, else set it and update the channel if accepted |
| Psu.ReadbackCommand | src/devices/psu.rs:159-205 | exactly two arguments, then the selector is resolved, then one readback is printed with its unit under the channel's guard |
| Psu.Invoke | src/devices/psu.rs:24-61 | each table index runs the handler registered there, with the full argument list |
| Psu.Routed | src/devices/psu.rs:65 | a router failure ends the command, `help` prints the listing, and a dispatch runs the chosen handler |
| Psu.AfterConnect | src/devices/psu.rs:18-20 | no arguments show the status view; any other argument list is routed |
| Psu.Handle | src/devices/psu.rs:12-66 | the connection comes first and a failed connection ends the command; otherwise the status view or the routed command follows |
| Psu.RouteS | src/devices/psu.rs:25-43 | `s` is ambiguous between `status`, `set_voltage` and `set_current` |
| Psu.RouteSet | src/devices/psu.rs:32-43 | `set` is ambiguous between `set_voltage` and `set_current` |
| Psu.RouteRead | src/devices/psu.rs:44-61 | `read` is ambiguous between the three readbacks |
| Psu.RouteSt | src/devices/psu.rs:25 | `st` selects `status` |
| Psu.RouteE | src/devices/psu.rs:26-31 | `e` selects `enable` |
| Psu.RouteSetV | src/devices/psu.rs:32-37 | `set_v` selects `set_voltage` |
| Psu.RouteSetC | src/devices/psu.rs:38-43 | `set_c` selects `set_current` |
| Psu.RouteReadV | src/devices/psu.rs:44-49 | `read_v` selects `read_voltage` |
| Psu.RouteReadC | src/devices/psu.rs:50-55 | `read_c` selects `read_current` |
| Psu.RouteReadP | src/devices/psu.rs:56-61 | `read_p` selects `read_power` |
| Psu.RouteUnknown | src/devices/psu.rs:22-65 | any token other than `help` that starts no power-supply name fails with the no-match error naming it |
| Psu.FullNameSelects | src/devices/psu.rs:22-65 | every full name in the power-supply table selects its own handler |
| Psu.ConnectFirst | src/devices/psu.rs:16 | the first call is always the connection, and a failed connection ends the command with nothing else done |
| Psu.BareArgsShowStatus | src/devices/psu.rs:18-20 | no arguments: the status view, after the connection |
| Psu.HelpListsTable | src/devices/psu.rs:22-65 | `help` prints the power-supply table and makes no call after connecting |
| Psu.UsageBeforeAnyCall | src/devices/psu.rs:93-96 | a usage error happens exactly when the argument count is wrong, and then no call is made and nothing changes |
| Psu.SelectorResolvedFirst | src/devices/psu.rs:98 | a bad selector fails with no call; a missing channel fails after asking for it, without taking a guard |
| Psu.EnableSetOnlyParsed | src/devices/psu.rs:104-111 | an invalid state fails under the guard with no set and nothing changed; a valid one is set, and only an accepted set changes that channel's state |
| Psu.SetpointSetOnlyParsed | src/devices/psu.rs:130-132 | an unparsable number fails under the guard with no set and nothing changed; a parsed one is set, and only an accepted set changes that set point |
| Psu.WritesOnlyOnAcceptedSet | src/devices/psu.rs:104-112 | only an accepted set (three arguments) changes the channels, and only the selected one |
| Psu.QueriesAreReadOnly | src/devices/psu.rs:68-205 | status, a get and a readback change nothing and call no setter |
| Psu.EnableGetReadOnly | src/devices/psu.rs:101-103 | `enable <chan>` changes nothing and calls no setter |
| Psu.SetpointGetReadOnly | src/devices/psu.rs:125-129 | `set_voltage <chan>` and `set_current <chan>` change nothing and call no setter |
| Psu.ReadbackReadOnly | src/devices/psu.rs:159-205 | the readbacks change nothing and call no setter |
| Psu.StatusReadOnly | src/devices/psu.rs:68-83 | the status view calls no setter |
| Psu.HandlersReleaseGuards | src/devices/psu.rs:93-205 | every handler releases every channel guard it takes, on every path |
| Psu.EnableReleasesGuards | src/devices/psu.rs:93-115 | `enable` releases the channel guard on every path |
| Psu.SetpointReleasesGuards | src/devices/psu.rs:117-157 | `set_voltage` and `set_current` release the channel guard on every path |
| Psu.ReadbackReleasesGuards | src/devices/psu.rs:159-205 | the readbacks release the channel guard on every path |
| Psu.StatusReleasesGuards | src/devices/psu.rs:68-83 | the status view releases each channel's guard before the next |
| Psu.HandleReleasesGuards | src/devices/psu.rs:12-66 | the whole command, connection included, ends with no guard held |
| Psu.StatusVisitsInOrder | src/devices/psu.rs:69-71 | the status view visits channels in enumeration order, all of them when it succeeds |
| Psu.StatusQueriesLines | src/devices/psu.rs:73-79 | one channel's status calls print its seven lines |
| Psu.StatusSucceeds | src/devices/psu.rs:68-83 | the status view succeeds exactly when no call it makes is rejected |
| Psu.StatusShowsEveryChannel | src/devices/psu.rs:70-80 | a successful status view prints each channel's seven lines, channel after channel |
| Psu.StateRoundTrip | src/devices/psu.rs:102-107 | every state `enable` displays is accepted back as that state |
| Psu.OffVocabulary | src/devices/psu.rs:105-106 | a value means off exactly when it is `0`, `off` or `false`, in any case |
| Psu.OnVocabulary | src/devices/psu.rs:105-107 | a value means on exactly when it is `1`, `on` or `true`, in any case |
| Psu.EnableThenGet | src/devices/psu.rs:101-111 | on the model's instrument, which stores what a set is given: after a successful `enable` set, a successful get shows the state that was set |
| Psu.SetpointThenGet | src/devices/psu.rs:125-132 | on the model's instrument, which stores what a set is given: after a successful set point set, a successful get shows the value that was set, with its unit |
| Psu.PowerSupply.HandleCommand | src/devices/psu.rs:12-66 | the command has exactly the effect `Handle` specifies, on the trace, the output and the channel array |
| Psu.PowerSupply.RouteCommand | src/devices/psu.rs:22-65 | the routed command has exactly the routed effect |
| Psu.PowerSupply.Connected | src/devices/psu.rs:18-20 | once connected, bare arguments run the status loop and any other list the routed command, with exactly `AfterConnect`'s effect on the trace, the output and the channel array |
| Psu.PowerSupply.RunHandler | src/devices/psu.rs:65 | the dispatched handler has exactly its specified effect |
| Psu.PowerSupply.CommandStatus | src/devices/psu.rs:68-83 | the status loop has exactly the status view's effect |
| Psu.PowerSupply.CommandEnable | src/devices/psu.rs:93-115 | `enable` has exactly its specified effect |
| Psu.PowerSupply.EnableChannel | src/devices/psu.rs:101-112 | the get or set on the guarded channel has exactly the effect `EnableAt` specifies, on the trace, the output and the channel array |
| Psu.PowerSupply.CommandSetpoint | src/devices/psu.rs:117-157 | `set_voltage` and `set_current` have exactly their specified effect |
| Psu.PowerSupply.SetpointChannel | src/devices/psu.rs:125-133 | the get or set on the guarded channel has exactly the effect `SetpointAt` specifies, on the trace, the output and the channel array |
| Psu.PowerSupply.CommandReadback | src/devices/psu.rs:159-205 | the readbacks have exactly their specified effect |
| Dmm.TableNames | src/devices/dmm.rs:19-49 | the table's names, in registration order |
| Dmm.Table | src/devices/dmm.rs:19-49 | the six handlers, with their usage strings and help texts, in registration order |
| Dmm.StatusQueries | src/devices/dmm.rs:60-61 | the status view asks each channel its name, then its mode; each call prints one line, and none sets, measures or asks for the trigger source |
| Dmm.SourceLine | src/devices/dmm.rs:55 | the line the status view opens with shows the trigger source |
| Dmm.Status | src/devices/dmm.rs:54-66 | the trigger source is printed, the channel list requested, then each channel's name and mode queried under its guard; the first rejected call ends the command |
| Dmm.ModeCommand | src/devices/dmm.rs:76-93 | the argument count is checked first, then the selector is resolved, then the get or set runs under the channel's guard |
| Dmm.ModeAt | src/devices/dmm.rs:84-90 | two arguments: get and print the mode; three: parse the lowered mode, fail on a bad one, else set it and update the channel if accepted |
| Dmm.ReadCommand | src/devices/dmm.rs:95-107 | exactly two arguments, then the selector is resolved, then the reading is printed under the channel's guard |
| Dmm.ReadNowCommand | src/devices/dmm.rs:109-124 | exactly two arguments, then the selector is resolved, then arm, trigger and read under the channel's guard |
| Dmm.ReadNowQueries | src/devices/dmm.rs:117-121 | the calls `read_now` makes under the guard: arm, trigger, then read the channel, printing only the reading |
| Dmm.TrigSourceCommand | src/devices/dmm.rs:126-140 | at most two arguments; one: get and print the source; two: parse the lowered source, fail on a bad one, else set it and update the source if accepted |
| Dmm.Arm | src/devices/dmm.rs:142-146 | one call, arming the trigger, whatever the arguments |
| Dmm.Invoke | src/devices/dmm.rs:21-47 | each table index runs the handler registered there, with the full argument list |
| Dmm.Routed | src/devices/dmm.rs:51 | a router failure ends the command, `help` prints the listing, and a dispatch runs the chosen handler |
| Dmm.AfterConnect | src/devices/dmm.rs:15-17 | no arguments show the status view; any other argument list is routed |
| Dmm.Handle | src/devices/dmm.rs:9-52 | the connection comes first and a failed connection ends the command; otherwise the status view or the routed command follows |
| Dmm.RouteRead | src/devices/dmm.rs:29-40 | `read` is ambiguous between `read` and `read_now` |
| Dmm.ReadUnreachable | src/devices/dmm.rs:29-40 | no argument list ever dispatches to the `read` handler |
| Dmm.ReadNowPrefixesSelect | src/devices/dmm.rs:35-40 | `read_` and `read_n` select `read_now` |
| Dmm.FullNameSelects | src/devices/dmm.rs:19-51 | every full name except `read` selects its own handler |
| Dmm.ConnectFirst | src/devices/dmm.rs:13 | the first call is always the connection, and a failed connection ends the command with nothing else done |
| Dmm.BareArgsShowStatus | src/devices/dmm.rs:15-17 | no arguments: the status view, after the connection |
| Dmm.HelpListsTable | src/devices/dmm.rs:19-51 | `help` prints the multimeter table and makes no call after connecting |
| Dmm.UsageBeforeAnyCall | src/devices/dmm.rs:76-129 | a usage error happens exactly when the argument count is wrong, and then no call is made and nothing changes |
| Dmm.SelectorResolvedFirst | src/devices/dmm.rs:81 | a bad selector fails with no call; a missing channel fails after asking for it, without taking a guard |
| Dmm.ModeSetOnlyParsed | src/devices/dmm.rs:87-90 | the lowered mode is parsed under the guard; only a parsed mode is set, and a successful set changes only that channel's mode |
| Dmm.TrigSourceSetOnlyParsed | src/devices/dmm.rs:134-137 | the lowered source is parsed first; only a parsed source is set, and a successful set changes only the source |
| Dmm.ModeThenGet | src/devices/dmm.rs:84-90 | on the model's instrument, which stores what a set is given: after a successful mode set, a successful get shows the mode that was set |
| Dmm.TrigSourceThenGet | src/devices/dmm.rs:131-137 | on the model's instrument, which stores what a set is given: after a successful source set, a successful get shows the source that was set |
| Dmm.ReadNowRun | src/devices/dmm.rs:117-121 | arm, trigger and read stop at the first rejected call; the reading is printed only when all succeed |
| Dmm.ReadNowOrder | src/devices/dmm.rs:109-124 | under the channel's guard: arm, trigger, read, in that order; success exactly when all three succeed, then the reading is printed |
| Dmm.ArmOnce | src/devices/dmm.rs:142-146 | `arm` makes exactly one call, arming, whatever its arguments |
| Dmm.QueriesAreReadOnly | src/devices/dmm.rs:54-146 | status, the gets, the reads and arming change nothing and call no setter |
| Dmm.ReadNowReadOnly | src/devices/dmm.rs:109-124 | `read_now` changes nothing and calls no setter |
| Dmm.WritesOnlyOnAcceptedSet | src/devices/dmm.rs:76-140 | only an accepted mode set changes a channel (only that one), only an accepted source set changes the source |
| Dmm.StatusQueriesLines | src/devices/dmm.rs:60-61 | one channel's status calls print its name and mode lines |
| Dmm.StatusSucceeds | src/devices/dmm.rs:54-66 | the status view succeeds exactly when no call it makes is rejected |
| Dmm.StatusShowsEveryChannel | src/devices/dmm.rs:54-63 | a successful status view prints the trigger source, then each channel's name and mode, in channel order |
| Dmm.StatusOnlyInspects | src/devices/dmm.rs:54-63 | the trigger source is asked once, first; status never sets, reads, arms or triggers |
| Dmm.StatusVisitsInOrder | src/devices/dmm.rs:56-58 | the status view visits channels in enumeration order, all of them when it succeeds |
| Dmm.StatusReleasesGuards | src/devices/dmm.rs:54-66 | the status view releases each channel's guard before the next |
| Dmm.HandlersReleaseGuards | src/devices/dmm.rs:76-146 | every handler releases every channel guard it takes, on every path |
| Dmm.ModeReleasesGuards | src/devices/dmm.rs:76-93 | `mode` releases the channel guard on every path |
| Dmm.ReadReleasesGuards | src/devices/dmm.rs:95-107 | `read` releases the channel guard on every path |
| Dmm.ReadNowReleasesGuards | src/devices/dmm.rs:109-124 | `read_now` releases the channel guard on every path |
| Dmm.HandleReleasesGuards | src/devices/dmm.rs:9-52 | the whole command, connection included, ends with no guard held |
| Dmm.Multimeter.HandleCommand | src/devices/dmm.rs:9-52 | the command has exactly the effect `Handle` specifies, on the trace, the output, the channels and the source |
| Dmm.Multimeter.RouteCommand | src/devices/dmm.rs:19-51 | the routed command has exactly the routed effect |
| Dmm.Multimeter.Connected | src/devices/dmm.rs:15-17 | once connected, bare arguments run the status view and any other list the routed command, with exactly `AfterConnect`'s effect on the trace, the output, the channels and the source |
| Dmm.Multimeter.RunHandler | src/devices/dmm.rs:51 | the dispatched handler has exactly its specified effect |
| Dmm.Multimeter.CommandStatus | src/devices/dmm.rs:54-66 | the source line, then the channel loop, has exactly the status view's effect |
| Dmm.Multimeter.CommandMode | src/devices/dmm.rs:76-93 | `mode` has exactly its specified effect |
| Dmm.Multimeter.ModeChannel | src/devices/dmm.rs:84-90 | the get or set on the guarded channel has exactly the effect `ModeAt` specifies, on the trace, the output and the channels |
| Dmm.Multimeter.CommandRead | src/devices/dmm.rs:95-107 | `read` has exactly its specified effect |
| Dmm.Multimeter.CommandReadNow | src/devices/dmm.rs:109-124 | `read_now` has exactly its specified effect |
| Dmm.Multimeter.CommandTrigSource | src/devices/dmm.rs:126-140 | `trig_source` has exactly its specified effect |
| Dmm.Multimeter.CommandArm | src/devices/dmm.rs:142-146 | `arm` has exactly its specified effect |

## Left out

- `src/main.rs` is not part of this model. It reads the process arguments,
  discovers the instrument from a URI and calls the power-supply module. It
  dispatches only power supplies, so the multimeter module is modelled
  although `main` never reaches it.
- The instrument interface (`testeq_rs`) is not part of this model. Its
  calls are modelled by their observable result: each call either succeeds
  or is rejected, and a fixed set of calls is rejected. A call's value is
  the instrument state the model keeps (a channel's name, state, set points
  and readbacks; a multimeter channel's mode and reading; the trigger
  source). A successful setter stores exactly the value it is given. A real
  instrument may clamp or round a set point, so the set-then-get lemmas
  (`Psu.EnableThenGet`, `Psu.SetpointThenGet`, `Dmm.ModeThenGet`,
  `Dmm.TrigSourceThenGet`) hold for the model's instrument. The source only
  passes the parsed value to the instrument library and prints what the
  getter returns.
- The asynchronous runtime and the `tokio` mutexes are not modelled as
  concurrency. Taking and releasing a channel's guard are recorded as
  `Lock` and `Unlock` entries in the trace. The guard discipline is proved
  as a property of that trace.
- Floating-point values are modelled as `real`. The `f64` parse of a set
  point, and the parses of a multimeter mode and of a trigger source, are
  function parameters of the model, because their grammars live in the
  instrument library.
- The `Display` formats of a reading, a mode and a trigger source are not
  modelled. A printed line keeps the value it shows (`Shown`, `Number`)
  instead of its text.
- Error messages are modelled by the data they are built from (`Error`),
  not their text.
- Parsing.Lower: lowers ASCII letters only. `str::to_lowercase` also lowers
  other Unicode letters. The enable vocabulary is ASCII, so `Psu.ParseState`
  means the same. `Dmm.ModeAt` and `Dmm.TrigSourceCommand` pass the lowered
  text to the mode and trigger-source grammars. There, a non-ASCII spelling
  that Rust lowers to an accepted name (U+212A KELVIN SIGN lowers to `k`)
  can parse in the program and fail in the model.
- Parsing.ParseIndex: assumes that `get_channel` takes a `usize`, on a 64-bit
  target. The target type of `chan.parse()` comes from the instrument
  library's signature, which is not part of this model.
- Instrument.Resolve: the error kind for an index beyond the last channel
  (`NoChannel`) is the model's choice. The instrument library decides how
  that failure is reported.
- Instrument.Sweep: assumes `get_channels` lists the channels in index
  order, so the status loop's channel `k` is the channel `get_chan`
  selects with `k`.
- Dmm.TrigSourceCommand: requires a non-empty argument list. The source
  would panic indexing an empty one, but the router never passes one.
- Dmm.Arm: arming and triggering change no modelled state. Their effect on
  the instrument belongs to the instrument library.
- Multiple-instrument setups, channel selection by name (a TODO in the
  source), and the process's exit status are not modelled.
