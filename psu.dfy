/**
 * The power-supply command module: connect, show the status of every
 * channel when no command is given, otherwise route the command through
 * the power-supply handler table.
 *
 * Each handler is specified by a function from the channels before the
 * command, the calls the instrument rejects and the arguments to an
 * `Effect`: the outcome, the calls made in order, the lines printed and
 * the channels afterwards. The `PowerSupply` methods are proved to have
 * exactly that effect; the properties of the handlers are lemmas about
 * the functions.
 */
module Psu {
  import opened Prelude
  import opened Parsing
  import opened Command
  import opened Instrument

  /** A power supply channel: its name, whether its output is on, its set points and its readbacks. */
  datatype Channel = Channel(
    name: string,
    enabled: bool,
    voltage: real,
    current: real,
    readVoltage: real,
    readCurrent: real,
    readPower: real)

  /** What one command did to the power supply. */
  type PsuEffect = Effect<seq<Channel>>

  /** The handler table, in registration order. */
  function Table(): Commands {
    Commands("Power Supply", [
      CmdHdlr("status", "Show status"),
      CmdHdlrArgs("enable", "<chan> [<enable>]", "Get/set power supply channel enabled"),
      CmdHdlrArgs("set_voltage", "<chan> [<voltage>]", "Get/set power supply channel set voltage"),
      CmdHdlrArgs("set_current", "<chan> [<current>]", "Get/set power supply channel set current"),
      CmdHdlrArgs("read_voltage", "<chan>", "Get power supply channel readback voltage"),
      CmdHdlrArgs("read_current", "<chan>", "Get power supply channel readback voltage"),
      CmdHdlrArgs("read_power", "<chan>", "Get power supply channel readback voltage")
    ])
  }

  const EnableUsage := "Usage: ... enable <channel> [<state>]"

  /** The two set points, handled alike by `set_voltage` and `set_current`. */
  datatype Setpoint = VoltageSetpoint | CurrentSetpoint {
    function Usage(): string {
      match this
      case VoltageSetpoint => "Usage: ... set_voltage <channel> [<voltage>]"
      case CurrentSetpoint => "Usage: ... set_current <channel> [<current>]"
    }
    function Get(i: nat): Op {
      match this
      case VoltageSetpoint => GetVoltage(i)
      case CurrentSetpoint => GetCurrent(i)
    }
    function Set(i: nat, v: real): Op {
      match this
      case VoltageSetpoint => SetVoltage(i, v)
      case CurrentSetpoint => SetCurrent(i, v)
    }
    function Of(c: Channel): real {
      match this
      case VoltageSetpoint => c.voltage
      case CurrentSetpoint => c.current
    }
    function With(c: Channel, v: real): Channel {
      match this
      case VoltageSetpoint => c.(voltage := v)
      case CurrentSetpoint => c.(current := v)
    }
    function Unit(): string {
      match this
      case VoltageSetpoint => "Voltage"
      case CurrentSetpoint => "Current"
    }
  }

  /** The three readbacks, handled alike by `read_voltage`, `read_current` and `read_power`. */
  datatype Readback = VoltageReadback | CurrentReadback | PowerReadback {
    function Usage(): string {
      match this
      case VoltageReadback => "Usage: ... read_voltage <channel>"
      case CurrentReadback => "Usage: ... read_current <channel>"
      case PowerReadback => "Usage: ... read_power <channel>"
    }
    function Read(i: nat): Op {
      match this
      case VoltageReadback => ReadVoltage(i)
      case CurrentReadback => ReadCurrent(i)
      case PowerReadback => ReadPower(i)
    }
    function Of(c: Channel): real {
      match this
      case VoltageReadback => c.readVoltage
      case CurrentReadback => c.readCurrent
      case PowerReadback => c.readPower
    }
    function Unit(): string {
      match this
      case VoltageReadback => "Voltage"
      case CurrentReadback => "Current"
      case PowerReadback => "Power"
    }
  }

  /** The enable-state vocabulary, matched after lowering the case of the value. */
  function ParseState(text: string): Option<bool> {
    var t := Lower(text);
    if t == "0" || t == "off" || t == "false" then Some(false)
    else if t == "1" || t == "on" || t == "true" then Some(true)
    else None
  }

  // ---------------------------------------------------------------------
  // Handler specifications
  // ---------------------------------------------------------------------

  /** The queries the status view makes of one channel, with what each prints. */
  function StatusQueries(c: Channel, i: nat): (qs: seq<Query>)
    ensures |qs| == 7
    ensures forall k :: 0 <= k < 7 ==> |qs[k].shows| == 1 && IsCall(qs[k].op) && !IsSetter(qs[k].op)
  {
    [ Query(Name(i), [Text("Channel " + c.name)]),
      Query(GetEnabled(i), [Text("  state: " + BoolText(c.enabled))]),
      Query(GetVoltage(i), [Number("  set voltage:  ", c.voltage, " V")]),
      Query(GetCurrent(i), [Number("  set current:  ", c.current, " A")]),
      Query(ReadVoltage(i), [Number("  read voltage: ", c.readVoltage, " V")]),
      Query(ReadCurrent(i), [Number("  read current: ", c.readCurrent, " A")]),
      Query(ReadPower(i), [Number("  read power:   ", c.readPower, " W")]) ]
  }

  /** `command_status`. */
  function Status(chans: seq<Channel>, failing: set<Op>): PsuEffect {
    if GetChannels in failing then Effect(Failure(DeviceFault), [GetChannels], [], chans)
    else
      var s := Sweep(Plan(chans, StatusQueries), failing, |chans|);
      Effect(Settle(s.ok), [GetChannels] + s.ops, s.lines, chans)
  }

  /** `command_enable`. */
  function Enable(chans: seq<Channel>, failing: set<Op>, args: seq<string>): PsuEffect {
    if |args| < 2 || |args| > 3 then Refused(Usage(EnableUsage), chans)
    else match Resolve(|chans|, failing, args[1])
      case NotFound(e, ops) => Effect(Failure(e), ops, [], chans)
      case Found(i) => Within(i, EnableAt(chans, failing, i, args))
  }

  /** `command_enable` on channel `i` while holding its guard: get with two arguments, parse and set with three. */
  function EnableAt(chans: seq<Channel>, failing: set<Op>, i: nat, args: seq<string>): PsuEffect
    requires i < |chans| && 2 <= |args| <= 3
  {
    if |args| == 2 then
      Settled(Attempt(Query(GetEnabled(i), [Text(BoolText(chans[i].enabled))]), failing), chans)
    else match ParseState(args[2])
      case None => Refused(InvalidState(args[2]), chans)
      case Some(on) =>
        var r := Attempt(Query(SetEnabled(i, on), []), failing);
        Settled(r, if r.ok then chans[i := chans[i].(enabled := on)] else chans)
  }

  /** `command_set_voltage` and `command_set_current`; `number` is the foreign float grammar. */
  function SetpointCommand(sp: Setpoint, chans: seq<Channel>, failing: set<Op>, args: seq<string>,
                           number: string -> Option<real>): PsuEffect
  {
    if |args| < 2 || |args| > 3 then Refused(Usage(sp.Usage()), chans)
    else match Resolve(|chans|, failing, args[1])
      case NotFound(e, ops) => Effect(Failure(e), ops, [], chans)
      case Found(i) => Within(i, SetpointAt(sp, chans, failing, i, args, number))
  }

  /** A set point handler on channel `i` while holding its guard: get with two arguments, parse and set with three. */
  function SetpointAt(sp: Setpoint, chans: seq<Channel>, failing: set<Op>, i: nat, args: seq<string>,
                      number: string -> Option<real>): PsuEffect
    requires i < |chans| && 2 <= |args| <= 3
  {
    if |args| == 2 then
      Settled(Attempt(Query(sp.Get(i), [Shown(Reading(sp.Unit(), sp.Of(chans[i])))]), failing), chans)
    else match number(args[2])
      case None => Refused(BadValue, chans)
      case Some(v) =>
        var r := Attempt(Query(sp.Set(i, v), []), failing);
        Settled(r, if r.ok then chans[i := sp.With(chans[i], v)] else chans)
  }

  /** `command_read_voltage`, `command_read_current` and `command_read_power`. */
  function ReadbackCommand(rb: Readback, chans: seq<Channel>, failing: set<Op>, args: seq<string>): PsuEffect {
    if |args| != 2 then Refused(Usage(rb.Usage()), chans)
    else match Resolve(|chans|, failing, args[1])
      case NotFound(e, ops) => Effect(Failure(e), ops, [], chans)
      case Found(i) =>
        Within(i, Settled(Attempt(Query(rb.Read(i), [Shown(Reading(rb.Unit(), rb.Of(chans[i])))]), failing), chans))
  }

  /** The handler registered at index `k` of the table, invoked with the full argument list. */
  function Invoke(k: nat, chans: seq<Channel>, failing: set<Op>, args: seq<string>,
                  number: string -> Option<real>): PsuEffect
    requires k < |CommandNames|
  {
    if k == 0 then Status(chans, failing)
    else if k == 1 then Enable(chans, failing, args)
    else if k == 2 then SetpointCommand(VoltageSetpoint, chans, failing, args, number)
    else if k == 3 then SetpointCommand(CurrentSetpoint, chans, failing, args, number)
    else if k == 4 then ReadbackCommand(VoltageReadback, chans, failing, args)
    else if k == 5 then ReadbackCommand(CurrentReadback, chans, failing, args)
    else ReadbackCommand(PowerReadback, chans, failing, args)
  }

  /** What the router's decision does once the instrument is connected. */
  function Routed(chans: seq<Channel>, failing: set<Op>, args: seq<string>, number: string -> Option<real>): PsuEffect {
    match RunCommand(Table(), args)
    case Failed(e) => Refused(e, chans)
    case Help(texts) => Effect(Success, [], TextLines(texts), chans)
    case Dispatch(k) => Invoke(k, chans, failing, args, number)
  }

  /** What `handle_command` does once connected: the status view for bare arguments, else the routed command. */
  function AfterConnect(chans: seq<Channel>, failing: set<Op>, args: seq<string>, number: string -> Option<real>): PsuEffect {
    if args == [] then Status(chans, failing) else Routed(chans, failing, args, number)
  }

  /** `handle_command`: connect first; a failed connection ends the command. */
  function Handle(chans: seq<Channel>, failing: set<Op>, args: seq<string>, number: string -> Option<real>): PsuEffect {
    if Connect in failing then Effect(Failure(DeviceFault), [Connect], [], chans)
    else
      var e := AfterConnect(chans, failing, args, number);
      e.(ops := [Connect] + e.ops)
  }

  // ---------------------------------------------------------------------
  // Properties of the power-supply commands
  // ---------------------------------------------------------------------

  /** The names the table registers, in order. */
  const CommandNames := ["status", "enable", "set_voltage", "set_current", "read_voltage", "read_current", "read_power"]

  lemma TableNames()
    ensures Cmds(Table().handlers) == CommandNames
  { }

  lemma MatchesS()
    ensures Candidates(CommandNames, "s") == [0, 2, 3]
  {
    var ns := CommandNames;
    NotPrefixAt(ns[1], "s", 0);
    NotPrefixAt(ns[4], "s", 0);
    NotPrefixAt(ns[5], "s", 0);
    NotPrefixAt(ns[6], "s", 0);
    CandidatesAre(ns, "s", [0, 2, 3]);
  }

  /** `s` starts three names: ambiguous, listing them in table order. */
  lemma RouteS(rest: seq<string>)
    ensures RunCommand(Table(), ["s"] + rest) == Failed(Ambiguous(["status", "set_voltage", "set_current"]))
  {
    var picked := Pick(CommandNames, [0, 2, 3]);
    assert picked == ["status", "set_voltage", "set_current"];
    MatchesS();
    TableNames();
    assert RunCommand(Table(), ["s"] + rest) == Failed(Ambiguous(picked));
  }

  lemma MatchesSet()
    ensures Candidates(CommandNames, "set") == [2, 3]
  {
    var ns := CommandNames;
    NotPrefixAt(ns[0], "set", 1);
    NotPrefixAt(ns[1], "set", 0);
    NotPrefixAt(ns[4], "set", 0);
    NotPrefixAt(ns[5], "set", 0);
    NotPrefixAt(ns[6], "set", 0);
    CandidatesAre(ns, "set", [2, 3]);
  }

  /** `set` starts both set point names: ambiguous. */
  lemma RouteSet(rest: seq<string>)
    ensures RunCommand(Table(), ["set"] + rest) == Failed(Ambiguous(["set_voltage", "set_current"]))
  {
    var picked := Pick(CommandNames, [2, 3]);
    assert picked == ["set_voltage", "set_current"];
    MatchesSet();
    TableNames();
    assert RunCommand(Table(), ["set"] + rest) == Failed(Ambiguous(picked));
  }

  lemma MatchesRead()
    ensures Candidates(CommandNames, "read") == [4, 5, 6]
  {
    var ns := CommandNames;
    NotPrefixAt(ns[0], "read", 0);
    NotPrefixAt(ns[1], "read", 0);
    NotPrefixAt(ns[2], "read", 0);
    NotPrefixAt(ns[3], "read", 0);
    CandidatesAre(ns, "read", [4, 5, 6]);
  }

  /** `read` starts all three readback names: ambiguous. */
  lemma RouteRead(rest: seq<string>)
    ensures RunCommand(Table(), ["read"] + rest) == Failed(Ambiguous(["read_voltage", "read_current", "read_power"]))
  {
    var picked := Pick(CommandNames, [4, 5, 6]);
    assert picked == ["read_voltage", "read_current", "read_power"];
    MatchesRead();
    TableNames();
    assert RunCommand(Table(), ["read"] + rest) == Failed(Ambiguous(picked));
  }

  lemma MatchesSt()
    ensures Candidates(CommandNames, "st") == [0]
  {
    var ns := CommandNames;
    NotPrefixAt(ns[1], "st", 0);
    NotPrefixAt(ns[2], "st", 1);
    NotPrefixAt(ns[3], "st", 1);
    NotPrefixAt(ns[4], "st", 0);
    NotPrefixAt(ns[5], "st", 0);
    NotPrefixAt(ns[6], "st", 0);
    CandidatesAre(ns, "st", [0]);
  }

  /** `st` selects `status`. */
  lemma RouteSt(rest: seq<string>)
    ensures RunCommand(Table(), ["st"] + rest) == Dispatch(0)
  {
    MatchesSt();
    TableNames();
  }

  lemma MatchesE()
    ensures Candidates(CommandNames, "e") == [1]
  {
    var ns := CommandNames;
    NotPrefixAt(ns[0], "e", 0);
    NotPrefixAt(ns[2], "e", 0);
    NotPrefixAt(ns[3], "e", 0);
    NotPrefixAt(ns[4], "e", 0);
    NotPrefixAt(ns[5], "e", 0);
    NotPrefixAt(ns[6], "e", 0);
    CandidatesAre(ns, "e", [1]);
  }

  /** `e` selects `enable`. */
  lemma RouteE(rest: seq<string>)
    ensures RunCommand(Table(), ["e"] + rest) == Dispatch(1)
  {
    MatchesE();
    TableNames();
  }

  lemma MatchesSetV()
    ensures Candidates(CommandNames, "set_v") == [2]
  {
    var ns := CommandNames;
    NotPrefixAt(ns[0], "set_v", 1);
    NotPrefixAt(ns[1], "set_v", 0);
    NotPrefixAt(ns[3], "set_v", 4);
    NotPrefixAt(ns[4], "set_v", 0);
    NotPrefixAt(ns[5], "set_v", 0);
    NotPrefixAt(ns[6], "set_v", 0);
    CandidatesAre(ns, "set_v", [2]);
  }

  /** `set_v` selects `set_voltage`. */
  lemma RouteSetV(rest: seq<string>)
    ensures RunCommand(Table(), ["set_v"] + rest) == Dispatch(2)
  {
    MatchesSetV();
    TableNames();
  }

  lemma MatchesSetC()
    ensures Candidates(CommandNames, "set_c") == [3]
  {
    var ns := CommandNames;
    NotPrefixAt(ns[0], "set_c", 1);
    NotPrefixAt(ns[1], "set_c", 0);
    NotPrefixAt(ns[2], "set_c", 4);
    NotPrefixAt(ns[4], "set_c", 0);
    NotPrefixAt(ns[5], "set_c", 0);
    NotPrefixAt(ns[6], "set_c", 0);
    CandidatesAre(ns, "set_c", [3]);
  }

  /** `set_c` selects `set_current`. */
  lemma RouteSetC(rest: seq<string>)
    ensures RunCommand(Table(), ["set_c"] + rest) == Dispatch(3)
  {
    MatchesSetC();
    TableNames();
  }

  lemma MatchesReadV()
    ensures Candidates(CommandNames, "read_v") == [4]
  {
    var ns := CommandNames;
    NotPrefixAt(ns[0], "read_v", 0);
    NotPrefixAt(ns[1], "read_v", 0);
    NotPrefixAt(ns[2], "read_v", 0);
    NotPrefixAt(ns[3], "read_v", 0);
    NotPrefixAt(ns[5], "read_v", 5);
    NotPrefixAt(ns[6], "read_v", 5);
    CandidatesAre(ns, "read_v", [4]);
  }

  /** `read_v` selects `read_voltage`. */
  lemma RouteReadV(rest: seq<string>)
    ensures RunCommand(Table(), ["read_v"] + rest) == Dispatch(4)
  {
    MatchesReadV();
    TableNames();
  }

  lemma MatchesReadC()
    ensures Candidates(CommandNames, "read_c") == [5]
  {
    var ns := CommandNames;
    NotPrefixAt(ns[0], "read_c", 0);
    NotPrefixAt(ns[1], "read_c", 0);
    NotPrefixAt(ns[2], "read_c", 0);
    NotPrefixAt(ns[3], "read_c", 0);
    NotPrefixAt(ns[4], "read_c", 5);
    NotPrefixAt(ns[6], "read_c", 5);
    CandidatesAre(ns, "read_c", [5]);
  }

  /** `read_c` selects `read_current`. */
  lemma RouteReadC(rest: seq<string>)
    ensures RunCommand(Table(), ["read_c"] + rest) == Dispatch(5)
  {
    MatchesReadC();
    TableNames();
  }

  lemma MatchesReadP()
    ensures Candidates(CommandNames, "read_p") == [6]
  {
    var ns := CommandNames;
    NotPrefixAt(ns[0], "read_p", 0);
    NotPrefixAt(ns[1], "read_p", 0);
    NotPrefixAt(ns[2], "read_p", 0);
    NotPrefixAt(ns[3], "read_p", 0);
    NotPrefixAt(ns[4], "read_p", 5);
    NotPrefixAt(ns[5], "read_p", 5);
    CandidatesAre(ns, "read_p", [6]);
  }

  /** `read_p` selects `read_power`. */
  lemma RouteReadP(rest: seq<string>)
    ensures RunCommand(Table(), ["read_p"] + rest) == Dispatch(6)
  {
    MatchesReadP();
    TableNames();
  }

  /** A token that starts no name (other than `help`) fails with the no-match error naming it. */
  lemma RouteUnknown(token: string, rest: seq<string>)
    requires token != "help"
    requires forall i :: 0 <= i < |CommandNames| ==> !StartsWith(CommandNames[i], token)
    ensures RunCommand(Table(), [token] + rest) == Failed(NoMatch(token))
  {
    TableNames();
    NoMatchExactly(Table(), [token] + rest);
  }

  /** A registered name that no other name starts with selects its own handler. */
  lemma OnlyMatchSelects(i: nat, rest: seq<string>)
    requires i < |CommandNames| && Candidates(CommandNames, CommandNames[i]) == [i]
    ensures RunCommand(Table(), [CommandNames[i]] + rest) == Dispatch(i)
  {
    TableNames();
  }

  /**
   * No name in the table is a prefix of another, so every full name selects
   * its own handler: each name narrows the abbreviation that already selects it.
   */
  lemma FullNameSelects(i: nat, rest: seq<string>)
    requires i < |CommandNames|
    ensures RunCommand(Table(), [CommandNames[i]] + rest) == Dispatch(i)
  {
    var ns := CommandNames;
    if i == 0 {
      assert Candidates(ns, ns[0]) == [0] by { MatchesSt(); NarrowedToken(ns, "st", ns[0], 0); }
    } else if i == 1 {
      assert Candidates(ns, ns[1]) == [1] by { MatchesE(); NarrowedToken(ns, "e", ns[1], 1); }
    } else if i == 2 {
      assert Candidates(ns, ns[2]) == [2] by { MatchesSetV(); NarrowedToken(ns, "set_v", ns[2], 2); }
    } else if i == 3 {
      assert Candidates(ns, ns[3]) == [3] by { MatchesSetC(); NarrowedToken(ns, "set_c", ns[3], 3); }
    } else if i == 4 {
      assert Candidates(ns, ns[4]) == [4] by { MatchesReadV(); NarrowedToken(ns, "read_v", ns[4], 4); }
    } else if i == 5 {
      assert Candidates(ns, ns[5]) == [5] by { MatchesReadC(); NarrowedToken(ns, "read_c", ns[5], 5); }
    } else {
      assert Candidates(ns, ns[6]) == [6] by { MatchesReadP(); NarrowedToken(ns, "read_p", ns[6], 6); }
    }
    OnlyMatchSelects(i, rest);
  }

  /** The instrument is connected before anything else, and a failed connection ends the command. */
  lemma ConnectFirst(chans: seq<Channel>, failing: set<Op>, args: seq<string>, number: string -> Option<real>)
    ensures var e := Handle(chans, failing, args, number);
      |e.ops| >= 1 && e.ops[0] == Connect
      && (Connect in failing <==> e.ops == [Connect] && e.outcome == Failure(DeviceFault))
      && (Connect in failing ==> e.lines == [] && e.after == chans)
  {
  }

  /** With no arguments the status view is shown, without consulting the table. */
  lemma BareArgsShowStatus(chans: seq<Channel>, failing: set<Op>, number: string -> Option<real>)
    requires Connect !in failing
    ensures var e := Handle(chans, failing, [], number);
      e == Status(chans, failing).(ops := [Connect] + Status(chans, failing).ops)
  {
  }

  /** `help` lists the power-supply table once connected, and makes no further call. */
  lemma HelpListsTable(chans: seq<Channel>, failing: set<Op>, rest: seq<string>, number: string -> Option<real>)
    requires Connect !in failing
    ensures Handle(chans, failing, ["help"] + rest, number)
         == Effect(Success, [Connect], TextLines(HelpListing(Table())), chans)
  {
  }

  /** The argument counts handler `k` accepts: any for `status`, two or three for a get/set, two for a readback. */
  predicate ArityOk(k: nat, n: nat) {
    if k == 0 then true else if k <= 3 then 2 <= n <= 3 else n == 2
  }

  /**
   * A usage error is reported exactly when the argument count is wrong, and
   * then before any call on the instrument.
   */
  lemma UsageBeforeAnyCall(k: nat, chans: seq<Channel>, failing: set<Op>, args: seq<string>,
                           number: string -> Option<real>)
    requires k < |CommandNames|
    ensures var e := Invoke(k, chans, failing, args, number);
      (e.outcome.Failure? && e.outcome.error.Usage?) <==> !ArityOk(k, |args|)
    ensures !ArityOk(k, |args|) ==>
      var e := Invoke(k, chans, failing, args, number);
      e.ops == [] && e.lines == [] && e.after == chans
  {
  }

  /**
   * The channel selector is parsed before any call: one that is not an
   * unsigned integer fails with no call made; a channel that does not exist
   * fails after asking for it and without taking any guard.
   */
  lemma SelectorResolvedFirst(k: nat, chans: seq<Channel>, failing: set<Op>, args: seq<string>,
                              number: string -> Option<real>)
    requires 1 <= k < |CommandNames| && ArityOk(k, |args|)
    ensures ParseIndex(args[1]).None? ==> Invoke(k, chans, failing, args, number) == Refused(BadIndex, chans)
    ensures ParseIndex(args[1]).Some? && ParseIndex(args[1]).value >= |chans| ==>
      var e := Invoke(k, chans, failing, args, number);
      var i := ParseIndex(args[1]).value;
      e.ops == [GetChannel(i)] && e.outcome in {Failure(DeviceFault), Failure(NoChannel(i))}
      && e.lines == [] && e.after == chans
  {
  }

  /**
   * Only a set that the instrument accepted changes the channels, and then
   * only the selected one.
   */
  lemma WritesOnlyOnAcceptedSet(k: nat, chans: seq<Channel>, failing: set<Op>, args: seq<string>,
                                number: string -> Option<real>)
    requires k < |CommandNames|
    ensures var e := Invoke(k, chans, failing, args, number);
      |e.after| == |chans|
      && (e.after != chans ==>
            1 <= k <= 3 && |args| == 3 && e.outcome == Success && ParseIndex(args[1]).Some?
            && forall j :: 0 <= j < |chans| && j != ParseIndex(args[1]).value ==> e.after[j] == chans[j])
  {
  }

  /** A query (the status view, a get, a readback) changes nothing and calls no setter. */
  lemma QueriesAreReadOnly(k: nat, chans: seq<Channel>, failing: set<Op>, args: seq<string>,
                           number: string -> Option<real>)
    requires k < |CommandNames| && (k == 0 || |args| != 3)
    ensures var e := Invoke(k, chans, failing, args, number);
      e.after == chans && ReadOnly(e.ops)
  {
    if k == 0 {
      StatusReadOnly(chans, failing);
    } else if k == 1 {
      EnableGetReadOnly(chans, failing, args);
    } else if k <= 3 {
      SetpointGetReadOnly(if k == 2 then VoltageSetpoint else CurrentSetpoint, chans, failing, args, number);
    } else {
      ReadbackReadOnly(if k == 4 then VoltageReadback else if k == 5 then CurrentReadback else PowerReadback,
                       chans, failing, args);
    }
  }

  lemma EnableGetReadOnly(chans: seq<Channel>, failing: set<Op>, args: seq<string>)
    requires |args| != 3
    ensures var e := Enable(chans, failing, args);
      e.after == chans && ReadOnly(e.ops)
  {
  }

  lemma SetpointGetReadOnly(sp: Setpoint, chans: seq<Channel>, failing: set<Op>, args: seq<string>,
                            number: string -> Option<real>)
    requires |args| != 3
    ensures var e := SetpointCommand(sp, chans, failing, args, number);
      e.after == chans && ReadOnly(e.ops)
  {
  }

  lemma ReadbackReadOnly(rb: Readback, chans: seq<Channel>, failing: set<Op>, args: seq<string>)
    ensures var e := ReadbackCommand(rb, chans, failing, args);
      e.after == chans && ReadOnly(e.ops)
  {
  }

  /** The status view calls no setter. */
  lemma StatusReadOnly(chans: seq<Channel>, failing: set<Op>)
    ensures ReadOnly(Status(chans, failing).ops)
  {
    var plan := Plan(chans, StatusQueries);
    if GetChannels !in failing {
      SweepAvoids(plan, failing, |chans|, IsSetter);
    }
  }

  /** Every channel guard taken is released, on every path of every handler. */
  lemma HandlersReleaseGuards(k: nat, chans: seq<Channel>, failing: set<Op>, args: seq<string>,
                              number: string -> Option<real>)
    requires k < |CommandNames|
    ensures GuardsReleased(Invoke(k, chans, failing, args, number).ops)
  {
    if k == 0 {
      StatusReleasesGuards(chans, failing);
    } else if k == 1 {
      EnableReleasesGuards(chans, failing, args);
    } else if k <= 3 {
      SetpointReleasesGuards(if k == 2 then VoltageSetpoint else CurrentSetpoint, chans, failing, args, number);
    } else {
      ReadbackReleasesGuards(if k == 4 then VoltageReadback else if k == 5 then CurrentReadback else PowerReadback,
                             chans, failing, args);
    }
  }

  lemma EnableReleasesGuards(chans: seq<Channel>, failing: set<Op>, args: seq<string>)
    ensures GuardsReleased(Enable(chans, failing, args).ops)
  {
    if 2 <= |args| <= 3 && Resolve(|chans|, failing, args[1]).Found? {
      var i := Resolve(|chans|, failing, args[1]).index;
      WithinReleases(i, EnableAt(chans, failing, i, args));
    } else {
      CallsReleased(Enable(chans, failing, args).ops);
    }
  }

  lemma SetpointReleasesGuards(sp: Setpoint, chans: seq<Channel>, failing: set<Op>, args: seq<string>,
                               number: string -> Option<real>)
    ensures GuardsReleased(SetpointCommand(sp, chans, failing, args, number).ops)
  {
    if 2 <= |args| <= 3 && Resolve(|chans|, failing, args[1]).Found? {
      var i := Resolve(|chans|, failing, args[1]).index;
      WithinReleases(i, SetpointAt(sp, chans, failing, i, args, number));
    } else {
      CallsReleased(SetpointCommand(sp, chans, failing, args, number).ops);
    }
  }

  lemma ReadbackReleasesGuards(rb: Readback, chans: seq<Channel>, failing: set<Op>, args: seq<string>)
    ensures GuardsReleased(ReadbackCommand(rb, chans, failing, args).ops)
  {
    if |args| == 2 && Resolve(|chans|, failing, args[1]).Found? {
      var i := Resolve(|chans|, failing, args[1]).index;
      WithinReleases(i, Settled(Attempt(Query(rb.Read(i), [Shown(Reading(rb.Unit(), rb.Of(chans[i])))]), failing), chans));
    } else {
      CallsReleased(ReadbackCommand(rb, chans, failing, args).ops);
    }
  }

  /** The status view releases each channel's guard before taking the next. */
  lemma StatusReleasesGuards(chans: seq<Channel>, failing: set<Op>)
    ensures GuardsReleased(Status(chans, failing).ops)
  {
    var plan := Plan(chans, StatusQueries);
    if GetChannels !in failing {
      SweepReleasesGuards(plan, failing, |chans|);
      TrackAppend(Free, [GetChannels], Sweep(plan, failing, |chans|).ops);
    }
  }

  /** The whole command, connection included, releases every guard it takes. */
  lemma HandleReleasesGuards(chans: seq<Channel>, failing: set<Op>, args: seq<string>, number: string -> Option<real>)
    ensures GuardsReleased(Handle(chans, failing, args, number).ops)
  {
    if Connect !in failing {
      var e := AfterConnect(chans, failing, args, number);
      if args == [] {
        StatusReleasesGuards(chans, failing);
      } else {
        match RunCommand(Table(), args)
        case Dispatch(k) => HandlersReleaseGuards(k, chans, failing, args, number);
        case _ =>
      }
      TrackAppend(Free, [Connect], e.ops);
    }
  }

  /** The status view visits the channels in enumeration order, each once, all of them when it succeeds. */
  lemma StatusVisitsInOrder(chans: seq<Channel>, failing: set<Op>)
    ensures var e := Status(chans, failing); var locked := Locked(e.ops);
      (forall k :: 0 <= k < |locked| ==> locked[k] == k)
      && (e.outcome == Success ==> |locked| == |chans|)
  {
    var plan := Plan(chans, StatusQueries);
    if GetChannels !in failing {
      SweepVisitsInOrder(plan, failing, |chans|);
      LockedAppend([GetChannels], Sweep(plan, failing, |chans|).ops);
      LockedCalls([GetChannels]);
    }
  }

  /** The seven lines the status view prints for one channel. */
  function StatusLines(c: Channel): seq<Line> {
    [ Text("Channel " + c.name), Text("  state: " + BoolText(c.enabled)),
      Number("  set voltage:  ", c.voltage, " V"), Number("  set current:  ", c.current, " A"),
      Number("  read voltage: ", c.readVoltage, " V"), Number("  read current: ", c.readCurrent, " A"),
      Number("  read power:   ", c.readPower, " W") ]
  }

  lemma StatusQueriesLines(c: Channel, i: nat)
    ensures Lines(StatusQueries(c, i)) == StatusLines(c)
  {
    LinesOfSingles(StatusQueries(c, i));
  }

  /** The status view succeeds exactly when the instrument rejects none of its calls. */
  lemma StatusSucceeds(chans: seq<Channel>, failing: set<Op>)
    ensures Status(chans, failing).outcome == Success
        <==> (GetChannels !in failing
              && forall i, k :: 0 <= i < |chans| && 0 <= k < 7 ==> StatusQueries(chans[i], i)[k].op !in failing)
  {
    var plan := Plan(chans, StatusQueries);
    SweepSucceeds(plan, failing, |chans|);
    assert forall i :: 0 <= i < |chans| ==> plan[i] == StatusQueries(chans[i], i);
  }

  /**
   * A successful status view prints, for every channel in channel order, its
   * seven lines: its name, its state, its set points and its readbacks.
   */
  lemma StatusShowsEveryChannel(chans: seq<Channel>, failing: set<Op>)
    ensures var e := Status(chans, failing);
      e.outcome == Success ==> e.lines == Concat(Blocks(chans, StatusLines))
  {
    forall c, i ensures Lines(StatusQueries(c, i)) == StatusLines(c) {
      StatusQueriesLines(c, i);
    }
    SweepShowsEveryChannel(chans, StatusQueries, StatusLines, failing);
  }

  /** Every displayed state is read back by the enable command. */
  lemma StateRoundTrip(b: bool)
    ensures ParseState(BoolText(b)) == Some(b)
  {
  }

  /** The words for "off", case-insensitively: `0`, `off` and `false`. */
  lemma OffVocabulary(text: string)
    ensures ParseState(text) == Some(false)
        <==> EqualsIgnoringCase(text, "0") || EqualsIgnoringCase(text, "off") || EqualsIgnoringCase(text, "false")
  {
    LowerMatchesIgnoringCase(text, "0");
    LowerMatchesIgnoringCase(text, "off");
    LowerMatchesIgnoringCase(text, "false");
  }

  /** The words for "on", case-insensitively: `1`, `on` and `true`. */
  lemma OnVocabulary(text: string)
    ensures ParseState(text) == Some(true)
        <==> EqualsIgnoringCase(text, "1") || EqualsIgnoringCase(text, "on") || EqualsIgnoringCase(text, "true")
  {
    LowerMatchesIgnoringCase(text, "1");
    LowerMatchesIgnoringCase(text, "on");
    LowerMatchesIgnoringCase(text, "true");
  }

  /**
   * `enable` with a state: the value is matched, lower-cased, under the
   * channel's guard. A value outside the vocabulary fails naming the text as
   * given, with no set; an accepted value is set, and a successful set
   * changes that channel's state and nothing else.
   */
  lemma EnableSetOnlyParsed(chans: seq<Channel>, failing: set<Op>, sel: string, text: string, i: nat)
    requires Resolve(|chans|, failing, sel) == Found(i)
    ensures var e := Enable(chans, failing, ["enable", sel, text]);
      (ParseState(text).None? ==>
         e == Effect(Failure(InvalidState(text)), [GetChannel(i), Lock(i), Unlock(i)], [], chans))
      && (ParseState(text).Some? ==>
         var on := ParseState(text).value;
         e.ops == [GetChannel(i), Lock(i), SetEnabled(i, on), Unlock(i)] && e.lines == []
         && (e.outcome == Success <==> SetEnabled(i, on) !in failing)
         && e.after == (if e.outcome == Success then chans[i := chans[i].(enabled := on)] else chans))
  {
  }

  /**
   * `set_voltage` and `set_current` with a value: the value is parsed under
   * the channel's guard. A value that does not parse fails with no set; a
   * parsed one is set, and a successful set changes that set point of that
   * channel and nothing else.
   */
  lemma SetpointSetOnlyParsed(sp: Setpoint, chans: seq<Channel>, failing: set<Op>, sel: string, text: string,
                              number: string -> Option<real>, i: nat)
    requires Resolve(|chans|, failing, sel) == Found(i)
    ensures var e := SetpointCommand(sp, chans, failing, ["set", sel, text], number);
      (number(text).None? ==>
         e == Effect(Failure(BadValue), [GetChannel(i), Lock(i), Unlock(i)], [], chans))
      && (number(text).Some? ==>
         var v := number(text).value;
         e.ops == [GetChannel(i), Lock(i), sp.Set(i, v), Unlock(i)] && e.lines == []
         && (e.outcome == Success <==> sp.Set(i, v) !in failing)
         && e.after == (if e.outcome == Success then chans[i := sp.With(chans[i], v)] else chans))
  {
  }

  /** On the modelled instrument, a state that was set is the state read back, if the read succeeds. */
  lemma EnableThenGet(chans: seq<Channel>, failing: set<Op>, sel: string, text: string)
    requires Enable(chans, failing, ["enable", sel, text]).outcome == Success
    ensures ParseState(text).Some?
    ensures var e := Enable(Enable(chans, failing, ["enable", sel, text]).after, failing, ["enable", sel]);
      e.outcome == Success ==> e.lines == [Text(BoolText(ParseState(text).value))]
  {
  }

  /** On the modelled instrument, a set point that was set is the value read back, if the read succeeds. */
  lemma SetpointThenGet(sp: Setpoint, chans: seq<Channel>, failing: set<Op>, sel: string, text: string,
                        number: string -> Option<real>)
    requires SetpointCommand(sp, chans, failing, ["set", sel, text], number).outcome == Success
    ensures number(text).Some?
    ensures var e := SetpointCommand(sp, SetpointCommand(sp, chans, failing, ["set", sel, text], number).after,
                                     failing, ["set", sel], number);
      e.outcome == Success ==> e.lines == [Shown(Reading(sp.Unit(), number(text).value))]
  {
  }

  // ---------------------------------------------------------------------
  // The command module over a power supply's state
  // ---------------------------------------------------------------------

  class PowerSupply {
    const channels: array<Channel>
    const session: Session

    constructor (channels: array<Channel>, session: Session)
      ensures this.channels == channels && this.session == session
    {
      this.channels := channels;
      this.session := session;
    }

    /** `handle_command`. */
    method HandleCommand(args: seq<string>, number: string -> Option<real>) returns (r: Outcome)
      modifies session, channels
      ensures var e := Handle(old(channels[..]), session.failing, args, number);
        r == e.outcome && session.trace == old(session.trace) + e.ops
        && session.output == old(session.output) + e.lines && channels[..] == e.after
    {
      var connected := session.Call(Query(Connect, []));
      if !connected {
        return Failure(DeviceFault);
      }
      ghost var e := AfterConnect(old(channels[..]), session.failing, args, number);
      r := Connected(args, number);
      Regroup(old(session.trace), [Connect], e.ops);
    }

    /** What `handle_command` does once connected. */
    method Connected(args: seq<string>, number: string -> Option<real>) returns (r: Outcome)
      modifies session, channels
      ensures var e := AfterConnect(old(channels[..]), session.failing, args, number);
        r == e.outcome && session.trace == old(session.trace) + e.ops
        && session.output == old(session.output) + e.lines && channels[..] == e.after
    {
      if args == [] {
        r := CommandStatus();
      } else {
        r := RouteCommand(args, number);
      }
    }

    /** `Commands::run_command` over the power-supply table, then the chosen handler. */
    method RouteCommand(args: seq<string>, number: string -> Option<real>) returns (r: Outcome)
      modifies session, channels
      ensures var e := Routed(old(channels[..]), session.failing, args, number);
        r == e.outcome && session.trace == old(session.trace) + e.ops
        && session.output == old(session.output) + e.lines && channels[..] == e.after
    {
      match RunCommand(Table(), args)
      case Failed(e) =>
        r := Failure(e);
      case Help(texts) =>
        session.Print(texts);
        r := Success;
      case Dispatch(k) =>
        r := RunHandler(k, args, number);
    }

    /** Run the handler registered at index `k` with the full argument list. */
    method RunHandler(k: nat, args: seq<string>, number: string -> Option<real>) returns (r: Outcome)
      requires k < |CommandNames|
      modifies session, channels
      ensures var e := Invoke(k, old(channels[..]), session.failing, args, number);
        r == e.outcome && session.trace == old(session.trace) + e.ops
        && session.output == old(session.output) + e.lines && channels[..] == e.after
    {
      if k == 0 {
        r := CommandStatus();
      } else if k == 1 {
        r := CommandEnable(args);
      } else if k == 2 {
        r := CommandSetpoint(VoltageSetpoint, args, number);
      } else if k == 3 {
        r := CommandSetpoint(CurrentSetpoint, args, number);
      } else if k == 4 {
        r := CommandReadback(VoltageReadback, args);
      } else if k == 5 {
        r := CommandReadback(CurrentReadback, args);
      } else {
        r := CommandReadback(PowerReadback, args);
      }
    }

    /** `command_status`: every channel in enumeration order, until a call fails. */
    method CommandStatus() returns (r: Outcome)
      modifies session
      ensures var e := Status(channels[..], session.failing);
        r == e.outcome && session.trace == old(session.trace) + e.ops
        && session.output == old(session.output) + e.lines
    {
      var ok := session.Call(Query(GetChannels, []));
      if !ok {
        return Failure(DeviceFault);
      }
      var plan := Plan(channels[..], StatusQueries);
      ok := session.VisitAll(plan);
      Regroup(old(session.trace), [GetChannels], Sweep(plan, session.failing, channels.Length).ops);
      r := Settle(ok);
    }

    /** `command_enable`. */
    method CommandEnable(args: seq<string>) returns (r: Outcome)
      modifies session, channels
      ensures var e := Enable(old(channels[..]), session.failing, args);
        r == e.outcome && session.trace == old(session.trace) + e.ops
        && session.output == old(session.output) + e.lines && channels[..] == e.after
    {
      if |args| < 2 || |args| > 3 {
        return Failure(Usage(EnableUsage));
      }
      var found := session.Lookup(channels.Length, args[1]);
      if found.NotFound? {
        return Failure(found.error);
      }
      session.Acquire(found.index);
      r := EnableChannel(found.index, args);
      session.Release(found.index);
    }

    /** `command_enable` on channel `i` while holding its guard. */
    method EnableChannel(i: nat, args: seq<string>) returns (r: Outcome)
      requires i < channels.Length && 2 <= |args| <= 3
      modifies session, channels
      ensures var e := EnableAt(old(channels[..]), session.failing, i, args);
        r == e.outcome && session.trace == old(session.trace) + e.ops
        && session.output == old(session.output) + e.lines && channels[..] == e.after
    {
      if |args| == 2 {
        var ok := session.Call(Query(GetEnabled(i), [Text(BoolText(channels[i].enabled))]));
        return Settle(ok);
      }
      match ParseState(args[2])
      case None =>
        r := Failure(InvalidState(args[2]));
      case Some(on) =>
        var ok := session.Call(Query(SetEnabled(i, on), []));
        if ok {
          channels[i] := channels[i].(enabled := on);
        }
        r := Settle(ok);
    }

    /** `command_set_voltage` and `command_set_current`. */
    method CommandSetpoint(sp: Setpoint, args: seq<string>, number: string -> Option<real>) returns (r: Outcome)
      modifies session, channels
      ensures var e := SetpointCommand(sp, old(channels[..]), session.failing, args, number);
        r == e.outcome && session.trace == old(session.trace) + e.ops
        && session.output == old(session.output) + e.lines && channels[..] == e.after
    {
      if |args| < 2 || |args| > 3 {
        return Failure(Usage(sp.Usage()));
      }
      var found := session.Lookup(channels.Length, args[1]);
      if found.NotFound? {
        return Failure(found.error);
      }
      session.Acquire(found.index);
      r := SetpointChannel(sp, found.index, args, number);
      session.Release(found.index);
    }

    /** A set point handler on channel `i` while holding its guard. */
    method SetpointChannel(sp: Setpoint, i: nat, args: seq<string>, number: string -> Option<real>) returns (r: Outcome)
      requires i < channels.Length && 2 <= |args| <= 3
      modifies session, channels
      ensures var e := SetpointAt(sp, old(channels[..]), session.failing, i, args, number);
        r == e.outcome && session.trace == old(session.trace) + e.ops
        && session.output == old(session.output) + e.lines && channels[..] == e.after
    {
      if |args| == 2 {
        var ok := session.Call(Query(sp.Get(i), [Shown(Reading(sp.Unit(), sp.Of(channels[i])))]));
        return Settle(ok);
      }
      match number(args[2])
      case None =>
        r := Failure(BadValue);
      case Some(v) =>
        var ok := session.Call(Query(sp.Set(i, v), []));
        if ok {
          channels[i] := sp.With(channels[i], v);
        }
        r := Settle(ok);
    }

    /** `command_read_voltage`, `command_read_current` and `command_read_power`. */
    method CommandReadback(rb: Readback, args: seq<string>) returns (r: Outcome)
      modifies session
      ensures var e := ReadbackCommand(rb, channels[..], session.failing, args);
        r == e.outcome && session.trace == old(session.trace) + e.ops
        && session.output == old(session.output) + e.lines
    {
      if |args| != 2 {
        return Failure(Usage(rb.Usage()));
      }
      var found := session.Lookup(channels.Length, args[1]);
      if found.NotFound? {
        return Failure(found.error);
      }
      var i := found.index;
      session.Acquire(i);
      var ok := session.Call(Query(rb.Read(i), [Shown(Reading(rb.Unit(), rb.Of(channels[i])))]));
      r := Settle(ok);
      session.Release(i);
    }
  }
}
