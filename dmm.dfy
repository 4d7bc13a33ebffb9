/**
 * The multimeter command module: connect, show the trigger source and every
 * channel's mode when no command is given, otherwise route the command
 * through the multimeter handler table.
 *
 * As for the power supply, each handler is specified by a function to an
 * `Effect` (outcome, calls in order, lines printed, state afterwards), the
 * `Multimeter` methods are proved to have exactly that effect, and the
 * properties of the handlers are lemmas about the functions. The state is
 * the instrument's trigger source and its channels.
 */
module Dmm {
  import opened Prelude
  import opened Parsing
  import opened Command
  import opened Instrument

  /** A multimeter channel: its name, its measurement mode and the reading it returns when asked. */
  datatype MeterChannel = MeterChannel(name: string, mode: Mode, reading: Reading)

  /** The multimeter: its trigger source and its channels. */
  datatype Meter = Meter(source: TriggerSource, chans: seq<MeterChannel>)

  /** What one command did to the multimeter. */
  type DmmEffect = Effect<Meter>

  /** The foreign grammars of the mode and trigger-source values, applied to lower-cased text. */
  datatype Grammars = Grammars(mode: string -> Option<Mode>, source: string -> Option<TriggerSource>)

  /** The handler table, in registration order. */
  function Table(): Commands {
    Commands("Multimeter", [
      CmdHdlr("status", "Show status"),
      CmdHdlrArgs("mode", "<chan> [<mode>]", "Get/set DMM channel mode"),
      CmdHdlrArgs("read", "<chan>", "Read current DMM channel reading"),
      CmdHdlrArgs("read_now", "<chan>", "Trigger DMM and get reading from channel"),
      CmdHdlrArgs("trig_source", "[<source>]", "Get/set DMM trigger source"),
      CmdHdlr("arm", "Arm trigger")
    ])
  }

  /** The names the table registers, in order. */
  const CommandNames := ["status", "mode", "read", "read_now", "trig_source", "arm"]

  lemma TableNames()
    ensures Cmds(Table().handlers) == CommandNames
  { }

  const ModeUsage := "Usage: ... mode <channel> [<mode>]"
  const ReadUsage := "Usage: ... read <channel>"
  const ReadNowUsage := "Usage: ... read_now <channel>"
  const TrigSourceUsage := "Usage: ... trig_source [<source>]"

  /** A call that takes or fires a measurement. */
  predicate Measures(op: Op) {
    op.GetReading? || op.TriggerArm? || op.TriggerNow?
  }

  // ---------------------------------------------------------------------
  // Handler specifications
  // ---------------------------------------------------------------------

  /** The queries the status view makes of one channel, with what each prints. */
  function StatusQueries(c: MeterChannel, i: nat): (qs: seq<Query>)
    ensures |qs| == 2
    ensures forall k :: 0 <= k < 2 ==>
      |qs[k].shows| == 1 && IsCall(qs[k].op) && !IsSetter(qs[k].op) && !Measures(qs[k].op)
      && qs[k].op != GetTriggerSource
  {
    [ Query(Name(i), [Text("Channel " + c.name)]),
      Query(GetMode(i), [Text("  mode: " + c.mode.name)]) ]
  }

  /** The line the status view opens with. */
  function SourceLine(src: TriggerSource): Line {
    Text("trig mode: " + src.name)
  }

  /** `command_status`: the trigger source, then each channel's name and mode; no measurement. */
  function Status(m: Meter, failing: set<Op>): DmmEffect {
    if GetTriggerSource in failing then Effect(Failure(DeviceFault), [GetTriggerSource], [], m)
    else if GetChannels in failing then
      Effect(Failure(DeviceFault), [GetTriggerSource, GetChannels], [SourceLine(m.source)], m)
    else
      var s := Sweep(Plan(m.chans, StatusQueries), failing, |m.chans|);
      Effect(Settle(s.ok), [GetTriggerSource, GetChannels] + s.ops, [SourceLine(m.source)] + s.lines, m)
  }

  /** `command_mode`. */
  function ModeCommand(m: Meter, failing: set<Op>, args: seq<string>, g: Grammars): DmmEffect {
    if |args| < 2 || |args| > 3 then Refused(Usage(ModeUsage), m)
    else match Resolve(|m.chans|, failing, args[1])
      case NotFound(e, ops) => Effect(Failure(e), ops, [], m)
      case Found(i) => Within(i, ModeAt(m, failing, i, args, g))
  }

  /** `command_mode` on channel `i` while holding its guard: get with two arguments, parse and set with three. */
  function ModeAt(m: Meter, failing: set<Op>, i: nat, args: seq<string>, g: Grammars): DmmEffect
    requires i < |m.chans| && 2 <= |args| <= 3
  {
    if |args| == 2 then Settled(Attempt(Query(GetMode(i), [Text(m.chans[i].mode.name)]), failing), m)
    else match g.mode(Lower(args[2]))
      case None => Refused(BadValue, m)
      case Some(mode) =>
        var r := Attempt(Query(SetMode(i, mode), []), failing);
        Settled(r, if r.ok then m.(chans := m.chans[i := m.chans[i].(mode := mode)]) else m)
  }

  /** `command_read`. */
  function ReadCommand(m: Meter, failing: set<Op>, args: seq<string>): DmmEffect {
    if |args| != 2 then Refused(Usage(ReadUsage), m)
    else match Resolve(|m.chans|, failing, args[1])
      case NotFound(e, ops) => Effect(Failure(e), ops, [], m)
      case Found(i) => Within(i, Settled(Attempt(Query(GetReading(i), [Shown(m.chans[i].reading)]), failing), m))
  }

  /** The calls `read_now` makes under channel `i`'s guard: arm, trigger, read. */
  function ReadNowQueries(c: MeterChannel, i: nat): seq<Query> {
    [Query(TriggerArm, []), Query(TriggerNow, []), Query(GetReading(i), [Shown(c.reading)])]
  }

  /** `command_read_now`. */
  function ReadNowCommand(m: Meter, failing: set<Op>, args: seq<string>): DmmEffect {
    if |args| != 2 then Refused(Usage(ReadNowUsage), m)
    else match Resolve(|m.chans|, failing, args[1])
      case NotFound(e, ops) => Effect(Failure(e), ops, [], m)
      case Found(i) => Within(i, Settled(RunQueries(ReadNowQueries(m.chans[i], i), failing), m))
  }

  /**
   * `command_trig_source`: get with one argument, parse and set with two. The
   * router never passes an empty argument list, which the source would index.
   */
  function TrigSourceCommand(m: Meter, failing: set<Op>, args: seq<string>, g: Grammars): DmmEffect
    requires args != []
  {
    if |args| > 2 then Refused(Usage(TrigSourceUsage), m)
    else if |args| == 1 then Settled(Attempt(Query(GetTriggerSource, [Text(m.source.name)]), failing), m)
    else match g.source(Lower(args[1]))
      case None => Refused(BadValue, m)
      case Some(src) =>
        var r := Attempt(Query(SetTriggerSource(src), []), failing);
        Settled(r, if r.ok then m.(source := src) else m)
  }

  /** `command_arm`: arm the trigger, whatever the arguments. */
  function Arm(m: Meter, failing: set<Op>): DmmEffect {
    Settled(Attempt(Query(TriggerArm, []), failing), m)
  }

  /** The handler registered at index `k` of the table, invoked with the full argument list. */
  function Invoke(k: nat, m: Meter, failing: set<Op>, args: seq<string>, g: Grammars): DmmEffect
    requires k < |CommandNames| && args != []
  {
    if k == 0 then Status(m, failing)
    else if k == 1 then ModeCommand(m, failing, args, g)
    else if k == 2 then ReadCommand(m, failing, args)
    else if k == 3 then ReadNowCommand(m, failing, args)
    else if k == 4 then TrigSourceCommand(m, failing, args, g)
    else Arm(m, failing)
  }

  /** What the router's decision does once the instrument is connected. */
  function Routed(m: Meter, failing: set<Op>, args: seq<string>, g: Grammars): DmmEffect {
    match RunCommand(Table(), args)
    case Failed(e) => Refused(e, m)
    case Help(texts) => Effect(Success, [], TextLines(texts), m)
    case Dispatch(k) => Invoke(k, m, failing, args, g)
  }

  /** What `handle_command` does once connected: the status view for bare arguments, else the routed command. */
  function AfterConnect(m: Meter, failing: set<Op>, args: seq<string>, g: Grammars): DmmEffect {
    if args == [] then Status(m, failing) else Routed(m, failing, args, g)
  }

  /** `handle_command`: connect first; a failed connection ends the command. */
  function Handle(m: Meter, failing: set<Op>, args: seq<string>, g: Grammars): DmmEffect {
    if Connect in failing then Effect(Failure(DeviceFault), [Connect], [], m)
    else
      var e := AfterConnect(m, failing, args, g);
      e.(ops := [Connect] + e.ops)
  }

  // ---------------------------------------------------------------------
  // Routing over the multimeter table
  // ---------------------------------------------------------------------

  lemma MatchesS()
    ensures Candidates(CommandNames, "s") == [0]
  {
    var ns := CommandNames;
    NotPrefixAt(ns[1], "s", 0);
    NotPrefixAt(ns[2], "s", 0);
    NotPrefixAt(ns[3], "s", 0);
    NotPrefixAt(ns[4], "s", 0);
    NotPrefixAt(ns[5], "s", 0);
    CandidatesAre(ns, "s", [0]);
  }

  lemma MatchesM()
    ensures Candidates(CommandNames, "m") == [1]
  {
    var ns := CommandNames;
    NotPrefixAt(ns[0], "m", 0);
    NotPrefixAt(ns[2], "m", 0);
    NotPrefixAt(ns[3], "m", 0);
    NotPrefixAt(ns[4], "m", 0);
    NotPrefixAt(ns[5], "m", 0);
    CandidatesAre(ns, "m", [1]);
  }

  lemma MatchesRead()
    ensures Candidates(CommandNames, "read") == [2, 3]
  {
    var ns := CommandNames;
    NotPrefixAt(ns[0], "read", 0);
    NotPrefixAt(ns[1], "read", 0);
    NotPrefixAt(ns[4], "read", 0);
    NotPrefixAt(ns[5], "read", 0);
    CandidatesAre(ns, "read", [2, 3]);
  }

  lemma MatchesReadUnderscore()
    ensures Candidates(CommandNames, "read_") == [3]
  {
    var ns := CommandNames;
    NotPrefixAt(ns[0], "read_", 0);
    NotPrefixAt(ns[1], "read_", 0);
    assert !StartsWith(ns[2], "read_");
    NotPrefixAt(ns[4], "read_", 0);
    NotPrefixAt(ns[5], "read_", 0);
    CandidatesAre(ns, "read_", [3]);
  }

  lemma MatchesT()
    ensures Candidates(CommandNames, "t") == [4]
  {
    var ns := CommandNames;
    NotPrefixAt(ns[0], "t", 0);
    NotPrefixAt(ns[1], "t", 0);
    NotPrefixAt(ns[2], "t", 0);
    NotPrefixAt(ns[3], "t", 0);
    NotPrefixAt(ns[5], "t", 0);
    CandidatesAre(ns, "t", [4]);
  }

  lemma MatchesA()
    ensures Candidates(CommandNames, "a") == [5]
  {
    var ns := CommandNames;
    NotPrefixAt(ns[0], "a", 0);
    NotPrefixAt(ns[1], "a", 0);
    NotPrefixAt(ns[2], "a", 0);
    NotPrefixAt(ns[3], "a", 0);
    NotPrefixAt(ns[4], "a", 0);
    CandidatesAre(ns, "a", [5]);
  }

  /** `read` starts both `read` and `read_now`: ambiguous, listing both. */
  lemma RouteRead(rest: seq<string>)
    ensures RunCommand(Table(), ["read"] + rest) == Failed(Ambiguous(["read", "read_now"]))
  {
    var picked := Pick(CommandNames, [2, 3]);
    assert picked == ["read", "read_now"];
    MatchesRead();
    TableNames();
    assert RunCommand(Table(), ["read"] + rest) == Failed(Ambiguous(picked));
  }

  /**
   * The `read` handler can never be reached: every token that `read` starts
   * with also starts `read_now`, so it is ambiguous.
   */
  lemma ReadUnreachable(args: seq<string>)
    ensures RunCommand(Table(), args) != Dispatch(2)
  {
    if args != [] && args[0] != "help" {
      var ns := CommandNames;
      TableNames();
      var m := Candidates(ns, args[0]);
      if StartsWith(ns[2], args[0]) {
        assert ns[2] <= ns[3];
        assert StartsWith(ns[3], args[0]);
        assert 2 in m && 3 in m;
      }
    }
  }

  /** A registered name, or a prefix of one, that selects handler `i` alone dispatches to it. */
  lemma OnlyMatchSelects(token: string, i: nat, rest: seq<string>)
    requires i < |CommandNames| && token != "help" && Candidates(CommandNames, token) == [i]
    ensures RunCommand(Table(), [token] + rest) == Dispatch(i)
  {
    TableNames();
  }

  /** `read_` and `read_n` are long enough to select `read_now`. */
  lemma ReadNowPrefixesSelect(rest: seq<string>)
    ensures RunCommand(Table(), ["read_"] + rest) == Dispatch(3)
    ensures RunCommand(Table(), ["read_n"] + rest) == Dispatch(3)
  {
    var ns := CommandNames;
    MatchesReadUnderscore();
    OnlyMatchSelects("read_", 3, rest);
    NarrowedToken(ns, "read_", "read_n", 3);
    OnlyMatchSelects("read_n", 3, rest);
  }

  /** Every full name other than `read` selects its own handler. */
  lemma FullNameSelects(i: nat, rest: seq<string>)
    requires i < |CommandNames| && i != 2
    ensures RunCommand(Table(), [CommandNames[i]] + rest) == Dispatch(i)
  {
    var ns := CommandNames;
    if i == 0 {
      assert Candidates(ns, ns[0]) == [0] by { MatchesS(); NarrowedToken(ns, "s", ns[0], 0); }
    } else if i == 1 {
      assert Candidates(ns, ns[1]) == [1] by { MatchesM(); NarrowedToken(ns, "m", ns[1], 1); }
    } else if i == 3 {
      assert Candidates(ns, ns[3]) == [3] by { MatchesReadUnderscore(); NarrowedToken(ns, "read_", ns[3], 3); }
    } else if i == 4 {
      assert Candidates(ns, ns[4]) == [4] by { MatchesT(); NarrowedToken(ns, "t", ns[4], 4); }
    } else {
      assert Candidates(ns, ns[5]) == [5] by { MatchesA(); NarrowedToken(ns, "a", ns[5], 5); }
    }
    OnlyMatchSelects(ns[i], i, rest);
  }

  // ---------------------------------------------------------------------
  // Properties of the multimeter commands
  // ---------------------------------------------------------------------

  /** The instrument is connected before anything else, and a failed connection ends the command. */
  lemma ConnectFirst(m: Meter, failing: set<Op>, args: seq<string>, g: Grammars)
    ensures var e := Handle(m, failing, args, g);
      |e.ops| >= 1 && e.ops[0] == Connect
      && (Connect in failing <==> e.ops == [Connect] && e.outcome == Failure(DeviceFault))
      && (Connect in failing ==> e.lines == [] && e.after == m)
  {
  }

  /** With no arguments the status view is shown, without consulting the table. */
  lemma BareArgsShowStatus(m: Meter, failing: set<Op>, g: Grammars)
    requires Connect !in failing
    ensures var e := Handle(m, failing, [], g);
      e == Status(m, failing).(ops := [Connect] + Status(m, failing).ops)
  {
  }

  /** `help` lists the multimeter table once connected, and makes no further call. */
  lemma HelpListsTable(m: Meter, failing: set<Op>, rest: seq<string>, g: Grammars)
    requires Connect !in failing
    ensures Handle(m, failing, ["help"] + rest, g) == Effect(Success, [Connect], TextLines(HelpListing(Table())), m)
  {
  }

  /**
   * The argument counts handler `k` accepts: any for `status` and `arm`, two
   * or three for `mode`, two for the reads, at most two for `trig_source`.
   */
  predicate ArityOk(k: nat, n: nat) {
    if k == 0 || k == 5 then true
    else if k == 1 then 2 <= n <= 3
    else if k <= 3 then n == 2
    else n <= 2
  }

  /**
   * A usage error is reported exactly when the argument count is wrong, and
   * then before any call on the instrument.
   */
  lemma UsageBeforeAnyCall(k: nat, m: Meter, failing: set<Op>, args: seq<string>, g: Grammars)
    requires k < |CommandNames| && args != []
    ensures var e := Invoke(k, m, failing, args, g);
      (e.outcome.Failure? && e.outcome.error.Usage?) <==> !ArityOk(k, |args|)
    ensures !ArityOk(k, |args|) ==>
      var e := Invoke(k, m, failing, args, g);
      e.ops == [] && e.lines == [] && e.after == m
  {
  }

  /**
   * The channel selector is parsed before any call: one that is not an
   * unsigned integer fails with no call made; a channel that does not exist
   * fails after asking for it and without taking any guard.
   */
  lemma SelectorResolvedFirst(k: nat, m: Meter, failing: set<Op>, args: seq<string>, g: Grammars)
    requires 1 <= k <= 3 && ArityOk(k, |args|)
    ensures ParseIndex(args[1]).None? ==> Invoke(k, m, failing, args, g) == Refused(BadIndex, m)
    ensures ParseIndex(args[1]).Some? && ParseIndex(args[1]).value >= |m.chans| ==>
      var e := Invoke(k, m, failing, args, g);
      var i := ParseIndex(args[1]).value;
      e.ops == [GetChannel(i)] && e.outcome in {Failure(DeviceFault), Failure(NoChannel(i))}
      && e.lines == [] && e.after == m
  {
  }

  /**
   * `mode` with a value: the value is parsed, lower-cased, under the
   * channel's guard, and `set_mode` is called only when it parses; a
   * successful set changes that channel's mode and nothing else.
   */
  lemma ModeSetOnlyParsed(m: Meter, failing: set<Op>, sel: string, text: string, g: Grammars, i: nat)
    requires Resolve(|m.chans|, failing, sel) == Found(i)
    ensures var e := Invoke(1, m, failing, ["mode", sel, text], g);
      (g.mode(Lower(text)).None? ==>
         e == Effect(Failure(BadValue), [GetChannel(i), Lock(i), Unlock(i)], [], m))
      && (g.mode(Lower(text)).Some? ==>
         var mode := g.mode(Lower(text)).value;
         e.ops == [GetChannel(i), Lock(i), SetMode(i, mode), Unlock(i)] && e.lines == []
         && (e.outcome == Success <==> SetMode(i, mode) !in failing)
         && e.after == (if e.outcome == Success then m.(chans := m.chans[i := m.chans[i].(mode := mode)]) else m))
  {
  }

  /**
   * `trig_source` with a value: no channel is involved; the lower-cased
   * value is parsed first and `set_trigger_source` is called only when it parses.
   */
  lemma TrigSourceSetOnlyParsed(m: Meter, failing: set<Op>, text: string, g: Grammars)
    ensures var e := Invoke(4, m, failing, ["trig_source", text], g);
      (g.source(Lower(text)).None? ==> e == Refused(BadValue, m))
      && (g.source(Lower(text)).Some? ==>
         var src := g.source(Lower(text)).value;
         e.ops == [SetTriggerSource(src)] && e.lines == []
         && (e.outcome == Success <==> SetTriggerSource(src) !in failing)
         && e.after == (if e.outcome == Success then m.(source := src) else m))
  {
  }

  /** On the modelled instrument, a mode that was set is the mode read back, if the read succeeds. */
  lemma ModeThenGet(m: Meter, failing: set<Op>, sel: string, text: string, g: Grammars)
    requires ModeCommand(m, failing, ["mode", sel, text], g).outcome == Success
    ensures g.mode(Lower(text)).Some?
    ensures var e := ModeCommand(ModeCommand(m, failing, ["mode", sel, text], g).after, failing, ["mode", sel], g);
      e.outcome == Success ==> e.lines == [Text(g.mode(Lower(text)).value.name)]
  {
  }

  /** On the modelled instrument, a trigger source that was set is the source read back, if the read succeeds. */
  lemma TrigSourceThenGet(m: Meter, failing: set<Op>, text: string, g: Grammars)
    requires TrigSourceCommand(m, failing, ["trig_source", text], g).outcome == Success
    ensures g.source(Lower(text)).Some?
    ensures var e := TrigSourceCommand(TrigSourceCommand(m, failing, ["trig_source", text], g).after,
                                       failing, ["trig_source"], g);
      e.outcome == Success ==> e.lines == [Text(g.source(Lower(text)).value.name)]
  {
  }

  /** `read_now`'s three calls stop at the first that fails; the reading is printed only when all succeed. */
  lemma ReadNowRun(c: MeterChannel, i: nat, failing: set<Op>)
    ensures RunQueries(ReadNowQueries(c, i), failing) ==
      if TriggerArm in failing then Run([TriggerArm], [], false)
      else if TriggerNow in failing then Run([TriggerArm, TriggerNow], [], false)
      else if GetReading(i) in failing then Run([TriggerArm, TriggerNow, GetReading(i)], [], false)
      else Run([TriggerArm, TriggerNow, GetReading(i)], [Shown(c.reading)], true)
  {
    var qs := ReadNowQueries(c, i);
    assert qs[1..][1..] == [qs[2]];
    AttemptIsRun(qs[2], failing);
  }

  /**
   * `read_now` takes the channel's guard, then arms, triggers and reads in
   * that order under it, stopping at the first call that fails; it succeeds
   * exactly when all three do, and then prints the reading.
   */
  lemma ReadNowOrder(m: Meter, failing: set<Op>, sel: string, i: nat, g: Grammars)
    requires Resolve(|m.chans|, failing, sel) == Found(i)
    ensures var e := Invoke(3, m, failing, ["read_now", sel], g);
      var steps := [TriggerArm, TriggerNow, GetReading(i)];
      var n := |e.ops| - 3;
      1 <= n <= 3 && e.ops == [GetChannel(i), Lock(i)] + steps[..n] + [Unlock(i)]
      && (forall j :: 0 <= j < n - 1 ==> steps[j] !in failing)
      && (n < 3 ==> steps[n - 1] in failing)
      && (e.outcome == Success <==> n == 3 && GetReading(i) !in failing)
      && (e.outcome == Success ==> e.lines == [Shown(m.chans[i].reading)])
      && e.after == m
  {
    var r := RunQueries(ReadNowQueries(m.chans[i], i), failing);
    ReadNowRun(m.chans[i], i, failing);
    assert Invoke(3, m, failing, ["read_now", sel], g) == Within(i, Settled(r, m));
    var steps := [TriggerArm, TriggerNow, GetReading(i)];
    assert steps[..|r.ops|] == r.ops;
  }

  /** `arm` ignores its arguments and makes exactly one call, arming the trigger. */
  lemma ArmOnce(m: Meter, failing: set<Op>, args: seq<string>, g: Grammars)
    requires args != []
    ensures var e := Invoke(5, m, failing, args, g);
      e.ops == [TriggerArm] && e.lines == [] && e.after == m
      && (e.outcome == Success <==> TriggerArm !in failing)
  {
  }

  /** A query (status, a get, a read, arming) changes nothing and calls no setter. */
  lemma QueriesAreReadOnly(k: nat, m: Meter, failing: set<Op>, args: seq<string>, g: Grammars)
    requires k < |CommandNames| && args != []
    requires k != 1 || |args| != 3
    requires k != 4 || |args| != 2
    ensures var e := Invoke(k, m, failing, args, g);
      e.after == m && ReadOnly(e.ops)
  {
    if k == 0 {
      StatusOnlyInspects(m, failing);
    } else if k == 3 {
      ReadNowReadOnly(m, failing, args);
    }
  }

  lemma ReadNowReadOnly(m: Meter, failing: set<Op>, args: seq<string>)
    ensures var e := ReadNowCommand(m, failing, args);
      e.after == m && ReadOnly(e.ops)
  {
    if |args| == 2 && Resolve(|m.chans|, failing, args[1]).Found? {
      var i := Resolve(|m.chans|, failing, args[1]).index;
      ReadNowRun(m.chans[i], i, failing);
    }
  }

  /**
   * Only a set that the instrument accepted changes the multimeter: a mode
   * set changes only the selected channel, a trigger-source set only the source.
   */
  lemma WritesOnlyOnAcceptedSet(k: nat, m: Meter, failing: set<Op>, args: seq<string>, g: Grammars)
    requires k < |CommandNames| && args != []
    ensures var e := Invoke(k, m, failing, args, g);
      |e.after.chans| == |m.chans|
      && (e.after != m ==>
            e.outcome == Success
            && ((k == 1 && |args| == 3 && e.after.source == m.source && ParseIndex(args[1]).Some?
                 && forall j :: 0 <= j < |m.chans| && j != ParseIndex(args[1]).value ==> e.after.chans[j] == m.chans[j])
                || (k == 4 && |args| == 2 && e.after.chans == m.chans && g.source(Lower(args[1])) == Some(e.after.source))))
  {
    if k == 3 {
      ReadNowReadOnly(m, failing, args);
    }
  }

  /** The two lines the status view prints for one channel: its name, then its mode. */
  function StatusLines(c: MeterChannel): seq<Line> {
    [Text("Channel " + c.name), Text("  mode: " + c.mode.name)]
  }

  lemma StatusQueriesLines(c: MeterChannel, i: nat)
    ensures Lines(StatusQueries(c, i)) == StatusLines(c)
  {
    LinesOfSingles(StatusQueries(c, i));
  }

  /** The status view succeeds exactly when the instrument rejects none of its calls. */
  lemma StatusSucceeds(m: Meter, failing: set<Op>)
    ensures Status(m, failing).outcome == Success
        <==> (GetTriggerSource !in failing && GetChannels !in failing
              && forall i, k :: 0 <= i < |m.chans| && 0 <= k < 2 ==> StatusQueries(m.chans[i], i)[k].op !in failing)
  {
    var plan := Plan(m.chans, StatusQueries);
    SweepSucceeds(plan, failing, |m.chans|);
    assert forall i :: 0 <= i < |m.chans| ==> plan[i] == StatusQueries(m.chans[i], i);
  }

  /**
   * A successful status view prints the trigger source, then for every
   * channel in channel order its name and its mode.
   */
  lemma StatusShowsEveryChannel(m: Meter, failing: set<Op>)
    ensures var e := Status(m, failing);
      e.outcome == Success ==> e.lines == [Text("trig mode: " + m.source.name)] + Concat(Blocks(m.chans, StatusLines))
  {
    forall c, i ensures Lines(StatusQueries(c, i)) == StatusLines(c) {
      StatusQueriesLines(c, i);
    }
    SweepShowsEveryChannel(m.chans, StatusQueries, StatusLines, failing);
  }

  /**
   * The status view asks for the trigger source once, first, and otherwise
   * only enumerates channels and asks their names and modes: it changes no
   * setting and never reads, arms or triggers.
   */
  lemma StatusOnlyInspects(m: Meter, failing: set<Op>)
    ensures var ops := Status(m, failing).ops;
      ops[0] == GetTriggerSource
      && (forall k :: 1 <= k < |ops| ==> ops[k] != GetTriggerSource)
      && (forall k :: 0 <= k < |ops| ==> !IsSetter(ops[k]) && !Measures(ops[k]))
  {
    var plan := Plan(m.chans, StatusQueries);
    if GetTriggerSource !in failing && GetChannels !in failing {
      var kind := (op: Op) => IsSetter(op) || Measures(op) || op == GetTriggerSource;
      SweepAvoids(plan, failing, |m.chans|, kind);
      var s := Sweep(plan, failing, |m.chans|);
      assert forall k :: 0 <= k < |s.ops| ==> !kind(s.ops[k]);
    }
  }

  /** The status view visits the channels in enumeration order, each once, all of them when it succeeds. */
  lemma StatusVisitsInOrder(m: Meter, failing: set<Op>)
    ensures var e := Status(m, failing); var locked := Locked(e.ops);
      (forall k :: 0 <= k < |locked| ==> locked[k] == k)
      && (e.outcome == Success ==> |locked| == |m.chans|)
  {
    var plan := Plan(m.chans, StatusQueries);
    if GetTriggerSource !in failing && GetChannels !in failing {
      SweepVisitsInOrder(plan, failing, |m.chans|);
      LockedAppend([GetTriggerSource, GetChannels], Sweep(plan, failing, |m.chans|).ops);
      LockedCalls([GetTriggerSource, GetChannels]);
    } else {
      LockedCalls(Status(m, failing).ops);
    }
  }

  /** The status view releases each channel's guard before taking the next. */
  lemma StatusReleasesGuards(m: Meter, failing: set<Op>)
    ensures GuardsReleased(Status(m, failing).ops)
  {
    var plan := Plan(m.chans, StatusQueries);
    if GetTriggerSource !in failing && GetChannels !in failing {
      SweepReleasesGuards(plan, failing, |m.chans|);
      TrackAppend(Free, [GetTriggerSource, GetChannels], Sweep(plan, failing, |m.chans|).ops);
    } else {
      CallsReleased(Status(m, failing).ops);
    }
  }

  /** Every channel guard taken is released, on every path of every handler. */
  lemma HandlersReleaseGuards(k: nat, m: Meter, failing: set<Op>, args: seq<string>, g: Grammars)
    requires k < |CommandNames| && args != []
    ensures GuardsReleased(Invoke(k, m, failing, args, g).ops)
  {
    if k == 0 {
      StatusReleasesGuards(m, failing);
    } else if k == 1 {
      ModeReleasesGuards(m, failing, args, g);
    } else if k == 2 {
      ReadReleasesGuards(m, failing, args);
    } else if k == 3 {
      ReadNowReleasesGuards(m, failing, args);
    } else {
      CallsReleased(Invoke(k, m, failing, args, g).ops);
    }
  }

  lemma ModeReleasesGuards(m: Meter, failing: set<Op>, args: seq<string>, g: Grammars)
    ensures GuardsReleased(ModeCommand(m, failing, args, g).ops)
  {
    if 2 <= |args| <= 3 && Resolve(|m.chans|, failing, args[1]).Found? {
      var i := Resolve(|m.chans|, failing, args[1]).index;
      WithinReleases(i, ModeAt(m, failing, i, args, g));
    } else {
      CallsReleased(ModeCommand(m, failing, args, g).ops);
    }
  }

  lemma ReadReleasesGuards(m: Meter, failing: set<Op>, args: seq<string>)
    ensures GuardsReleased(ReadCommand(m, failing, args).ops)
  {
    if |args| == 2 && Resolve(|m.chans|, failing, args[1]).Found? {
      var i := Resolve(|m.chans|, failing, args[1]).index;
      WithinReleases(i, Settled(Attempt(Query(GetReading(i), [Shown(m.chans[i].reading)]), failing), m));
    } else {
      CallsReleased(ReadCommand(m, failing, args).ops);
    }
  }

  lemma ReadNowReleasesGuards(m: Meter, failing: set<Op>, args: seq<string>)
    ensures GuardsReleased(ReadNowCommand(m, failing, args).ops)
  {
    if |args| == 2 && Resolve(|m.chans|, failing, args[1]).Found? {
      var i := Resolve(|m.chans|, failing, args[1]).index;
      var qs := ReadNowQueries(m.chans[i], i);
      RunHasNoGuards(qs, failing);
      WithinReleases(i, Settled(RunQueries(qs, failing), m));
    } else {
      CallsReleased(ReadNowCommand(m, failing, args).ops);
    }
  }

  /** The whole command, connection included, releases every guard it takes. */
  lemma HandleReleasesGuards(m: Meter, failing: set<Op>, args: seq<string>, g: Grammars)
    ensures GuardsReleased(Handle(m, failing, args, g).ops)
  {
    if Connect !in failing {
      var e := AfterConnect(m, failing, args, g);
      if args == [] {
        StatusReleasesGuards(m, failing);
      } else {
        match RunCommand(Table(), args)
        case Dispatch(k) => HandlersReleaseGuards(k, m, failing, args, g);
        case _ =>
      }
      TrackAppend(Free, [Connect], e.ops);
    }
  }

  // ---------------------------------------------------------------------
  // The command module over a multimeter's state
  // ---------------------------------------------------------------------

  class Multimeter {
    const channels: array<MeterChannel>
    var source: TriggerSource
    const session: Session

    constructor (channels: array<MeterChannel>, source: TriggerSource, session: Session)
      ensures this.channels == channels && this.source == source && this.session == session
    {
      this.channels := channels;
      this.source := source;
      this.session := session;
    }

    /** The multimeter's state as the handler specifications see it. */
    function State(): Meter
      reads this, channels
    {
      Meter(source, channels[..])
    }

    /** `handle_command`. */
    method HandleCommand(args: seq<string>, g: Grammars) returns (r: Outcome)
      modifies this, session, channels
      ensures var e := Handle(old(State()), session.failing, args, g);
        r == e.outcome && session.trace == old(session.trace) + e.ops
        && session.output == old(session.output) + e.lines && State() == e.after
    {
      var connected := session.Call(Query(Connect, []));
      if !connected {
        return Failure(DeviceFault);
      }
      ghost var e := AfterConnect(old(State()), session.failing, args, g);
      r := Connected(args, g);
      Regroup(old(session.trace), [Connect], e.ops);
    }

    /** What `handle_command` does once connected. */
    method Connected(args: seq<string>, g: Grammars) returns (r: Outcome)
      modifies this, session, channels
      ensures var e := AfterConnect(old(State()), session.failing, args, g);
        r == e.outcome && session.trace == old(session.trace) + e.ops
        && session.output == old(session.output) + e.lines && State() == e.after
    {
      if args == [] {
        r := CommandStatus();
      } else {
        r := RouteCommand(args, g);
      }
    }

    /** `Commands::run_command` over the multimeter table, then the chosen handler. */
    method RouteCommand(args: seq<string>, g: Grammars) returns (r: Outcome)
      modifies this, session, channels
      ensures var e := Routed(old(State()), session.failing, args, g);
        r == e.outcome && session.trace == old(session.trace) + e.ops
        && session.output == old(session.output) + e.lines && State() == e.after
    {
      match RunCommand(Table(), args)
      case Failed(e) =>
        r := Failure(e);
      case Help(texts) =>
        session.Print(texts);
        r := Success;
      case Dispatch(k) =>
        r := RunHandler(k, args, g);
    }

    /** Run the handler registered at index `k` with the full argument list. */
    method RunHandler(k: nat, args: seq<string>, g: Grammars) returns (r: Outcome)
      requires k < |CommandNames| && args != []
      modifies this, session, channels
      ensures var e := Invoke(k, old(State()), session.failing, args, g);
        r == e.outcome && session.trace == old(session.trace) + e.ops
        && session.output == old(session.output) + e.lines && State() == e.after
    {
      if k == 0 {
        r := CommandStatus();
      } else if k == 1 {
        r := CommandMode(args, g);
      } else if k == 2 {
        r := CommandRead(args);
      } else if k == 3 {
        r := CommandReadNow(args);
      } else if k == 4 {
        r := CommandTrigSource(args, g);
      } else {
        r := CommandArm();
      }
    }

    /** `command_status`: the trigger source, then every channel in enumeration order, until a call fails. */
    method CommandStatus() returns (r: Outcome)
      modifies session
      ensures var e := Status(State(), session.failing);
        r == e.outcome && session.trace == old(session.trace) + e.ops
        && session.output == old(session.output) + e.lines
    {
      ghost var m := State();
      var ok := session.Call(Query(GetTriggerSource, [SourceLine(source)]));
      if !ok {
        return Failure(DeviceFault);
      }
      ok := session.Call(Query(GetChannels, []));
      if !ok {
        return Failure(DeviceFault);
      }
      var plan := Plan(channels[..], StatusQueries);
      ok := session.VisitAll(plan);
      ghost var s := Sweep(plan, session.failing, |m.chans|);
      Regroup(old(session.trace), [GetTriggerSource, GetChannels], s.ops);
      Regroup(old(session.output), [SourceLine(m.source)], s.lines);
      assert State() == m;
      r := Settle(ok);
    }

    /** `command_mode`. */
    method CommandMode(args: seq<string>, g: Grammars) returns (r: Outcome)
      modifies session, channels
      ensures var e := ModeCommand(old(State()), session.failing, args, g);
        r == e.outcome && session.trace == old(session.trace) + e.ops
        && session.output == old(session.output) + e.lines && State() == e.after
    {
      if |args| < 2 || |args| > 3 {
        return Failure(Usage(ModeUsage));
      }
      var found := session.Lookup(channels.Length, args[1]);
      if found.NotFound? {
        return Failure(found.error);
      }
      session.Acquire(found.index);
      r := ModeChannel(found.index, args, g);
      session.Release(found.index);
    }

    /** `command_mode` on channel `i` while holding its guard. */
    method ModeChannel(i: nat, args: seq<string>, g: Grammars) returns (r: Outcome)
      requires i < channels.Length && 2 <= |args| <= 3
      modifies session, channels
      ensures var e := ModeAt(old(State()), session.failing, i, args, g);
        r == e.outcome && session.trace == old(session.trace) + e.ops
        && session.output == old(session.output) + e.lines && State() == e.after
    {
      if |args| == 2 {
        var ok := session.Call(Query(GetMode(i), [Text(channels[i].mode.name)]));
        return Settle(ok);
      }
      match g.mode(Lower(args[2]))
      case None =>
        r := Failure(BadValue);
      case Some(mode) =>
        var ok := session.Call(Query(SetMode(i, mode), []));
        if ok {
          channels[i] := channels[i].(mode := mode);
        }
        r := Settle(ok);
    }

    /** `command_read`. */
    method CommandRead(args: seq<string>) returns (r: Outcome)
      modifies session
      ensures var e := ReadCommand(State(), session.failing, args);
        r == e.outcome && session.trace == old(session.trace) + e.ops
        && session.output == old(session.output) + e.lines
    {
      if |args| != 2 {
        return Failure(Usage(ReadUsage));
      }
      var found := session.Lookup(channels.Length, args[1]);
      if found.NotFound? {
        return Failure(found.error);
      }
      var i := found.index;
      session.Acquire(i);
      var ok := session.Call(Query(GetReading(i), [Shown(channels[i].reading)]));
      r := Settle(ok);
      session.Release(i);
    }

    /** `command_read_now`: arm, trigger and read under the channel's guard. */
    method CommandReadNow(args: seq<string>) returns (r: Outcome)
      modifies session
      ensures var e := ReadNowCommand(State(), session.failing, args);
        r == e.outcome && session.trace == old(session.trace) + e.ops
        && session.output == old(session.output) + e.lines
    {
      if |args| != 2 {
        return Failure(Usage(ReadNowUsage));
      }
      var found := session.Lookup(channels.Length, args[1]);
      if found.NotFound? {
        return Failure(found.error);
      }
      var i := found.index;
      ghost var steps := RunQueries(ReadNowQueries(channels[i], i), session.failing);
      var ok := session.Visit(i, ReadNowQueries(channels[i], i));
      RegroupBlock(old(session.trace), [GetChannel(i)], [Lock(i)], steps.ops, [Unlock(i)]);
      assert [GetChannel(i)] + [Lock(i)] == [GetChannel(i), Lock(i)];
      r := Settle(ok);
    }

    /** `command_trig_source`. */
    method CommandTrigSource(args: seq<string>, g: Grammars) returns (r: Outcome)
      requires args != []
      modifies this
      modifies session
      ensures var e := TrigSourceCommand(old(State()), session.failing, args, g);
        r == e.outcome && session.trace == old(session.trace) + e.ops
        && session.output == old(session.output) + e.lines && State() == e.after
    {
      if |args| > 2 {
        return Failure(Usage(TrigSourceUsage));
      }
      if |args| == 1 {
        var ok := session.Call(Query(GetTriggerSource, [Text(source.name)]));
        return Settle(ok);
      }
      match g.source(Lower(args[1]))
      case None =>
        r := Failure(BadValue);
      case Some(src) =>
        var ok := session.Call(Query(SetTriggerSource(src), []));
        if ok {
          source := src;
        }
        r := Settle(ok);
    }

    /** `command_arm`. */
    method CommandArm() returns (r: Outcome)
      modifies session
      ensures var e := Arm(State(), session.failing);
        r == e.outcome && session.trace == old(session.trace) + e.ops
        && session.output == old(session.output) + e.lines
    {
      var ok := session.Call(Query(TriggerArm, []));
      r := Settle(ok);
    }
  }
}
