/**
 * The device-capability interface the command modules drive, seen from
 * outside: every call a handler makes on the instrument is recorded, in
 * order, in a trace; the instrument rejects a fixed set of calls; and what
 * the handler prints is recorded as lines of output.
 *
 * Acquiring and releasing a channel's lock are recorded in the same trace
 * (`Lock`, `Unlock`), so that "the guard is held across these calls" and
 * "the guard is released on every path" are statements about the trace.
 */
module Instrument {
  import opened Prelude
  import opened Parsing

  /** A multimeter channel mode, by its display text (a foreign type). */
  datatype Mode = Mode(name: string)

  /** A multimeter trigger source, by its display text (a foreign type). */
  datatype TriggerSource = TriggerSource(name: string)

  /** A measurement with its unit (a foreign type). */
  datatype Reading = Reading(unit: string, value: real)

  /** One printed line: plain text, a labelled number, or a displayed reading. */
  datatype Line =
    | Text(text: string)
    | Number(caption: string, value: real, suffix: string)
    | Shown(reading: Reading)

  /** Lines of plain text. */
  function TextLines(texts: seq<string>): seq<Line> {
    seq(|texts|, k requires 0 <= k < |texts| => Text(texts[k]))
  }

  /** The calls a handler makes, and the guard markers. */
  datatype Op =
    | Connect
    | GetChannels
    | GetChannel(index: nat)
    | Lock(chan: nat)
    | Unlock(chan: nat)
    | Name(chan: nat)
    // power supply channel
    | GetEnabled(chan: nat)
    | SetEnabled(chan: nat, on: bool)
    | GetVoltage(chan: nat)
    | SetVoltage(chan: nat, volts: real)
    | GetCurrent(chan: nat)
    | SetCurrent(chan: nat, amps: real)
    | ReadVoltage(chan: nat)
    | ReadCurrent(chan: nat)
    | ReadPower(chan: nat)
    // multimeter
    | GetMode(chan: nat)
    | SetMode(chan: nat, mode: Mode)
    | GetReading(chan: nat)
    | GetTriggerSource
    | SetTriggerSource(source: TriggerSource)
    | TriggerArm
    | TriggerNow

  /** A call on the instrument, as opposed to a guard marker. */
  predicate IsCall(op: Op) {
    !op.Lock? && !op.Unlock?
  }

  /** A call that changes a setting of the instrument. */
  predicate IsSetter(op: Op) {
    op.SetEnabled? || op.SetVoltage? || op.SetCurrent? || op.SetMode? || op.SetTriggerSource?
  }

  /** No call of the trace changes a setting. */
  predicate ReadOnly(ops: seq<Op>) {
    forall k :: 0 <= k < |ops| ==> !IsSetter(ops[k])
  }

  /** A call and the lines printed once it has succeeded. */
  datatype Query = Query(op: Op, shows: seq<Line>)

  predicate Calls(qs: seq<Query>) {
    forall k :: 0 <= k < |qs| ==> IsCall(qs[k].op)
  }

  /** The calls of a run of queries, the lines printed, and whether every call succeeded. */
  datatype Run = Run(ops: seq<Op>, lines: seq<Line>, ok: bool)

  function Ops(qs: seq<Query>): (ops: seq<Op>) {
    seq(|qs|, k requires 0 <= k < |qs| => qs[k].op)
  }

  function Lines(qs: seq<Query>): seq<Line>
    decreases |qs|
  {
    if qs == [] then [] else qs[0].shows + Lines(qs[1..])
  }

  lemma {:induction false} LinesAppend(a: seq<Query>, b: seq<Query>)
    ensures Lines(a + b) == Lines(a) + Lines(b)
    decreases |a|
  {
    if a != [] {
      LinesAppend(a[1..], b);
      assert (a + b)[1..] == a[1..] + b;
    } else {
      assert a + b == b;
    }
  }

  /** When every query prints exactly one line, the lines are those, in query order. */
  lemma {:induction false} LinesOfSingles(qs: seq<Query>)
    requires forall k :: 0 <= k < |qs| ==> |qs[k].shows| == 1
    ensures |Lines(qs)| == |qs|
    ensures forall k :: 0 <= k < |qs| ==> Lines(qs)[k] == qs[k].shows[0]
    decreases |qs|
  {
    if qs != [] {
      LinesOfSingles(qs[1..]);
      assert qs[0].shows == [qs[0].shows[0]];
    }
  }

  /**
   * A sequence of fallible calls, each followed by its printing, that stops
   * at the first call the instrument rejects (a chain of `?`).
   */
  function RunQueries(qs: seq<Query>, failing: set<Op>): (r: Run)
    ensures |r.ops| <= |qs| && r.ops == Ops(qs[..|r.ops|])
    ensures r.ok <==> forall k :: 0 <= k < |qs| ==> qs[k].op !in failing
    ensures r.ok ==> |r.ops| == |qs| && r.lines == Lines(qs)
    ensures !r.ok ==> |r.ops| >= 1 && qs[|r.ops| - 1].op in failing
                      && (forall k :: 0 <= k < |r.ops| - 1 ==> qs[k].op !in failing)
                      && r.lines == Lines(qs[..|r.ops| - 1])
    decreases |qs|
  {
    if qs == [] then Run([], [], true)
    else if qs[0].op in failing then
      assert qs[..1][1..] == [];
      Run([qs[0].op], [], false)
    else
      var rest := RunQueries(qs[1..], failing);
      var n := |rest.ops|;
      assert qs[..n + 1][1..] == qs[1..][..n];
      assert rest.ok ==> qs[1..] == qs[1..][..n];
      assert !rest.ok ==> qs[..n][1..] == qs[1..][..n - 1];
      Run([qs[0].op] + rest.ops, qs[0].shows + rest.lines, rest.ok)
  }

  /** Running queries that all succeed, then one that fails, stops right after the failing call. */
  lemma {:induction false} RunQueriesFailsAt(qs: seq<Query>, failing: set<Op>, k: nat)
    requires k < |qs| && qs[k].op in failing
    requires forall j :: 0 <= j < k ==> qs[j].op !in failing
    ensures RunQueries(qs, failing) == Run(Ops(qs[..k + 1]), Lines(qs[..k]), false)
    decreases k
  {
    if k > 0 {
      RunQueriesFailsAt(qs[1..], failing, k - 1);
      assert qs[1..][..k] == qs[..k + 1][1..];
      assert qs[1..][..k - 1] == qs[..k][1..];
    } else {
      assert qs[..0] == [];
    }
  }

  /** A single fallible call: the run of the one-query sequence. */
  function Attempt(q: Query, failing: set<Op>): Run {
    if q.op in failing then Run([q.op], [], false) else Run([q.op], q.shows, true)
  }

  lemma AttemptIsRun(q: Query, failing: set<Op>)
    ensures Attempt(q, failing) == RunQueries([q], failing)
  {
    assert [q][1..] == [];
  }

  /** The calls made by a run never include a guard marker. */
  lemma RunHasNoGuards(qs: seq<Query>, failing: set<Op>)
    requires Calls(qs)
    ensures forall k :: 0 <= k < |RunQueries(qs, failing).ops| ==> IsCall(RunQueries(qs, failing).ops[k])
  { }

  /** Regrouping an appended trace (a step the solver finds costly on its own). */
  lemma Regroup<T>(a: seq<T>, b: seq<T>, c: seq<T>)
    ensures a + b + c == a + (b + c)
  { }

  lemma RegroupBlock<T>(a: seq<T>, b: seq<T>, c: seq<T>, d: seq<T>, e: seq<T>)
    ensures a + b + c + d + e == a + (b + c + d + e)
  { }

  // ---------------------------------------------------------------------
  // Channel guards
  // ---------------------------------------------------------------------

  /** Which guard a handler holds: none, one channel's, or it broke the discipline. */
  datatype Guard = Free | Holding(chan: nat) | Broken

  function GuardAfter(g: Guard, op: Op): Guard {
    match op
    case Lock(i) => if g == Free then Holding(i) else Broken
    case Unlock(i) => if g == Holding(i) then Free else Broken
    case _ => g
  }

  function Track(g: Guard, ops: seq<Op>): Guard
    decreases |ops|
  {
    if ops == [] then g else Track(GuardAfter(g, ops[0]), ops[1..])
  }

  /**
   * The guard discipline over a whole trace: at most one channel guard is
   * held at a time, only the held guard is released, and none is held at the end.
   */
  predicate GuardsReleased(ops: seq<Op>) {
    Track(Free, ops) == Free
  }

  lemma {:induction false} TrackAppend(g: Guard, a: seq<Op>, b: seq<Op>)
    ensures Track(g, a + b) == Track(Track(g, a), b)
    decreases |a|
  {
    if a != [] {
      assert (a + b)[1..] == a[1..] + b;
      TrackAppend(GuardAfter(g, a[0]), a[1..], b);
    } else {
      assert a + b == b;
    }
  }

  lemma {:induction false} TrackCalls(g: Guard, ops: seq<Op>)
    requires forall k :: 0 <= k < |ops| ==> IsCall(ops[k])
    ensures Track(g, ops) == g
    decreases |ops|
  {
    if ops != [] {
      TrackCalls(g, ops[1..]);
    }
  }

  /** A block of calls made while holding channel `i`'s guard releases it. */
  lemma GuardedBlock(pre: seq<Op>, i: nat, ops: seq<Op>)
    requires forall k :: 0 <= k < |pre| ==> IsCall(pre[k])
    requires forall k :: 0 <= k < |ops| ==> IsCall(ops[k])
    ensures GuardsReleased(pre + [Lock(i)] + ops + [Unlock(i)])
  {
    TrackAppend(Free, pre + [Lock(i)] + ops, [Unlock(i)]);
    TrackAppend(Free, pre + [Lock(i)], ops);
    TrackAppend(Free, pre, [Lock(i)]);
    TrackCalls(Free, pre);
    TrackCalls(Holding(i), ops);
  }

  /** A trace of calls alone holds no guard. */
  lemma CallsReleased(ops: seq<Op>)
    requires forall k :: 0 <= k < |ops| ==> IsCall(ops[k])
    ensures GuardsReleased(ops)
  {
    TrackCalls(Free, ops);
  }

  // ---------------------------------------------------------------------
  // Channel resolution
  // ---------------------------------------------------------------------

  datatype Resolved = Found(index: nat) | NotFound(error: Error, ops: seq<Op>)

  /**
   * `get_chan`: parse the selector as an index, then ask the instrument for
   * that channel. A selector that does not parse fails before any call.
   */
  function Resolve(count: nat, failing: set<Op>, sel: string): (r: Resolved)
    ensures ParseIndex(sel).None? ==> r == NotFound(BadIndex, [])
    ensures ParseIndex(sel).Some? ==>
      var i := ParseIndex(sel).value;
      (r.Found? <==> i < count && GetChannel(i) !in failing)
      && (r.Found? ==> r.index == i)
      && (r.NotFound? ==> r.ops == [GetChannel(i)] && r.error in {DeviceFault, NoChannel(i)})
  {
    match ParseIndex(sel)
    case None => NotFound(BadIndex, [])
    case Some(i) =>
      if GetChannel(i) in failing then NotFound(DeviceFault, [GetChannel(i)])
      else if i >= count then NotFound(NoChannel(i), [GetChannel(i)])
      else Found(i)
  }

  /** The handler outcome of a run: a rejected call is a device failure. */
  function Settle(ok: bool): Outcome {
    if ok then Success else Failure(DeviceFault)
  }

  /**
   * What one command did: its outcome, the calls it made (with the guard
   * markers) in order, the lines it printed, and the device state `after` it.
   */
  datatype Effect<S> = Effect(outcome: Outcome, ops: seq<Op>, lines: seq<Line>, after: S)

  /** The effect of a run of calls, leaving the state `after`. */
  function Settled<S>(r: Run, after: S): Effect<S> {
    Effect(Settle(r.ok), r.ops, r.lines, after)
  }

  /** Look channel `i` up, take its guard, do `e`, release the guard. */
  function Within<S>(i: nat, e: Effect<S>): Effect<S> {
    e.(ops := [GetChannel(i), Lock(i)] + e.ops + [Unlock(i)])
  }

  /** Looking a channel up and working under its guard releases the guard, whatever the calls made. */
  lemma WithinReleases<S>(i: nat, e: Effect<S>)
    requires forall k :: 0 <= k < |e.ops| ==> IsCall(e.ops[k])
    ensures GuardsReleased(Within(i, e).ops)
  {
    GuardedBlock([GetChannel(i)], i, e.ops);
    assert [GetChannel(i)] + [Lock(i)] == [GetChannel(i), Lock(i)];
  }

  /** A command that ends before it makes any call. */
  function Refused<S>(e: Error, s: S): Effect<S> {
    Effect(Failure(e), [], [], s)
  }

  // ---------------------------------------------------------------------
  // Channel enumeration
  // ---------------------------------------------------------------------

  /** The status loop's plan: each channel's queries, in enumeration order. */
  function Plan<C>(chans: seq<C>, queries: (C, nat) -> seq<Query>): (qss: seq<seq<Query>>)
    ensures |qss| == |chans|
    ensures forall i :: 0 <= i < |chans| ==> qss[i] == queries(chans[i], i)
  {
    seq(|chans|, i requires 0 <= i < |chans| => queries(chans[i], i))
  }

  /**
   * The status loop over the first `n` channels: for each channel in
   * enumeration order, take its guard, run its queries, release it; stop at
   * the first channel whose queries fail.
   */
  function Sweep(qss: seq<seq<Query>>, failing: set<Op>, n: nat): Run
    requires n <= |qss|
    decreases n
  {
    if n == 0 then Run([], [], true)
    else
      var prev := Sweep(qss, failing, n - 1);
      if !prev.ok then prev
      else
        var q := RunQueries(qss[n - 1], failing);
        Run(prev.ops + [Lock(n - 1)] + q.ops + [Unlock(n - 1)], prev.lines + q.lines, q.ok)
  }

  /** Once a channel has failed, later channels are not visited. */
  lemma {:induction false} SweepStops(qss: seq<seq<Query>>, failing: set<Op>, n: nat, m: nat)
    requires n <= m <= |qss| && !Sweep(qss, failing, n).ok
    ensures Sweep(qss, failing, m) == Sweep(qss, failing, n)
    decreases m
  {
    if m > n {
      SweepStops(qss, failing, n, m - 1);
    }
  }

  /** Everything the first `n` channels print when every query succeeds. */
  function AllLines(qss: seq<seq<Query>>, n: nat): seq<Line>
    requires n <= |qss|
    decreases n
  {
    if n == 0 then [] else AllLines(qss, n - 1) + Lines(qss[n - 1])
  }

  /** Blocks of lines, printed one after another. */
  function Concat(blocks: seq<seq<Line>>): seq<Line>
    decreases |blocks|
  {
    if blocks == [] then [] else Concat(blocks[..|blocks| - 1]) + blocks[|blocks| - 1]
  }

  /** When channel `c` prints `blocks[c]`, the first `n` channels print the first `n` blocks in order. */
  lemma {:induction false} AllLinesConcat(qss: seq<seq<Query>>, n: nat, blocks: seq<seq<Line>>)
    requires n <= |qss| && n <= |blocks|
    requires forall c :: 0 <= c < n ==> Lines(qss[c]) == blocks[c]
    ensures AllLines(qss, n) == Concat(blocks[..n])
    decreases n
  {
    if n > 0 {
      AllLinesConcat(qss, n - 1, blocks);
      assert blocks[..n][..n - 1] == blocks[..n - 1];
    }
  }

  /** The blocks a completed status loop prints, one per channel, in channel order. */
  function Blocks<C>(chans: seq<C>, lines: C -> seq<Line>): (blocks: seq<seq<Line>>)
    ensures |blocks| == |chans|
    ensures forall i :: 0 <= i < |chans| ==> blocks[i] == lines(chans[i])
  {
    seq(|chans|, i requires 0 <= i < |chans| => lines(chans[i]))
  }

  /**
   * The status loop completes exactly when no query of the first `n`
   * channels is rejected, and then it has printed every query's lines.
   */
  lemma {:induction false} SweepSucceeds(qss: seq<seq<Query>>, failing: set<Op>, n: nat)
    requires n <= |qss|
    ensures Sweep(qss, failing, n).ok
        <==> forall c, k :: 0 <= c < n && 0 <= k < |qss[c]| ==> qss[c][k].op !in failing
    ensures Sweep(qss, failing, n).ok ==> Sweep(qss, failing, n).lines == AllLines(qss, n)
    decreases n
  {
    if n > 0 {
      SweepSucceeds(qss, failing, n - 1);
      if !Sweep(qss, failing, n - 1).ok {
        var c, k :| 0 <= c < n - 1 && 0 <= k < |qss[c]| && qss[c][k].op in failing;
        assert !Sweep(qss, failing, n).ok;
      }
    }
  }

  /**
   * When channel `c`'s queries print `lines(c)`, a status loop that
   * completes prints every channel's block, in channel order.
   */
  lemma SweepShowsEveryChannel<C>(chans: seq<C>, queries: (C, nat) -> seq<Query>, lines: C -> seq<Line>,
                                  failing: set<Op>)
    requires forall c, i :: Lines(queries(c, i)) == lines(c)
    ensures var s := Sweep(Plan(chans, queries), failing, |chans|);
      s.ok ==> s.lines == Concat(Blocks(chans, lines))
  {
    var plan := Plan(chans, queries);
    var blocks := Blocks(chans, lines);
    AllLinesConcat(plan, |chans|, blocks);
    assert blocks[..|chans|] == blocks;
    SweepSucceeds(plan, failing, |chans|);
  }

  /**
   * A status loop makes no call of a kind none of its queries makes: the
   * loop itself only adds guard markers.
   */
  lemma {:induction false} SweepAvoids(qss: seq<seq<Query>>, failing: set<Op>, n: nat, kind: Op -> bool)
    requires n <= |qss|
    requires forall c, k :: 0 <= c < |qss| && 0 <= k < |qss[c]| ==> !kind(qss[c][k].op)
    requires forall i: nat :: !kind(Lock(i)) && !kind(Unlock(i))
    ensures forall k :: 0 <= k < |Sweep(qss, failing, n).ops| ==> !kind(Sweep(qss, failing, n).ops[k])
    decreases n
  {
    if n > 0 {
      SweepAvoids(qss, failing, n - 1, kind);
      var prev := Sweep(qss, failing, n - 1);
      if prev.ok {
        var q := RunQueries(qss[n - 1], failing);
        assert forall k :: 0 <= k < |q.ops| ==> q.ops[k] == qss[n - 1][k].op;
      }
    }
  }

  /** The channels whose guard a trace takes, in order. */
  function Locked(ops: seq<Op>): seq<nat>
    decreases |ops|
  {
    if ops == [] then []
    else Locked(ops[..|ops| - 1]) + (if ops[|ops| - 1].Lock? then [ops[|ops| - 1].chan] else [])
  }

  lemma {:induction false} LockedAppend(a: seq<Op>, b: seq<Op>)
    ensures Locked(a + b) == Locked(a) + Locked(b)
    decreases |b|
  {
    if b != [] {
      assert (a + b)[..|a + b| - 1] == a + b[..|b| - 1];
      LockedAppend(a, b[..|b| - 1]);
    } else {
      assert a + b == a;
    }
  }

  lemma {:induction false} LockedCalls(ops: seq<Op>)
    requires forall k :: 0 <= k < |ops| ==> IsCall(ops[k])
    ensures Locked(ops) == []
    decreases |ops|
  {
    if ops != [] {
      LockedCalls(ops[..|ops| - 1]);
    }
  }

  lemma LockedBlock(pre: seq<Op>, i: nat, ops: seq<Op>)
    requires forall k :: 0 <= k < |ops| ==> IsCall(ops[k])
    ensures Locked(pre + [Lock(i)] + ops + [Unlock(i)]) == Locked(pre) + [i]
  {
    LockedCalls(ops);
    LockedAppend(pre + [Lock(i)] + ops, [Unlock(i)]);
    LockedAppend(pre + [Lock(i)], ops);
    LockedAppend(pre, [Lock(i)]);
    assert Locked([Unlock(i)]) == [];
    assert Locked([Lock(i)]) == [i];
  }

  /** One more channel, after channels that all completed: its calls under its guard. */
  lemma SweepStep(qss: seq<seq<Query>>, failing: set<Op>, n: nat)
    requires 0 < n <= |qss| && Sweep(qss, failing, n - 1).ok
    ensures Sweep(qss, failing, n).ops
         == Sweep(qss, failing, n - 1).ops + [Lock(n - 1)] + RunQueries(qss[n - 1], failing).ops + [Unlock(n - 1)]
  {
  }

  /** A channel's calls under its guard add exactly that channel to the guards taken. */
  lemma LockedStep(pre: seq<Op>, i: nat, qs: seq<Query>, failing: set<Op>)
    requires Calls(qs)
    ensures Locked(pre + [Lock(i)] + RunQueries(qs, failing).ops + [Unlock(i)]) == Locked(pre) + [i]
  {
    RunHasNoGuards(qs, failing);
    LockedBlock(pre, i, RunQueries(qs, failing).ops);
  }

  /** The channel indices 0, 1, ..., m - 1, in order. */
  function Upto(m: nat): seq<nat>
    decreases m
  {
    if m == 0 then [] else Upto(m - 1) + [m - 1]
  }

  lemma {:induction false} UptoIndex(m: nat)
    ensures |Upto(m)| == m && forall k :: 0 <= k < m ==> Upto(m)[k] == k
    decreases m
  {
    if m > 0 {
      UptoIndex(m - 1);
    }
  }

  /** The guards a sweep takes are those of the first channels, in order; of all `n` when it completes. */
  lemma {:induction false} SweepLocked(qss: seq<seq<Query>>, failing: set<Op>, n: nat)
    requires n <= |qss|
    requires forall c :: 0 <= c < |qss| ==> Calls(qss[c])
    ensures var s := Sweep(qss, failing, n);
      |Locked(s.ops)| <= n && Locked(s.ops) == Upto(|Locked(s.ops)|) && (s.ok ==> |Locked(s.ops)| == n)
    decreases n
  {
    if n > 0 {
      SweepLocked(qss, failing, n - 1);
      var prev := Sweep(qss, failing, n - 1);
      if prev.ok {
        SweepStep(qss, failing, n);
        LockedStep(prev.ops, n - 1, qss[n - 1], failing);
      }
    }
  }

  /**
   * Channels are visited in enumeration order, each once: the guards taken
   * are those of channels 0, 1, 2, ... and, when every query succeeded, of
   * all `n` channels.
   */
  lemma SweepVisitsInOrder(qss: seq<seq<Query>>, failing: set<Op>, n: nat)
    requires n <= |qss|
    requires forall c :: 0 <= c < |qss| ==> Calls(qss[c])
    ensures var locked := Locked(Sweep(qss, failing, n).ops);
      |locked| <= n
      && (forall k :: 0 <= k < |locked| ==> locked[k] == k)
      && (Sweep(qss, failing, n).ok ==> |locked| == n)
  {
    SweepLocked(qss, failing, n);
    UptoIndex(|Locked(Sweep(qss, failing, n).ops)|);
  }

  /** The status loop releases every channel guard it takes, one channel at a time. */
  lemma {:induction false} SweepReleasesGuards(qss: seq<seq<Query>>, failing: set<Op>, n: nat)
    requires n <= |qss|
    requires forall c :: 0 <= c < |qss| ==> Calls(qss[c])
    ensures GuardsReleased(Sweep(qss, failing, n).ops)
    decreases n
  {
    if n > 0 {
      SweepReleasesGuards(qss, failing, n - 1);
      var prev := Sweep(qss, failing, n - 1);
      if prev.ok {
        var q := RunQueries(qss[n - 1], failing);
        RunHasNoGuards(qss[n - 1], failing);
        var block := [Lock(n - 1)] + q.ops + [Unlock(n - 1)];
        assert Sweep(qss, failing, n).ops == prev.ops + block;
        TrackAppend(Free, prev.ops, block);
        GuardedBlock([], n - 1, q.ops);
        assert [] + [Lock(n - 1)] + q.ops + [Unlock(n - 1)] == block;
      }
    }
  }

  // ---------------------------------------------------------------------
  // One invocation's view of the instrument
  // ---------------------------------------------------------------------

  /**
   * The instrument's side of one command invocation: the calls it rejects,
   * the trace of calls and guard markers so far, and the lines printed.
   */
  class Session {
    const failing: set<Op>
    var trace: seq<Op>
    var output: seq<Line>

    constructor (failing: set<Op>)
      ensures this.failing == failing && trace == [] && output == []
    {
      this.failing := failing;
      trace := [];
      output := [];
    }

    /** Make the calls of `qs` in order, printing after each success, until one is rejected. */
    method Perform(qs: seq<Query>) returns (ok: bool)
      modifies this
      ensures var r := RunQueries(qs, failing);
        ok == r.ok && trace == old(trace) + r.ops && output == old(output) + r.lines
    {
      var k := 0;
      while k < |qs|
        invariant 0 <= k <= |qs|
        invariant forall j :: 0 <= j < k ==> qs[j].op !in failing
        invariant trace == old(trace) + Ops(qs[..k])
        invariant output == old(output) + Lines(qs[..k])
      {
        trace := trace + [qs[k].op];
        assert Ops(qs[..k + 1]) == Ops(qs[..k]) + [qs[k].op];
        if qs[k].op in failing {
          RunQueriesFailsAt(qs, failing, k);
          return false;
        }
        output := output + qs[k].shows;
        LinesAppend(qs[..k], [qs[k]]);
        assert qs[..k + 1] == qs[..k] + [qs[k]];
        k := k + 1;
      }
      assert qs[..k] == qs;
      ok := true;
    }

    /** Make one call, printing its lines if it succeeds. */
    method Call(q: Query) returns (ok: bool)
      modifies this
      ensures var r := Attempt(q, failing);
        ok == r.ok && trace == old(trace) + r.ops && output == old(output) + r.lines
    {
      trace := trace + [q.op];
      ok := q.op !in failing;
      if ok {
        output := output + q.shows;
      }
    }

    /** `get_chan`: parse the selector, then look the channel up among `count` channels. */
    method Lookup(count: nat, sel: string) returns (r: Resolved)
      modifies this`trace
      ensures r == Resolve(count, failing, sel)
      ensures trace == old(trace) + (if r.Found? then [GetChannel(r.index)] else r.ops)
    {
      var parsed := ParseIndex(sel);
      if parsed.None? {
        return NotFound(BadIndex, []);
      }
      var i := parsed.value;
      trace := trace + [GetChannel(i)];
      if GetChannel(i) in failing {
        r := NotFound(DeviceFault, [GetChannel(i)]);
      } else if i >= count {
        r := NotFound(NoChannel(i), [GetChannel(i)]);
      } else {
        r := Found(i);
      }
    }

    /** Run `qs` while holding channel `i`'s guard. */
    method Visit(i: nat, qs: seq<Query>) returns (ok: bool)
      modifies this
      ensures var r := RunQueries(qs, failing);
        ok == r.ok && trace == old(trace) + [Lock(i)] + r.ops + [Unlock(i)]
        && output == old(output) + r.lines
    {
      Acquire(i);
      ok := Perform(qs);
      Release(i);
    }

    /**
     * The status loop: for each channel in enumeration order, run its
     * queries under its guard; stop after the first channel whose queries fail.
     */
    method VisitAll(plan: seq<seq<Query>>) returns (ok: bool)
      modifies this
      ensures var s := Sweep(plan, failing, |plan|);
        ok == s.ok && trace == old(trace) + s.ops && output == old(output) + s.lines
    {
      ghost var s := Run([], [], true);
      ok := true;
      var k := 0;
      while k < |plan| && ok
        invariant 0 <= k <= |plan|
        invariant s == Sweep(plan, failing, k) && ok == s.ok
        invariant trace == old(trace) + s.ops
        invariant output == old(output) + s.lines
      {
        ghost var q := RunQueries(plan[k], failing);
        ok := Visit(k, plan[k]);
        RegroupBlock(old(trace), s.ops, [Lock(k)], q.ops, [Unlock(k)]);
        Regroup(old(output), s.lines, q.lines);
        s := Run(s.ops + [Lock(k)] + q.ops + [Unlock(k)], s.lines + q.lines, q.ok);
        k := k + 1;
      }
      if !ok {
        SweepStops(plan, failing, k, |plan|);
      }
    }

    /** Take channel `i`'s guard. */
    method Acquire(i: nat)
      modifies this`trace
      ensures trace == old(trace) + [Lock(i)]
    {
      trace := trace + [Lock(i)];
    }

    /** Release channel `i`'s guard (the guard going out of scope). */
    method Release(i: nat)
      modifies this`trace
      ensures trace == old(trace) + [Unlock(i)]
    {
      trace := trace + [Unlock(i)];
    }

    /** Print lines of text. */
    method Print(texts: seq<string>)
      modifies this`output
      ensures output == old(output) + TextLines(texts)
    {
      output := output + TextLines(texts);
    }
  }
}
