/**
 * The command router: a table of handler descriptors and the resolution of
 * a user's command token to exactly one of them by case-sensitive prefix,
 * with an on-demand help listing.
 *
 * The router decides; it does not run anything. A handler's callback is
 * not data here: `RunCommand` answers with the index of the handler to
 * invoke, and the device module that owns the table invokes the handler at
 * that index with the argument list it was given.
 */
module Command {
  import opened Prelude

  /** One handler descriptor: its name, the usage of its arguments if it takes any, and its help text. */
  datatype Handler = Handler(cmd: string, args: Option<string>, help: string)

  /** `cmd_hdlr!`: a handler that takes no arguments. */
  function CmdHdlr(cmd: string, help: string): Handler {
    Handler(cmd, None, help)
  }

  /** `cmd_hdlr_args!`: a handler with a usage string for its arguments. */
  function CmdHdlrArgs(cmd: string, args: string, help: string): Handler {
    Handler(cmd, Some(args), help)
  }

  /** The registry: a label for the help header and the handlers in registration order. */
  datatype Commands = Commands(modName: string, handlers: seq<Handler>)

  /** What the router decides for one argument list. */
  datatype Route =
    | Failed(error: Error)       // missing, unknown or ambiguous command; no handler runs
    | Help(lines: seq<string>)   // the help listing is printed
    | Dispatch(index: nat)       // the handler at `index` is invoked with the full argument list

  /** `name.starts_with(token)`: case-sensitive literal prefix. */
  predicate StartsWith(name: string, token: string) {
    token <= name
  }

  /** A token that differs from a name at a position both have is not a prefix of it. */
  lemma NotPrefixAt(name: string, token: string, k: nat)
    requires k < |token| && k < |name| && name[k] != token[k]
    ensures !StartsWith(name, token)
  { }

  /** One line of the help listing. */
  function HelpLine(h: Handler): string {
    match h.args
    case Some(usage) => "  " + h.cmd + " " + usage + ": " + h.help
    case None => "  " + h.cmd + ": " + h.help
  }

  /** The help listing: a header line, then one line per handler in registration order. */
  function HelpListing(c: Commands): (lines: seq<string>)
    ensures |lines| == |c.handlers| + 1
    ensures lines[0] == c.modName + " commands:"
    ensures forall i :: 0 <= i < |c.handlers| ==> lines[i + 1] == HelpLine(c.handlers[i])
  {
    [c.modName + " commands:"] + seq(|c.handlers|, i requires 0 <= i < |c.handlers| => HelpLine(c.handlers[i]))
  }

  /** Indices strictly increasing: registration order is kept. */
  predicate Increasing(m: seq<nat>) {
    forall j, k :: 0 <= j < k < |m| ==> m[j] < m[k]
  }

  /** The handler names, in registration order. */
  function Cmds(hs: seq<Handler>): (names: seq<string>)
    ensures |names| == |hs|
    ensures forall i :: 0 <= i < |hs| ==> names[i] == hs[i].cmd
  {
    seq(|hs|, i requires 0 <= i < |hs| => hs[i].cmd)
  }

  /**
   * The candidates for `token`: the indices of exactly the names that start
   * with it, in registration order.
   */
  function Candidates(names: seq<string>, token: string): (m: seq<nat>)
    ensures forall k :: 0 <= k < |m| ==> m[k] < |names| && StartsWith(names[m[k]], token)
    ensures forall i :: 0 <= i < |names| && StartsWith(names[i], token) ==> i in m
    ensures Increasing(m)
    decreases |names|
  {
    if names == [] then []
    else
      var m := Candidates(names[..|names| - 1], token);
      if StartsWith(names[|names| - 1], token) then m + [|names| - 1] else m
  }

  /** The names at the indices `m`. */
  function Pick(names: seq<string>, m: seq<nat>): (picked: seq<string>)
    requires forall k :: 0 <= k < |m| ==> m[k] < |names|
  {
    seq(|m|, k requires 0 <= k < |m| => names[m[k]])
  }

  /** `Commands::run_command`, without running the chosen handler. */
  function RunCommand(c: Commands, args: seq<string>): (r: Route)
    ensures r.Dispatch? ==> args != [] && r.index < |c.handlers|
  {
    if args == [] then Failed(MissingCommand)
    else if args[0] == "help" then Help(HelpListing(c))
    else
      var names := Cmds(c.handlers);
      var m := Candidates(names, args[0]);
      if m == [] then Failed(NoMatch(args[0]))
      else if |m| > 1 then Failed(Ambiguous(Pick(names, m)))
      else Dispatch(m[0])
  }

  // ---------------------------------------------------------------------
  // Properties of the router
  // ---------------------------------------------------------------------

  /** When no handler's name starts with the token there are no candidates. */
  lemma {:induction false} CandidatesOfNone(names: seq<string>, token: string)
    requires forall j :: 0 <= j < |names| ==> !StartsWith(names[j], token)
    ensures Candidates(names, token) == []
    decreases |names|
  {
    if names != [] {
      CandidatesOfNone(names[..|names| - 1], token);
    }
  }

  /** A handler that is the only one starting with the token is the only candidate. */
  lemma {:induction false} CandidatesOfSingle(names: seq<string>, token: string, i: nat)
    requires i < |names| && StartsWith(names[i], token)
    requires forall j :: 0 <= j < |names| && j != i ==> !StartsWith(names[j], token)
    ensures Candidates(names, token) == [i]
    decreases |names|
  {
    if i == |names| - 1 {
      CandidatesOfNone(names[..|names| - 1], token);
    } else {
      CandidatesOfSingle(names[..|names| - 1], token, i);
    }
  }

  /** An increasing list of exactly the indices of matching handlers. */
  predicate ListsMatches(names: seq<string>, token: string, m: seq<nat>) {
    Increasing(m)
    && (forall k :: 0 <= k < |m| ==> m[k] < |names| && StartsWith(names[m[k]], token))
    && (forall i :: 0 <= i < |names| && StartsWith(names[i], token) ==> i in m)
  }

  /** When the last name matches, it ends the list, and the rest lists the matches among the others. */
  lemma ListsMatchesLast(names: seq<string>, token: string, m: seq<nat>)
    requires names != [] && ListsMatches(names, token, m) && StartsWith(names[|names| - 1], token)
    ensures m != [] && m == m[..|m| - 1] + [|names| - 1]
    ensures ListsMatches(names[..|names| - 1], token, m[..|m| - 1])
  {
    var n := |names| - 1;
    assert n in m;
    var t :| 0 <= t < |m| && m[t] == n;
    assert m[t] <= m[|m| - 1];
    var init := m[..|m| - 1];
    forall i | 0 <= i < n && StartsWith(names[..n][i], token) ensures i in init {
      assert i in m;
      var u :| 0 <= u < |m| && m[u] == i;
      assert init[u] == i;
    }
  }

  /** When the last name does not match, the list lists the matches among the others. */
  lemma ListsMatchesNotLast(names: seq<string>, token: string, m: seq<nat>)
    requires names != [] && ListsMatches(names, token, m) && !StartsWith(names[|names| - 1], token)
    ensures ListsMatches(names[..|names| - 1], token, m)
  {
    forall k | 0 <= k < |m| ensures m[k] < |names| - 1 {
      assert m[k] != |names| - 1;
    }
  }

  /**
   * The candidates are determined by the set of matching handlers: any
   * increasing list of exactly the matching indices is the candidate list.
   */
  lemma {:induction false} CandidatesAre(names: seq<string>, token: string, m: seq<nat>)
    requires ListsMatches(names, token, m)
    ensures Candidates(names, token) == m
    decreases |names|
  {
    assert m != [] ==> m[0] < |names|;
    if m == [] {
      CandidatesOfNone(names, token);
    } else if StartsWith(names[|names| - 1], token) {
      ListsMatchesLast(names, token, m);
      CandidatesAre(names[..|names| - 1], token, m[..|m| - 1]);
    } else {
      ListsMatchesNotLast(names, token, m);
      CandidatesAre(names[..|names| - 1], token, m);
    }
  }

  /** Lengthening a token towards the only name it starts keeps that name the only candidate. */
  lemma NarrowedToken(names: seq<string>, token: string, longer: string, i: nat)
    requires i < |names| && Candidates(names, token) == [i]
    requires token <= longer && StartsWith(names[i], longer)
    ensures Candidates(names, longer) == [i]
  {
    forall j | 0 <= j < |names| && StartsWith(names[j], longer) ensures j in [i] {
      assert names[j][..|longer|][..|token|] == names[j][..|token|];
      assert StartsWith(names[j], token);
    }
    CandidatesAre(names, longer, [i]);
  }

  /** Empty input is rejected before anything else. */
  lemma EmptyArgsRejected(c: Commands)
    ensures RunCommand(c, []) == Failed(MissingCommand)
  { }

  /**
   * The token `help` always yields the listing of every handler, in
   * registration order, whatever follows it and even when a handler's name
   * starts with `help`.
   */
  lemma HelpAlwaysListed(c: Commands, rest: seq<string>)
    ensures RunCommand(c, ["help"] + rest) == Help(HelpListing(c))
  { }

  /** The empty token is a prefix of every name: every handler is a candidate. */
  lemma {:induction false} EmptyTokenMatchesAll(names: seq<string>)
    ensures Candidates(names, "") == seq(|names|, i => i)
    decreases |names|
  {
    if names != [] {
      EmptyTokenMatchesAll(names[..|names| - 1]);
    }
  }

  /** No candidates: the error names the token, and no handler is invoked. */
  lemma NoMatchExactly(c: Commands, args: seq<string>)
    requires args != [] && args[0] != "help"
    ensures RunCommand(c, args) == Failed(NoMatch(args[0]))
        <==> forall i :: 0 <= i < |c.handlers| ==> !StartsWith(c.handlers[i].cmd, args[0])
  {
    if forall i :: 0 <= i < |c.handlers| ==> !StartsWith(c.handlers[i].cmd, args[0]) {
      CandidatesOfNone(Cmds(c.handlers), args[0]);
    }
  }

  /**
   * A unique candidate: the handler at `i` is invoked exactly when its name
   * starts with the token and no other handler's name does.
   */
  lemma DispatchExactly(c: Commands, args: seq<string>, i: nat)
    requires args != [] && args[0] != "help"
    ensures RunCommand(c, args) == Dispatch(i)
        <==> i < |c.handlers| && StartsWith(c.handlers[i].cmd, args[0])
             && forall j :: 0 <= j < |c.handlers| && j != i ==> !StartsWith(c.handlers[j].cmd, args[0])
  {
    var names := Cmds(c.handlers);
    var m := Candidates(names, args[0]);
    if RunCommand(c, args) == Dispatch(i) {
      assert m == [i];
      forall j | 0 <= j < |names| && j != i ensures !StartsWith(names[j], args[0]) {
        assert StartsWith(names[j], args[0]) ==> j in m;
      }
    }
    if i < |names| && StartsWith(names[i], args[0])
       && forall j :: 0 <= j < |names| && j != i ==> !StartsWith(names[j], args[0]) {
      CandidatesOfSingle(names, args[0], i);
    }
  }

  /**
   * Two or more candidates: the error lists exactly the names of the
   * handlers that start with the token, in registration order, and no
   * handler is invoked.
   */
  lemma AmbiguousExactly(c: Commands, args: seq<string>, i: nat, j: nat)
    requires args != [] && args[0] != "help"
    requires i < j < |c.handlers|
    requires StartsWith(c.handlers[i].cmd, args[0]) && StartsWith(c.handlers[j].cmd, args[0])
    ensures RunCommand(c, args).Failed? && RunCommand(c, args).error.Ambiguous?
    ensures var listed := RunCommand(c, args).error.names;
      var m := Candidates(Cmds(c.handlers), args[0]);
      |listed| == |m| >= 2 && forall k :: 0 <= k < |m| ==> listed[k] == c.handlers[m[k]].cmd
  {
    var m := Candidates(Cmds(c.handlers), args[0]);
    assert i in m && j in m;
    var ki :| 0 <= ki < |m| && m[ki] == i;
    var kj :| 0 <= kj < |m| && m[kj] == j;
    assert ki != kj;
  }

  /** The route is decided by the command token alone: the other arguments never matter. */
  lemma RouteIgnoresRest(c: Commands, token: string, rest1: seq<string>, rest2: seq<string>)
    ensures RunCommand(c, [token] + rest1) == RunCommand(c, [token] + rest2)
  { }

  /**
   * Exact names are not preferred: a handler's full name selects it if and
   * only if no other handler's name starts with it.
   */
  lemma ExactNameDispatch(c: Commands, i: nat, rest: seq<string>)
    requires i < |c.handlers| && c.handlers[i].cmd != "help"
    ensures RunCommand(c, [c.handlers[i].cmd] + rest) == Dispatch(i)
        <==> forall j :: 0 <= j < |c.handlers| && j != i ==> !StartsWith(c.handlers[j].cmd, c.handlers[i].cmd)
  {
    DispatchExactly(c, [c.handlers[i].cmd] + rest, i);
  }

  /** In a table where no name is a prefix of another, every full name selects its own handler. */
  lemma PrefixFreeTableDispatchesNames(c: Commands, i: nat, rest: seq<string>)
    requires forall j, k :: 0 <= j < |c.handlers| && 0 <= k < |c.handlers| && j != k
                            ==> !StartsWith(c.handlers[k].cmd, c.handlers[j].cmd)
    requires i < |c.handlers| && c.handlers[i].cmd != "help"
    ensures RunCommand(c, [c.handlers[i].cmd] + rest) == Dispatch(i)
  {
    ExactNameDispatch(c, i, rest);
  }
}
