/**
 * The privileged-exec orchestrator: ask the session guard whether elevation
 * is available, ask a human when it is not, record the elevation, run the
 * command as an argument vector (optionally under `sudo --`), and in a
 * `finally` block drop the session unless it is to be kept.
 *
 * The guard, the human and the child process are oracles: their exit codes
 * and the answer typed at the prompt are inputs. What the orchestrator does
 * to the outside world is recorded as a trace of events.
 */
module PrivilegedExec {
  import opened Text

  /** The guard subcommands the orchestrator invokes (through `run_guard`). */
  datatype GuardCall =
    | Authorize(argv: seq<string>)
    | NormalUsed
    | Approve(reason: string, argv: seq<string>)
    | ElevatedUsed
    | DropSession

  datatype Event =
    | Guard(call: GuardCall)
    | Prompt(reason: string, argv: seq<string>)  // the approval question and the argv shown
    | Spawn(argv: seq<string>)                   // `subprocess.run` of the target command
    | ForgetSudo                                 // `sudo -k`

  /** How the target command ended: an exit status, or `subprocess.run` raised. */
  datatype ChildOutcome = Exited(code: int) | SpawnFailed

  /** How `main` ended: an exit status, or the exception escaping it. */
  datatype Outcome = Exit(code: int) | Raised

  /** The parsed command line: `--reason`, the three flags and the remainder. */
  datatype Invocation = Invocation(
    reason: string,
    useSudo: bool,
    sudoKillCache: bool,
    keepSession: bool,
    command: seq<string>)

  /** What the outside world answers: the guard's two checked exit codes, the human, the child. */
  datatype Oracle = Oracle(
    authorizeCode: int,
    answer: string,
    approveCode: int,
    child: ChildOutcome)

  /**
   * The argv to run: exactly one leading `--` delimiter is removed, the rest
   * is passed on unchanged.
   */
  function StripDelimiter(command: seq<string>): (argv: seq<string>)
    ensures command == (if |argv| < |command| then ["--"] else []) + argv
    ensures |command| - 1 <= |argv| <= |command|
    ensures command != [] && command[0] == "--" ==> argv == command[1..]
    ensures !(command != [] && command[0] == "--") ==> argv == command
  {
    if command != [] && command[0] == "--" then command[1..] else command
  }

  /** `ask_for_approval`'s test of the answer: trimmed and lower-cased, "y" or "yes". */
  predicate Accepts(answer: string) {
    var a := Lower(Strip(answer));
    a == "y" || a == "yes"
  }

  /** An affirmative word, in any letter case, surrounded by any whitespace is accepted. */
  lemma AcceptsPaddedYes(pre: string, word: string, post: string)
    requires AllSpace(pre) && AllSpace(post)
    requires Lower(word) == "y" || Lower(word) == "yes"
    ensures Accepts(pre + word + post)
  {
    assert !IsSpace(word[0]) && !IsSpace(word[|word| - 1]);
    StripPadded(pre, word, post);
  }

  /**
   * An accepted answer is an affirmative word with whitespace around it and
   * nothing else.
   */
  lemma AcceptedIsPaddedYes(answer: string)
    requires Accepts(answer)
    ensures exists pre, word, post ::
      && answer == pre + word + post
      && AllSpace(pre) && AllSpace(post)
      && (Lower(word) == "y" || Lower(word) == "yes")
  {
    StripRemovesSpace(answer);
    StripDecomposes(answer);
    var a := LeadingSpaces(answer);
    var word := Strip(answer);
    assert answer == answer[..a] + word + answer[a + |word|..];
  }

  /** An empty or all-whitespace answer is a denial. */
  lemma BlankAnswerDenies(answer: string)
    requires AllSpace(answer)
    ensures !Accepts(answer)
  {
  }

  /** `run_command`'s argv: `sudo --` in front when asked for, the user's argv unchanged after it. */
  function ExecArgv(argv: seq<string>, useSudo: bool): (r: seq<string>)
    ensures |r| == |argv| + (if useSudo then 2 else 0)
    ensures r[|r| - |argv|..] == argv
    ensures useSudo ==> r[..2] == ["sudo", "--"]
    ensures !useSudo ==> r == argv
  {
    if useSudo then ["sudo", "--"] + argv else argv
  }

  /** The trace contains a spawn of some command. */
  predicate Spawned(trace: seq<Event>) {
    exists e :: e in trace && e.Spawn?
  }

  /** The trace spawns exactly one command, `run`, at position `k`. */
  predicate RunsOnceAt(trace: seq<Event>, run: Event, k: int) {
    && 0 <= k < |trace| && trace[k] == run
    && (forall i :: 0 <= i < |trace| && trace[i].Spawn? ==> i == k)
  }

  /**
   * The run at position `k` is immediately preceded by `sudo -k`, the trace
   * ends with `sudo -k`, and `sudo -k` happens at no other time.
   */
  predicate ForgetsAroundRunAt(trace: seq<Event>, k: int) {
    && 0 < k < |trace| && trace[k].Spawn? && trace[k - 1] == ForgetSudo
    && trace[|trace| - 1] == ForgetSudo
    && (forall i :: 0 <= i < |trace| && trace[i] == ForgetSudo ==> i == k - 1 || i == |trace| - 1)
  }

  /** Some occurrence of `a` comes before some occurrence of `b`. */
  predicate Precedes(trace: seq<Event>, a: Event, b: Event) {
    exists i, j :: 0 <= i < j < |trace| && trace[i] == a && trace[j] == b
  }

  /** The guard allowed the command to proceed to the `try` block. */
  predicate Cleared(argv: seq<string>, oracle: Oracle) {
    && argv != []
    && (oracle.authorizeCode == 0 ||
        (oracle.authorizeCode == 2 && Accepts(oracle.answer) && oracle.approveCode == 0))
  }

  /** How `main` leaves its exchange with the guard and the human. */
  datatype Gate =
    | NoCommand                  // nothing to run
    | GuardFault(code: int)      // `authorize` answered neither 0 nor 2
    | Denied                     // approval was required and refused
    | ApprovalFailed(code: int)  // approval was given but `approve` failed
    | Proceed(approved: bool)    // on to the `try` block; `approved` when approval was required

  /** The decision `main` takes from the guard's answers and the human's. */
  function GateOf(argv: seq<string>, oracle: Oracle): (g: Gate)
    ensures g.Proceed? <==> Cleared(argv, oracle)
    ensures g.Proceed? ==> (g.approved <==> oracle.authorizeCode == 2)
    ensures g.GuardFault? ==> g.code != 0 && g.code != 2
    ensures g.ApprovalFailed? ==> g.code != 0 && Accepts(oracle.answer)
    ensures g == Denied <==> argv != [] && oracle.authorizeCode == 2 && !Accepts(oracle.answer)
    ensures g == NoCommand <==> argv == []
  {
    if argv == [] then NoCommand
    else if oracle.authorizeCode != 0 && oracle.authorizeCode != 2 then GuardFault(oracle.authorizeCode)
    else if oracle.authorizeCode == 0 then Proceed(false)
    else if !Accepts(oracle.answer) then Denied
    else if oracle.approveCode != 0 then ApprovalFailed(oracle.approveCode)
    else Proceed(true)
  }

  /** What `main` returns once the command has been started: the child's status, or the exception. */
  function Finished(child: ChildOutcome): Outcome {
    if child.Exited? then Exit(child.code) else Raised
  }

  /** Recording elevated use, at the start of the `try` block, only when running under sudo. */
  function Elevation(inv: Invocation): seq<Event> {
    if inv.useSudo then [Guard(ElevatedUsed)] else []
  }

  /** `run_command`'s events: `sudo -k` when asked for, then the run itself. */
  function RunEvents(argv: seq<string>, useSudo: bool, sudoKillCache: bool): seq<Event> {
    (if useSudo && sudoKillCache then [ForgetSudo] else []) + [Spawn(ExecArgv(argv, useSudo))]
  }

  /** The `finally` block: drop the session unless it is kept, forget the sudo credentials when asked. */
  function Cleanup(inv: Invocation): seq<Event> {
    (if inv.keepSession then [] else [Guard(DropSession)])
    + (if inv.useSudo && inv.sudoKillCache then [ForgetSudo] else [])
  }

  /** The events of the `try`/`finally` block once the guard has cleared the command. */
  function TryTrace(argv: seq<string>, inv: Invocation): seq<Event> {
    Elevation(inv) + RunEvents(argv, inv.useSudo, inv.sudoKillCache) + Cleanup(inv)
  }

  /** The exchange with the guard and the human before the `try` block, on the cleared path. */
  function Asked(approved: bool, argv: seq<string>, reason: string): seq<Event> {
    [Guard(Authorize(argv))] +
    (if approved then [Prompt(reason, argv), Guard(Approve(reason, argv))] else [])
  }

  /** The events `main` causes once the gate is decided. */
  function PathTrace(g: Gate, argv: seq<string>, inv: Invocation): seq<Event> {
    match g
    case NoCommand => []
    case GuardFault(_) => [Guard(Authorize(argv))]
    case Denied => [Guard(Authorize(argv)), Prompt(inv.reason, argv), Guard(NormalUsed)]
    case ApprovalFailed(_) =>
      [Guard(Authorize(argv)), Prompt(inv.reason, argv), Guard(Approve(inv.reason, argv))]
    case Proceed(approved) => Asked(approved, argv, inv.reason) + TryTrace(argv, inv)
  }

  /** How `main` ends once the gate is decided. */
  function PathOutcome(g: Gate, child: ChildOutcome): Outcome {
    match g
    case NoCommand => Exit(2)
    case GuardFault(code) => Exit(code)
    case Denied => Exit(1)
    case ApprovalFailed(code) => Exit(code)
    case Proceed(_) => Finished(child)
  }

  /** The whole protocol of `main`: how it ends and what it did. */
  function Protocol(inv: Invocation, oracle: Oracle): (Outcome, seq<Event>) {
    var argv := StripDelimiter(inv.command);
    var g := GateOf(argv, oracle);
    (PathOutcome(g, oracle.child), PathTrace(g, argv, inv))
  }

  /**
   * `run_command`: optionally forget cached sudo credentials, then run the
   * argv and report how the child ended.
   */
  method RunCommand(argv: seq<string>, useSudo: bool, sudoKillCache: bool, child: ChildOutcome)
    returns (result: ChildOutcome, events: seq<Event>)
    ensures result == child
    ensures events == RunEvents(argv, useSudo, sudoKillCache)
  {
    var execArgv := ExecArgv(argv, useSudo);
    events := [];
    if useSudo && sudoKillCache {
      events := events + [ForgetSudo];
    }
    events := events + [Spawn(execArgv)];
    result := child;
  }

  /**
   * The `try`/`finally` block of `main`: record elevated use under sudo, run
   * the command, then drop the session unless it is kept and forget the sudo
   * credentials when asked to.
   */
  method GuardedRun(argv: seq<string>, inv: Invocation, child: ChildOutcome)
    returns (result: ChildOutcome, events: seq<Event>)
    ensures result == child
    ensures events == TryTrace(argv, inv)
  {
    events := [];
    // try
    if inv.useSudo {
      events := events + [Guard(ElevatedUsed)];
    }
    var ran;
    result, ran := RunCommand(argv, inv.useSudo, inv.sudoKillCache, child);
    events := events + ran;
    ghost var started := events;
    // finally
    if !inv.keepSession {
      events := events + [Guard(DropSession)];
    }
    if inv.useSudo && inv.sudoKillCache {
      events := events + [ForgetSudo];
    }
    assert events == started + Cleanup(inv);
  }

  /** `main`, step by step, recording what it does to the outside world. */
  method Execute(inv: Invocation, oracle: Oracle) returns (outcome: Outcome, trace: seq<Event>)
    ensures (outcome, trace) == Protocol(inv, oracle)
  {
    trace := [];
    if inv.command == [] {
      return Exit(2), trace;
    }
    var argv := StripDelimiter(inv.command);
    if argv == [] {
      return Exit(2), trace;
    }

    trace := [Guard(Authorize(argv))];
    var authz := oracle.authorizeCode;
    if authz != 0 && authz != 2 {
      return Exit(authz), trace;
    }

    var needsApproval := authz == 2;
    if needsApproval {
      trace := trace + [Prompt(inv.reason, argv)];
      if !Accepts(oracle.answer) {
        trace := trace + [Guard(NormalUsed)];
        assert trace == [Guard(Authorize(argv)), Prompt(inv.reason, argv), Guard(NormalUsed)];
        return Exit(1), trace;
      }
    }

    if needsApproval {
      trace := trace + [Guard(Approve(inv.reason, argv))];
      if oracle.approveCode != 0 {
        assert trace == [Guard(Authorize(argv)), Prompt(inv.reason, argv), Guard(Approve(inv.reason, argv))];
        return Exit(oracle.approveCode), trace;
      }
    }

    assert trace == Asked(needsApproval, argv, inv.reason);
    var child, events := GuardedRun(argv, inv, oracle.child);
    trace := trace + events;
    outcome := Finished(child);
  }

  /** Where the run sits in the cleared path: after the elevation record and the first `sudo -k`. */
  function RunIndex(inv: Invocation): nat {
    (if inv.useSudo then 1 else 0) + (if inv.useSudo && inv.sudoKillCache then 1 else 0)
  }

  /** The cleared path spelled out event by event, for each combination of the three flags. */
  lemma TryTraceCases(argv: seq<string>, inv: Invocation)
    ensures var run := Spawn(ExecArgv(argv, inv.useSudo));
      TryTrace(argv, inv) ==
        if !inv.useSudo then
          (if inv.keepSession then [run] else [run, Guard(DropSession)])
        else if !inv.sudoKillCache then
          (if inv.keepSession then [Guard(ElevatedUsed), run]
           else [Guard(ElevatedUsed), run, Guard(DropSession)])
        else
          (if inv.keepSession then [Guard(ElevatedUsed), ForgetSudo, run, ForgetSudo]
           else [Guard(ElevatedUsed), ForgetSudo, run, Guard(DropSession), ForgetSudo])
  {
  }

  /** The cleared path runs the command exactly once, and holds nothing but the four kinds of event. */
  lemma TryTraceRun(argv: seq<string>, inv: Invocation)
    ensures var t := TryTrace(argv, inv);
      && RunIndex(inv) < |t| && t[RunIndex(inv)] == Spawn(ExecArgv(argv, inv.useSudo))
      && (forall i :: 0 <= i < |t| && t[i].Spawn? ==> i == RunIndex(inv))
      && (forall e :: e in t ==> e.Spawn? || e.ForgetSudo? || e == Guard(ElevatedUsed) || e == Guard(DropSession))
  {
    TryTraceCases(argv, inv);
  }

  /** The cleared path records elevated use first, exactly when running under sudo. */
  lemma TryTraceElevation(argv: seq<string>, inv: Invocation)
    ensures var t := TryTrace(argv, inv);
      && (Guard(ElevatedUsed) in t <==> inv.useSudo)
      && (inv.useSudo ==> t != [] && t[0] == Guard(ElevatedUsed))
  {
    TryTraceCases(argv, inv);
  }

  /** The cleared path drops the session right after the run, exactly when it is not kept. */
  lemma TryTraceDrop(argv: seq<string>, inv: Invocation)
    ensures var t := TryTrace(argv, inv);
      && (Guard(DropSession) in t <==> !inv.keepSession)
      && (!inv.keepSession ==> RunIndex(inv) + 1 < |t| && t[RunIndex(inv) + 1] == Guard(DropSession))
  {
    TryTraceCases(argv, inv);
  }

  /** The cleared path forgets the sudo credentials just before the run and as its very last step, or never. */
  lemma TryTraceForget(argv: seq<string>, inv: Invocation)
    ensures var t := TryTrace(argv, inv);
      var forget := inv.useSudo && inv.sudoKillCache;
      && (ForgetSudo in t <==> forget)
      && (forget ==> 0 < RunIndex(inv) < |t| && t[RunIndex(inv) - 1] == ForgetSudo && t[|t| - 1] == ForgetSudo)
      && (forall i :: 0 <= i < |t| && t[i] == ForgetSudo ==> i == RunIndex(inv) - 1 || i == |t| - 1)
  {
    TryTraceCases(argv, inv);
  }

  /** Whatever the gate, only the cleared path runs anything, exactly once, after the guard's exchange. */
  lemma PathTraceRun(g: Gate, argv: seq<string>, inv: Invocation)
    ensures var t := PathTrace(g, argv, inv);
      && (Spawned(t) <==> g.Proceed?)
      && (g.Proceed? ==>
            RunsOnceAt(t, Spawn(ExecArgv(argv, inv.useSudo)), |Asked(g.approved, argv, inv.reason)| + RunIndex(inv)))
      && (!g.Proceed? ==> forall e :: e in t ==> 
            e.Prompt? || e in [Guard(Authorize(argv)), Guard(NormalUsed), Guard(Approve(inv.reason, argv))])
  {
    if g.Proceed? {
      var pre, tt := Asked(g.approved, argv, inv.reason), TryTrace(argv, inv);
      var t := pre + tt;
      var p := |pre|;
      TryTraceRun(argv, inv);
      assert t[p + RunIndex(inv)] == tt[RunIndex(inv)];
      forall i | 0 <= i < |t| && t[i].Spawn?
        ensures i == p + RunIndex(inv)
      {
        assert t[i] == tt[i - p];
      }
    }
  }

  /** On the cleared path, the `try`/`finally` events sit behind the guard's exchange, unchanged. */
  lemma PathTraceSuffix(g: Gate, argv: seq<string>, inv: Invocation, i: nat)
    requires g.Proceed? && i < |TryTrace(argv, inv)|
    ensures var t := PathTrace(g, argv, inv);
      |Asked(g.approved, argv, inv.reason)| + i < |t| &&
      t[|Asked(g.approved, argv, inv.reason)| + i] == TryTrace(argv, inv)[i]
  {
  }

  /**
   * Whatever the gate, the human is asked about this command only, before
   * any approval is recorded; normal use is recorded only on a refusal, as
   * the last step.
   */
  lemma PathTraceExchange(g: Gate, argv: seq<string>, inv: Invocation)
    ensures var t := PathTrace(g, argv, inv);
      && (Prompt(inv.reason, argv) in t <==> g == Denied || g.ApprovalFailed? || (g.Proceed? && g.approved))
      && (forall e :: e in t && e.Prompt? ==> e == Prompt(inv.reason, argv))
      && (Guard(Approve(inv.reason, argv)) in t ==>
            |t| > 2 && t[1] == Prompt(inv.reason, argv) && t[2] == Guard(Approve(inv.reason, argv)))
      && (Guard(NormalUsed) in t <==> g == Denied)
      && (g == Denied ==> t[|t| - 1] == Guard(NormalUsed))
      && (Guard(DropSession) in t ==> g.Proceed?)
  {
    match g
    case Proceed(approved) =>
      var pre, tt := Asked(approved, argv, inv.reason), TryTrace(argv, inv);
      TryTraceRun(argv, inv);
      assert PathTrace(g, argv, inv) == pre + tt;
      assert Guard(NormalUsed) !in tt && Prompt(inv.reason, argv) !in tt;
    case _ =>
  }

  /** The guard is always consulted first; any answer other than 0 or 2 ends `main` with that code. */
  lemma AuthorizeComesFirst(inv: Invocation, oracle: Oracle)
    ensures var outcome, trace := Protocol(inv, oracle).0, Protocol(inv, oracle).1;
      var argv := StripDelimiter(inv.command);
      && (argv == [] ==> outcome == Exit(2) && trace == [])
      && (argv != [] ==> trace != [] && trace[0] == Guard(Authorize(argv)))
      && (argv != [] && oracle.authorizeCode != 0 && oracle.authorizeCode != 2 ==>
            outcome == Exit(oracle.authorizeCode) && trace == [Guard(Authorize(argv))])
  {
  }

  /** The human is asked exactly when the guard says approval is required, about this command. */
  lemma PromptOnlyWhenApprovalRequired(inv: Invocation, oracle: Oracle)
    ensures var outcome, trace := Protocol(inv, oracle).0, Protocol(inv, oracle).1;
      var argv := StripDelimiter(inv.command);
      && (Prompt(inv.reason, argv) in trace <==> argv != [] && oracle.authorizeCode == 2)
      && (forall e :: e in trace && e.Prompt? ==> e == Prompt(inv.reason, argv))
      && (Guard(Approve(inv.reason, argv)) in trace ==>
            Precedes(trace, Prompt(inv.reason, argv), Guard(Approve(inv.reason, argv))))
  {
    var argv := StripDelimiter(inv.command);
    var g := GateOf(argv, oracle);
    var t := PathTrace(g, argv, inv);
    PathTraceExchange(g, argv, inv);
    if Guard(Approve(inv.reason, argv)) in t {
      assert t[1] == Prompt(inv.reason, argv) && t[2] == Guard(Approve(inv.reason, argv));
    }
  }

  /**
   * A refusal records normal use and ends `main` with 1, and a failed
   * approval ends it with the guard's code: in neither case does anything run
   * or is the session dropped.
   */
  lemma DenialNeverRuns(inv: Invocation, oracle: Oracle)
    ensures var outcome, trace := Protocol(inv, oracle).0, Protocol(inv, oracle).1;
      var argv := StripDelimiter(inv.command);
      && (Guard(NormalUsed) in trace <==> argv != [] && oracle.authorizeCode == 2 && !Accepts(oracle.answer))
      && (Guard(NormalUsed) in trace ==>
            outcome == Exit(1) && trace[|trace| - 1] == Guard(NormalUsed) &&
            !Spawned(trace) && Guard(DropSession) !in trace)
      && (argv != [] && oracle.authorizeCode == 2 && Accepts(oracle.answer) && oracle.approveCode != 0 ==>
            outcome == Exit(oracle.approveCode) && !Spawned(trace) && Guard(DropSession) !in trace)
  {
    var argv := StripDelimiter(inv.command);
    var g := GateOf(argv, oracle);
    PathTraceExchange(g, argv, inv);
    PathTraceRun(g, argv, inv);
  }

  /**
   * The command runs if and only if the guard cleared it, exactly once, as
   * the user's argv behind `sudo --` when asked for; once it ran, `main`
   * ends as the child did, and `main` only succeeds when it ran.
   */
  lemma RunsIffCleared(inv: Invocation, oracle: Oracle)
    ensures var outcome, trace := Protocol(inv, oracle).0, Protocol(inv, oracle).1;
      var argv := StripDelimiter(inv.command);
      var run := Spawn(ExecArgv(argv, inv.useSudo));
      && (Spawned(trace) <==> Cleared(argv, oracle))
      && (Spawned(trace) ==> exists k :: RunsOnceAt(trace, run, k))
      && (Spawned(trace) ==> outcome == Finished(oracle.child))
      && (outcome == Exit(0) ==> Spawned(trace))
  {
    var argv := StripDelimiter(inv.command);
    var g := GateOf(argv, oracle);
    PathTraceRun(g, argv, inv);
  }

  /** Elevated use is recorded exactly when the command runs under sudo, and before it runs. */
  lemma ElevationRecordedBeforeRun(inv: Invocation, oracle: Oracle)
    ensures var outcome, trace := Protocol(inv, oracle).0, Protocol(inv, oracle).1;
      var run := Spawn(ExecArgv(StripDelimiter(inv.command), inv.useSudo));
      && (Guard(ElevatedUsed) in trace <==> Spawned(trace) && inv.useSudo)
      && (Guard(ElevatedUsed) in trace ==> Precedes(trace, Guard(ElevatedUsed), run))
  {
    var argv := StripDelimiter(inv.command);
    var g := GateOf(argv, oracle);
    var trace := PathTrace(g, argv, inv);
    PathTraceRun(g, argv, inv);
    TryTraceRun(argv, inv);
    TryTraceElevation(argv, inv);
    if g.Proceed? && inv.useSudo {
      PathTraceSuffix(g, argv, inv, 0);
      PathTraceSuffix(g, argv, inv, RunIndex(inv));
      assert RunIndex(inv) > 0;
    }
  }

  /** The session is dropped right after every run unless it is kept, and never when nothing ran. */
  lemma DropFollowsRun(inv: Invocation, oracle: Oracle)
    ensures var outcome, trace := Protocol(inv, oracle).0, Protocol(inv, oracle).1;
      var run := Spawn(ExecArgv(StripDelimiter(inv.command), inv.useSudo));
      && (Guard(DropSession) in trace <==> Spawned(trace) && !inv.keepSession)
      && (Guard(DropSession) in trace ==> Precedes(trace, run, Guard(DropSession)))
  {
    var argv := StripDelimiter(inv.command);
    var g := GateOf(argv, oracle);
    PathTraceRun(g, argv, inv);
    TryTraceRun(argv, inv);
    TryTraceDrop(argv, inv);
    if g.Proceed? && !inv.keepSession {
      PathTraceSuffix(g, argv, inv, RunIndex(inv));
      PathTraceSuffix(g, argv, inv, RunIndex(inv) + 1);
    }
  }

  /**
   * With `--sudo-kill-cache` under sudo, `sudo -k` runs right before the
   * command and as the very last step, and at no other time; otherwise never.
   */
  lemma SudoCacheForgottenAroundRun(inv: Invocation, oracle: Oracle)
    ensures var outcome, trace := Protocol(inv, oracle).0, Protocol(inv, oracle).1;
      && (ForgetSudo in trace <==> Spawned(trace) && inv.useSudo && inv.sudoKillCache)
      && (ForgetSudo in trace ==> exists k :: ForgetsAroundRunAt(trace, k))
  {
    var argv := StripDelimiter(inv.command);
    var g := GateOf(argv, oracle);
    var trace := PathTrace(g, argv, inv);
    PathTraceRun(g, argv, inv);
    TryTraceRun(argv, inv);
    TryTraceForget(argv, inv);
    if g.Proceed? && inv.useSudo && inv.sudoKillCache {
      var t := TryTrace(argv, inv);
      var p := |Asked(g.approved, argv, inv.reason)|;
      var k := p + RunIndex(inv);
      PathTraceSuffix(g, argv, inv, RunIndex(inv) - 1);
      PathTraceSuffix(g, argv, inv, RunIndex(inv));
      PathTraceSuffix(g, argv, inv, |t| - 1);
      forall i | 0 <= i < |trace| && trace[i] == ForgetSudo
        ensures i == k - 1 || i == |trace| - 1
      {
        if i >= p {
          PathTraceSuffix(g, argv, inv, i - p);
        }
      }
      assert ForgetsAroundRunAt(trace, k);
    }
  }
}
