/** The output protocol of an engine run: relay until the first event, buffer errors, drain, finish, dump the rest
    (cmd/inforge/deploy.go streamEngineRun). */
module Prelude {
  import opened Common

  datatype Source = Progress | Errors | Printer

  datatype Item = Item(source: Source, byte: bv8)

  function Tagged(source: Source, p: seq<bv8>): (r: seq<Item>)
    ensures |r| == |p|
  {
    if p == [] then [] else Tagged(source, p[..|p| - 1]) + [Item(source, p[|p| - 1])]
  }

  /** The error bytes that reached the writer, in order. */
  function ErrorsOf(out: seq<Item>): seq<bv8> {
    if out == [] then []
    else ErrorsOf(out[..|out| - 1]) + (if out[|out| - 1].source == Errors then [out[|out| - 1].byte] else [])
  }

  lemma {:induction false} ErrorsConcat(a: seq<Item>, b: seq<Item>)
    ensures ErrorsOf(a + b) == ErrorsOf(a) + ErrorsOf(b)
    decreases |b|
  {
    if b == [] {
      assert a + b == a;
    } else {
      ErrorsConcat(a, b[..|b| - 1]);
      assert (a + b)[..|a + b| - 1] == a + b[..|b| - 1] && (a + b)[|a + b| - 1] == b[|b| - 1];
    }
  }

  lemma {:induction false} ErrorsTagged(source: Source, p: seq<bv8>)
    ensures ErrorsOf(Tagged(source, p)) == if source == Errors then p else []
    decreases |p|
  {
    if p != [] {
      ErrorsTagged(source, p[..|p| - 1]);
      var r := Tagged(source, p);
      assert r[..|r| - 1] == Tagged(source, p[..|p| - 1]);
      assert p == p[..|p| - 1] + [p[|p| - 1]];
    }
  }

  // ---- The relay and its branches ----

  /** The shared part, guarded by one lock: each method below is one critical section. */
  class PreludeRelay {
    var out: seq<Item>
    var muted: bool

    constructor ()
      ensures out == [] && !muted
    {
      out, muted := [], false;
    }

    method Mute()
      modifies this`muted
      ensures muted
    {
      muted := true;
    }

    /** The printer and the final dump write past the relay, to the same writer. */
    method Direct(source: Source, p: seq<bv8>)
      modifies this`out
      ensures out == old(out) + Tagged(source, p)
    {
      out := out + Tagged(source, p);
    }
  }

  class PreludeBranch {
    const r: PreludeRelay
    const source: Source
    var n: nat

    constructor (r: PreludeRelay, source: Source)
      ensures this.r == r && this.source == source && n == 0
    {
      this.r, this.source, n := r, source, 0;
    }

    /** Relays what the writer accepts and counts it; swallows everything once muted. */
    method Write(p: seq<bv8>, accepted: nat) returns (count: nat)
      requires accepted <= |p|
      modifies this`n, r`out
      ensures count == if r.muted then |p| else accepted
      ensures r.out == old(r.out) + (if r.muted then [] else Tagged(source, p[..accepted]))
      ensures n == old(n) + (if r.muted then 0 else accepted)
    {
      if r.muted {
        return |p|;
      }
      r.out := r.out + Tagged(source, p[..accepted]);
      n := n + accepted;
      count := accepted;
    }

    method Relayed() returns (k: nat)
      ensures k == n
    {
      k := n;
    }
  }

  // ---- The run as a state machine ----

  /** Idle waits for an event; an event mutes the prelude, then is handled. */
  datatype Drainer = Idle | Muting | Handling | Done

  datatype Phase = Running | Waiting | Stopping | Finishing | Finished | Returned

  /** `written` is every error byte the engine wrote; `lost` and `kept` count the bytes of short writes and how many of
      them the writer took; `cut` is how many the final dump could not write. */
  datatype State = State(
    muted: bool, out: seq<Item>, relayed: nat, buffered: seq<bv8>, pending: Option<seq<bv8>>, written: seq<bv8>,
    lost: nat, kept: nat, queue: nat, closed: bool, drainer: Drainer, phase: Phase, failed: bool,
    failures: bool, cut: nat)

  const START := State(false, [], 0, [], None, [], 0, 0, 0, false, Idle, Running, false, false, 0)

  datatype Step =
    | WriteProgress(p: seq<bv8>)
    | WriteError(p: seq<bv8>)
    | WriteErrorShort(p: seq<bv8>, accepted: nat)
    | BufferError
    | SendEvent
    | CloseChannel
    | RunReturns(failed: bool)
    | Receive
    | MutePrelude
    | Handle(lines: seq<bv8>, failure: bool)
    | SeeClosed
    | SeeStop
    | GiveUp
    | Join
    | Finish(lines: seq<bv8>)
    | Dump
    | DumpShort(accepted: nat)

  function Shown(st: State): seq<bv8> {
    if st.failed && !st.failures then st.buffered[(if st.relayed < |st.buffered| then st.relayed else |st.buffered|)..]
    else []
  }

  predicate Enabled(st: State, s: Step) {
    match s
    case WriteProgress(_) => st.phase == Running
    case WriteError(_) => st.phase == Running && st.pending.None?
    case WriteErrorShort(p, k) => st.phase == Running && st.pending.None? && !st.muted && k < |p|
    case BufferError => st.pending.Some?
    case SendEvent => st.phase == Running && !st.closed
    case CloseChannel => !st.closed
    case RunReturns(_) => st.phase == Running && st.pending.None?
    case Receive => st.drainer == Idle && st.queue > 0
    case MutePrelude => st.drainer == Muting
    case Handle(_, _) => st.drainer == Handling
    case SeeClosed => st.drainer == Idle && st.closed && st.queue == 0
    case SeeStop => st.drainer == Idle && st.phase == Stopping
    case GiveUp => st.phase == Waiting
    case Join => (st.phase == Waiting || st.phase == Stopping) && st.drainer == Done
    case Finish(_) => st.phase == Finishing
    case Dump => st.phase == Finished
    case DumpShort(k) => st.phase == Finished && k < |Shown(st)|
  }

  function Next(st: State, s: Step): State
    requires Enabled(st, s)
  {
    match s
    case WriteProgress(p) => if st.muted then st else st.(out := st.out + Tagged(Progress, p))
    case WriteError(p) =>
      var w := st.(written := st.written + p, pending := Some(p));
      if st.muted then w else w.(out := st.out + Tagged(Errors, p), relayed := st.relayed + |p|)
    case WriteErrorShort(p, k) =>
      st.(written := st.written + p, out := st.out + Tagged(Errors, p[..k]), relayed := st.relayed + k,
          lost := st.lost + |p|, kept := st.kept + k)
    case BufferError => st.(buffered := st.buffered + st.pending.value, pending := None)
    case SendEvent => st.(queue := st.queue + 1)
    case CloseChannel => st.(closed := true)
    case RunReturns(f) => st.(phase := Waiting, failed := f)
    case Receive => st.(queue := st.queue - 1, drainer := Muting)
    case MutePrelude => st.(muted := true, drainer := Handling)
    case Handle(lines, failure) =>
      st.(out := st.out + Tagged(Printer, lines), drainer := Idle, failures := st.failures || failure)
    case SeeClosed => st.(drainer := Done)
    case SeeStop => st.(drainer := Done)
    case GiveUp => st.(phase := Stopping)
    case Join => st.(phase := Finishing)
    case Finish(lines) => st.(out := st.out + Tagged(Printer, lines), phase := Finished)
    case Dump => st.(out := st.out + Tagged(Errors, Shown(st)), phase := Returned)
    case DumpShort(k) => st.(out := st.out + Tagged(Errors, Shown(st)[..k]), cut := |Shown(st)| - k, phase := Returned)
  }

  function Buffered(st: State): seq<bv8> { st.buffered + (match st.pending case Some(p) => p case None => []) }

  /** Without short writes: nothing is relayed twice, and everything unrelayed is still buffered. */
  ghost predicate Exact(st: State) {
    && st.written == Buffered(st)
    && if st.phase == Returned && st.failed && !st.failures
       then st.cut <= |st.written| && ErrorsOf(st.out) == st.written[..|st.written| - st.cut]
       else st.relayed <= |st.written| && ErrorsOf(st.out) == st.written[..st.relayed]
  }

  /** With short writes: how many bytes can at most have been shown. */
  ghost predicate Counted(st: State) {
    && |st.written| == |Buffered(st)| + st.lost
    && (if st.lost == 0 then st.kept == 0 else st.kept < st.lost)
    && st.relayed <= |Buffered(st)| + st.kept
    && (if st.phase == Returned then |ErrorsOf(st.out)| <= |Buffered(st)| + st.kept
        else |ErrorsOf(st.out)| == st.relayed)
  }

  ghost predicate Control(st: State) {
    && (st.phase != Running ==> st.pending.None?)
    && (st.phase in {Finishing, Finished, Returned} ==> st.drainer == Done)
    && (st.cut > 0 ==> st.phase == Returned && st.failed && !st.failures)
    && (!st.muted && st.lost == 0 && st.phase != Returned ==> st.relayed == |st.written|)
  }

  ghost predicate Inv(st: State) { (st.lost == 0 ==> Exact(st)) && Counted(st) && Control(st) }

  lemma OutGrows(st: State, source: Source, p: seq<bv8>)
    ensures ErrorsOf(st.out + Tagged(source, p)) == ErrorsOf(st.out) + (if source == Errors then p else [])
  {
    ErrorsConcat(st.out, Tagged(source, p));
    ErrorsTagged(source, p);
  }

  lemma WriteIsExact(st: State, p: seq<bv8>)
    requires Exact(st) && Control(st) && st.lost == 0 && Enabled(st, WriteError(p))
    ensures Exact(Next(st, WriteError(p)))
  {
    OutGrows(st, Errors, p);
    var w := Next(st, WriteError(p));
    assert Buffered(st) == st.buffered + [] == st.buffered;
    assert Buffered(w) == st.written + p;
    if st.muted {
      assert w.written[..w.relayed] == st.written[..st.relayed];
    } else {
      assert st.written[..st.relayed] == st.written;
      assert w.written[..w.relayed] == st.written + p;
    }
  }

  lemma WriteKeeps(st: State, p: seq<bv8>)
    requires Inv(st) && Enabled(st, WriteError(p))
    ensures Inv(Next(st, WriteError(p)))
  {
    if st.lost == 0 { WriteIsExact(st, p); }
    OutGrows(st, Errors, p);
    assert Control(Next(st, WriteError(p)));
  }

  lemma ShortWriteKeeps(st: State, p: seq<bv8>, k: nat)
    requires Inv(st) && Enabled(st, WriteErrorShort(p, k))
    ensures Inv(Next(st, WriteErrorShort(p, k)))
  {
    OutGrows(st, Errors, p[..k]);
  }

  /** The final dump, of which the writer takes the first `k` bytes. */
  function Dumped(st: State, k: nat): State
    requires k <= |Shown(st)|
  {
    st.(out := st.out + Tagged(Errors, Shown(st)[..k]), cut := |Shown(st)| - k, phase := Returned)
  }

  lemma DumpIsExact(st: State, k: nat)
    requires Exact(st) && st.pending.None? && st.phase == Finished && k <= |Shown(st)|
    ensures Exact(Dumped(st, k))
  {
    OutGrows(st, Errors, Shown(st)[..k]);
    assert Buffered(st) == st.buffered;
    if st.failed && !st.failures {
      assert st.written[..st.relayed] + st.written[st.relayed..][..k] == st.written[..st.relayed + k];
    }
  }

  lemma DumpIsCounted(st: State, k: nat)
    requires Counted(st) && st.pending.None? && st.phase == Finished && k <= |Shown(st)|
    ensures Counted(Dumped(st, k))
  {
    OutGrows(st, Errors, Shown(st)[..k]);
    assert Buffered(st) == st.buffered;
  }

  lemma DumpKeeps(st: State, s: Step)
    requires Inv(st) && Enabled(st, s) && (s.Dump? || s.DumpShort?)
    ensures Inv(Next(st, s))
  {
    var k := if s.Dump? then |Shown(st)| else s.accepted;
    if s.Dump? { assert Shown(st)[..|Shown(st)|] == Shown(st); }
    assert Next(st, s) == Dumped(st, k);
    if st.lost == 0 { DumpIsExact(st, k); }
    DumpIsCounted(st, k);
  }

  lemma PrintKeeps(st: State, s: Step)
    requires Inv(st) && Enabled(st, s) && (s.WriteProgress? || s.Handle? || s.Finish?)
    ensures Inv(Next(st, s))
  {
    match s
    case WriteProgress(p) => OutGrows(st, Progress, p);
    case Handle(lines, _) => OutGrows(st, Printer, lines);
    case Finish(lines) => OutGrows(st, Printer, lines);
  }

  lemma BufferKeeps(st: State)
    requires Inv(st) && Enabled(st, BufferError)
    ensures Inv(Next(st, BufferError))
  {
    assert Buffered(Next(st, BufferError)) == Buffered(st);
  }

  /** Steps that move no byte. */
  lemma QuietKeeps(st: State, s: Step)
    requires Inv(st) && Enabled(st, s)
    requires s.SendEvent? || s.CloseChannel? || s.RunReturns? || s.Receive? || s.MutePrelude? || s.SeeClosed?
      || s.SeeStop?
             || s.GiveUp? || s.Join?
    ensures Inv(Next(st, s))
  {
    var w := Next(st, s);
    assert w.out == st.out && w.written == st.written && Buffered(w) == Buffered(st);
  }

  lemma StepKeepsInv(st: State, s: Step)
    requires Inv(st) && Enabled(st, s)
    ensures Inv(Next(st, s))
  {
    match s
    case WriteError(p) => WriteKeeps(st, p);
    case WriteErrorShort(p, k) => ShortWriteKeeps(st, p, k);
    case Dump => DumpKeeps(st, s);
    case DumpShort(_) => DumpKeeps(st, s);
    case WriteProgress(_) => PrintKeeps(st, s);
    case Handle(_, _) => PrintKeeps(st, s);
    case Finish(_) => PrintKeeps(st, s);
    case BufferError => BufferKeeps(st);
    case _ => QuietKeeps(st, s);
  }

  /** The state after any interleaving of the engine, the drain goroutine and the caller, if each step is possible. */
  ghost function After(steps: seq<Step>): Option<State> {
    if steps == [] then Some(START)
    else
      var before, last := After(steps[..|steps| - 1]), steps[|steps| - 1];
      if before.Some? && Enabled(before.value, last) then Some(Next(before.value, last)) else None
  }

  ghost predicate Run(steps: seq<Step>, st: State) { After(steps) == Some(st) }

  lemma {:induction false} RunKeepsInv(steps: seq<Step>, st: State)
    requires Run(steps, st)
    ensures Inv(st)
    decreases |steps|
  {
    if steps != [] {
      var before := After(steps[..|steps| - 1]).value;
      RunKeepsInv(steps[..|steps| - 1], before);
      StepKeepsInv(before, steps[|steps| - 1]);
    } else {
      assert START.written == Buffered(START);
    }
  }

  lemma RunSnoc(steps: seq<Step>, st: State, s: Step)
    requires Run(steps, st) && Enabled(st, s)
    ensures Run(steps + [s], Next(st, s))
  {
    assert (steps + [s])[..|steps|] == steps;
  }

  /** On a failed run with no recorded failure, the error stream is on the writer exactly once and in order: exactly
      when no write of it was short. */
  lemma ErrorsShownOnceIff(steps: seq<Step>, st: State)
    requires Run(steps, st) && st.phase == Returned && st.failed && !st.failures
    ensures ErrorsOf(st.out) == st.written <==> forall i | 0 <= i < |steps| :: !Short(steps[i])
  {
    RunKeepsInv(steps, st);
    LostIffShort(steps, st);
  }

  /** Otherwise the writer has the part relayed before the first event, once and in order. */
  lemma ErrorsNeverRepeat(steps: seq<Step>, st: State)
    requires Run(steps, st) && st.lost == 0
    ensures ErrorsOf(st.out) <= st.written
  {
    RunKeepsInv(steps, st);
  }

  /** A write the writer did not take whole. */
  predicate Short(s: Step) { s.WriteErrorShort? || s.DumpShort? }

  lemma LostStep(st: State, s: Step)
    requires Enabled(st, s)
    ensures Next(st, s).lost == 0 && Next(st, s).cut == 0 <==> st.lost == 0 && st.cut == 0 && !Short(s)
  {
    if Short(s) { ShortLoses(st, s); } else { WholeLosesNothing(st, s); }
  }

  lemma ShortLoses(st: State, s: Step)
    requires Enabled(st, s) && Short(s)
    ensures Next(st, s).lost > 0 || Next(st, s).cut > 0
  {
  }

  lemma WholeLosesNothing(st: State, s: Step)
    requires Enabled(st, s) && !Short(s)
    ensures Next(st, s).lost == st.lost && Next(st, s).cut == st.cut
  {
  }

  /** A short write is one step; without any, nothing is ever counted lost or cut off. */
  lemma {:induction false} LostIffShort(steps: seq<Step>, st: State)
    requires Run(steps, st)
    ensures st.lost == 0 && st.cut == 0 <==> forall i | 0 <= i < |steps| :: !Short(steps[i])
    decreases |steps|
  {
    if steps != [] {
      var front, last := steps[..|steps| - 1], steps[|steps| - 1];
      var before := After(front).value;
      LostIffShort(front, before);
      LostStep(before, last);
      assert steps == front + [last];
    }
  }

  /** The printer is never handling an event while it is finishing, or after. */
  lemma HandleNeverOverlapsFinish(steps: seq<Step>, st: State)
    requires Run(steps, st) && st.phase in {Finishing, Finished, Returned}
    ensures !Enabled(st, Receive) && !Enabled(st, MutePrelude) && forall s: Step | s.Handle? :: !Enabled(st, s)
  {
    RunKeepsInv(steps, st);
  }

  // ---- The relay and its branches carry out the steps ----

  /** The shared writer, the mute flag and the error branch's count are the machine's. */
  ghost predicate Mirrors(relay: PreludeRelay, progress: PreludeBranch, errors: PreludeBranch, st: State)
    reads relay, progress, errors
  {
    && progress.r == relay && errors.r == relay && progress.source == Progress && errors.source == Errors
    && progress != errors
    && relay.out == st.out && relay.muted == st.muted && errors.n == st.relayed
  }

  /** Each step that touches the writer, through the branch or the printer that makes it. */
  method Perform(relay: PreludeRelay, progress: PreludeBranch, errors: PreludeBranch, st: State, s: Step)
    requires Mirrors(relay, progress, errors, st) && Enabled(st, s)
    modifies relay, progress, errors
    ensures Mirrors(relay, progress, errors, Next(st, s))
  {
    match s
    case WriteProgress(p) =>
      assert p[..|p|] == p;
      var _ := progress.Write(p, |p|);
    case WriteError(p) =>
      assert p[..|p|] == p;
      var _ := errors.Write(p, |p|);
    case WriteErrorShort(p, k) =>
      var _ := errors.Write(p, k);
    case MutePrelude => relay.Mute();
    case Handle(lines, _) => relay.Direct(Printer, lines);
    case Finish(lines) => relay.Direct(Printer, lines);
    case Dump =>
      var rest := Remainder(errors, st);
      relay.Direct(Errors, rest);
    case DumpShort(k) =>
      var rest := Remainder(errors, st);
      relay.Direct(Errors, rest[..k]);
    case _ =>
  }

  /** What the dump prints: the buffered errors past what the branch says it relayed. */
  method Remainder(errors: PreludeBranch, st: State) returns (rest: seq<bv8>)
    requires errors.n == st.relayed
    ensures rest == Shown(st)
  {
    if !st.failed || st.failures {
      return [];
    }
    var relayed := errors.Relayed();
    rest := st.buffered[(if relayed < |st.buffered| then relayed else |st.buffered|)..];
  }

  // ---- It returns, whether or not the channel is ever closed ----

  predicate Engine(s: Step) {
    s.CloseChannel? || s.SendEvent? || s.WriteProgress? || s.WriteError? || s.WriteErrorShort?
  }

  function Rank(st: State): nat {
    3 * st.queue + (match st.drainer case Idle => 1 case Muting => 3 case Handling => 2 case Done => 0)
    + 2 * (match st.phase
           case Running => 5 case Waiting => 4 case Stopping => 3
           case Finishing => 2 case Finished => 1 case Returned => 0)
  }

  /** After the run has returned, every step that is not the engine closing its channel brings the end nearer. */
  lemma StepsEnd(st: State, s: Step)
    requires Inv(st) && st.phase != Running && Enabled(st, s)
    ensures s.CloseChannel? || Rank(Next(st, s)) < Rank(st)
    ensures s.CloseChannel? ==> Rank(Next(st, s)) == Rank(st) && Next(st, s).closed
  {
  }

  /** And some such step is always possible: the engine's help is never needed. */
  lemma NeverHangs(st: State)
    requires Inv(st) && st.phase != Running && st.phase != Returned
    ensures exists s :: Enabled(st, s) && !Engine(s)
  {
    match st.phase
    case Waiting => assert Enabled(st, GiveUp);
    case Stopping =>
      match st.drainer {
        case Idle => assert Enabled(st, SeeStop);
        case Muting => assert Enabled(st, MutePrelude);
        case Handling => assert Enabled(st, Handle([], false));
        case Done => assert Enabled(st, Join);
      }
    case Finishing => assert Enabled(st, Finish([]));
    case Finished => assert Enabled(st, Dump);
  }

  lemma {:induction false} ReturnsWithoutEngine(steps: seq<Step>, st: State) returns (more: seq<Step>, end: State)
    requires Run(steps, st) && st.phase != Running
    ensures Run(steps + more, end) && end.phase == Returned && NoEngine(more)
    decreases Rank(st)
  {
    if st.phase == Returned {
      more, end := [], st;
      assert steps + more == steps;
    } else {
      var s, next := StepOn(steps, st);
      var rest;
      rest, end := ReturnsWithoutEngine(steps + [s], next);
      more := [s] + rest;
      Joined(steps, s, rest);
    }
  }

  lemma Joined(steps: seq<Step>, s: Step, rest: seq<Step>)
    requires !Engine(s) && NoEngine(rest)
    ensures steps + ([s] + rest) == steps + [s] + rest && NoEngine([s] + rest)
  {
  }

  predicate NoEngine(steps: seq<Step>) { forall i | 0 <= i < |steps| :: !Engine(steps[i]) }

  lemma StepOn(steps: seq<Step>, st: State) returns (s: Step, next: State)
    requires Run(steps, st) && st.phase != Running && st.phase != Returned
    ensures Run(steps + [s], next) && next.phase != Running && Rank(next) < Rank(st) && !Engine(s)
  {
    RunKeepsInv(steps, st);
    NeverHangs(st);
    s :| Enabled(st, s) && !Engine(s);
    next := Next(st, s);
    StepsEnd(st, s);
    RunSnoc(steps, st, s);
    NeverRunsAgain(st, s);
  }

  lemma NeverRunsAgain(st: State, s: Step)
    requires Enabled(st, s) && st.phase != Running
    ensures Next(st, s).phase != Running
  {
  }
}
