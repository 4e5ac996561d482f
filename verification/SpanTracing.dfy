/** Span tracing: the collector's stack of open spans, from which parents are synthesised,
    and the emitter's map of start times, from which durations are filled in.

    Only the fields of an event that tracing reads are kept. */
module SpanTracing {
  import opened Common
  import opened Hooks

  datatype Event =
    | Span(phase: SpanPhase, id: string, parent: Option<string>, duration: Option<real>,
           at: real, sequence: nat)
    | Other(at: real, sequence: nat)

  // --------------------------------------------------------------------- the collector

  function IndexOf(stack: seq<string>, id: string): (i: nat)
    ensures i <= |stack| && (i < |stack| <==> id in stack)
    ensures i < |stack| ==> stack[i] == id
    ensures forall k :: 0 <= k < i ==> stack[k] != id
  {
    if stack == [] || stack[0] == id then 0 else 1 + IndexOf(stack[1..], id)
  }

  /** What one event does to the stack: an end truncates from the first occurrence on. */
  function Restack(stack: seq<string>, e: Event): seq<string> {
    if e.Other? then stack
    else match e.phase
         case START => stack + [e.id]
         case COMPLETE => stack[..IndexOf(stack, e.id)]
         case ERROR => stack[..IndexOf(stack, e.id)]
         case _ => stack
  }

  function Seeded(seed: Option<string>): seq<string> {
    if seed.Some? then [seed.value] else []
  }

  function Top(stack: seq<string>): Option<string> {
    if stack == [] then None else Some(stack[|stack| - 1])
  }

  function StackOf(seed: Option<string>, log: seq<Event>): seq<string>
    decreases |log|
  {
    if log == [] then Seeded(seed) else Restack(StackOf(seed, log[..|log| - 1]), log[|log| - 1])
  }

  predicate Starts(log: seq<Event>, i: int, id: string) {
    0 <= i < |log| && log[i].Span? && log[i].phase == START && log[i].id == id
  }

  /** A start whose recorded parent is the top of the stack at that moment. */
  predicate Synthesised(seed: Option<string>, log: seq<Event>, i: int) {
    0 <= i < |log| && log[i].Span? && log[i].phase == START && log[i].parent == Top(StackOf(seed, log[..i]))
  }

  /** Entry `k` of the stack began as event `i`, on top of exactly the entries still below it. */
  predicate BeganAs(seed: Option<string>, log: seq<Event>, stack: seq<string>, k: int, i: int) {
    0 <= k < |stack| && Starts(log, i, stack[k]) && StackOf(seed, log[..i]) == stack[..k]
  }

  predicate IsSeed(seed: Option<string>, stack: seq<string>, k: nat) {
    k == 0 < |stack| && seed == Some(stack[0])
  }

  /** Through all truncations, each open span still stands on the very stack it started on. */
  lemma {:induction false} StackRemembers(seed: Option<string>, log: seq<Event>, k: nat)
    requires k < |StackOf(seed, log)|
    ensures IsSeed(seed, StackOf(seed, log), k)
            || exists i :: BeganAs(seed, log, StackOf(seed, log), k, i)
    decreases |log|
  {
    if log != [] {
      var init, e := log[..|log| - 1], log[|log| - 1];
      var was, stack := StackOf(seed, init), StackOf(seed, log);
      if k < |was| && stack[..k + 1] == was[..k + 1] {
        StackRemembers(seed, init, k);
        assert stack[k] == stack[..k + 1][k] == was[..k + 1][k] == was[k];
        assert stack[..k] == stack[..k + 1][..k] == was[..k + 1][..k] == was[..k];
        if !IsSeed(seed, was, k) {
          var i :| BeganAs(seed, init, was, k, i);
          assert log[..i] == init[..i];
          assert BeganAs(seed, log, stack, k, i);
        }
      } else {
        assert stack == was + [e.id] && k == |was|;
        assert BeganAs(seed, log, stack, k, |log| - 1);
      }
    }
  }

  // ------------------------------------------------------------------------ span forest

  predicate IsStart(log: seq<Event>, i: int) { 0 <= i < |log| && log[i].Span? && log[i].phase == START }

  /** Every start has an id of its own, none of them the seed. */
  predicate FreshIds(seed: Option<string>, log: seq<Event>) {
    && (forall i :: 0 <= i < |log| && IsStart(log, i) ==> Some(log[i].id) != seed)
    && forall i, j :: 0 <= i < j < |log| && IsStart(log, i) && IsStart(log, j) ==> log[i].id != log[j].id
  }

  lemma StartIsUnique(seed: Option<string>, log: seq<Event>, id: string, i: int, j: int)
    requires FreshIds(seed, log) && Starts(log, i, id) && Starts(log, j, id)
    ensures i == j && Some(id) != seed
  {
    assert IsStart(log, i) && IsStart(log, j);
  }

  /** A synthesised parent is the seed or a span that started strictly earlier. */
  lemma SynthesisedParentIsEarlier(seed: Option<string>, log: seq<Event>, i: nat)
    requires Synthesised(seed, log, i) && log[i].parent.Some?
    ensures log[i].parent == seed || exists j :: 0 <= j < i && Starts(log, j, log[i].parent.value)
  {
    var stack := StackOf(seed, log[..i]);
    StackRemembers(seed, log[..i], |stack| - 1);
    if !IsSeed(seed, stack, |stack| - 1) {
      var j :| BeganAs(seed, log[..i], stack, |stack| - 1, j);
      assert Starts(log, j, log[i].parent.value);
    }
  }

  /** Neighbours on the stack are parent and child: the upper one's parent, when it was
      synthesised, is the lower one. */
  lemma NeighboursAreParentAndChild(seed: Option<string>, log: seq<Event>, k: nat)
    requires FreshIds(seed, log) && 0 < k < |StackOf(seed, log)|
    ensures var stack := StackOf(seed, log);
            exists i :: Starts(log, i, stack[k]) && Top(StackOf(seed, log[..i])) == Some(stack[k - 1])
                        && (Synthesised(seed, log, i) ==> log[i].parent == Some(stack[k - 1]))
                        && forall j :: Starts(log, j, stack[k]) ==> j == i
  {
    var stack := StackOf(seed, log);
    StackRemembers(seed, log, k);
    var i :| BeganAs(seed, log, stack, k, i);
    forall j | Starts(log, j, stack[k]) ensures j == i {
      StartIsUnique(seed, log, stack[k], i, j);
    }
  }

  /** `path` climbs synthesised parents: each event's recorded parent is the next one's id. */
  predicate Climbs(seed: Option<string>, log: seq<Event>, path: seq<nat>) {
    && (forall k :: 0 <= k < |path| ==> Synthesised(seed, log, path[k]))
    && forall k :: 0 <= k < |path| - 1 ==> log[path[k]].parent == Some(log[path[k + 1]].id)
  }

  /** Synthesised parenting is acyclic: climbing it always goes strictly back in time. */
  lemma {:induction false} ParentingIsAcyclic(seed: Option<string>, log: seq<Event>, path: seq<nat>)
    requires FreshIds(seed, log) && Climbs(seed, log, path) && |path| >= 2
    ensures path[|path| - 1] < path[0]
    ensures log[path[|path| - 1]].id != log[path[0]].id
    decreases |path|
  {
    var i, j := path[0], path[1];
    SynthesisedParentIsEarlier(seed, log, i);
    StartIsUnique(seed, log, log[j].id, j, j);
    var m :| 0 <= m < i && Starts(log, m, log[j].id);
    StartIsUnique(seed, log, log[j].id, m, j);
    if |path| > 2 { ParentingIsAcyclic(seed, log, path[1..]); }
    assert IsStart(log, path[|path| - 1]) && IsStart(log, i);
  }

  /** Freshness is needed: reopening an id under its own child makes each the other's parent. */
  lemma ReusedIdMakesCycle()
    ensures var log := [Span(START, "a", None, None, 0.0, 0), Span(START, "b", Some("a"), None, 1.0, 1),
                        Span(START, "a", Some("b"), None, 2.0, 2)];
            !FreshIds(None, log) && Climbs(None, log, [2, 1, 0]) && log[2].id == log[0].id
  {
    var log := [Span(START, "a", None, None, 0.0, 0), Span(START, "b", Some("a"), None, 1.0, 1),
                Span(START, "a", Some("b"), None, 2.0, 2)];
    StackOfNext(None, log, 0);
    StackOfNext(None, log, 1);
    assert log[..0] == [] && StackOf(None, log[..0]) == [];
    assert StackOf(None, log[..1]) == ["a"];
    assert StackOf(None, log[..2]) == ["a", "b"];
    assert IsStart(log, 0) && IsStart(log, 2);
    assert Synthesised(None, log, 0) && Synthesised(None, log, 1) && Synthesised(None, log, 2);
  }

  lemma {:induction false} StackOfNext(seed: Option<string>, log: seq<Event>, i: nat)
    requires i < |log|
    ensures StackOf(seed, log[..i + 1]) == Restack(StackOf(seed, log[..i]), log[i])
  {
    assert log[..i + 1][..i] == log[..i];
  }

  // ---------------------------------------------------------- one emitter, one collector

  datatype Op =
    | SpanOp(phase: SpanPhase, id: string, parent: Option<string>, duration: Option<real>, at: real)
    | EmitOp(at: real)

  datatype Trace = Trace(log: seq<Event>, stack: seq<string>, starts: map<string, real>, sequence: nat)

  function Opening(seed: Option<string>): Trace { Trace([], Seeded(seed), map[], 0) }

  /** The event `span` builds, given the parent context and the open start times. */
  function Build(op: Op, context: Option<string>, starts: map<string, real>, sequence: nat): Event {
    match op
    case EmitOp(at) => Other(at, sequence)
    case SpanOp(phase, id, parent, duration, at) =>
      var p := if parent.None? && phase == START then context else parent;
      var d := if phase.Ends() && id in starts && (duration.None? || duration.value == 0.0)
               then Some((at - starts[id]) * 1000.0) else duration;
      Span(phase, id, p, d, at, sequence)
  }

  function Restart(starts: map<string, real>, op: Op): map<string, real> {
    if op.EmitOp? then starts
    else if op.phase == START then starts[op.id := op.at]
    else if op.phase.Ends() then starts - {op.id}
    else starts
  }

  function Perform(t: Trace, op: Op): Trace {
    var e := Build(op, Top(t.stack), t.starts, t.sequence);
    Trace(t.log + [e], Restack(t.stack, e), Restart(t.starts, op), t.sequence + 1)
  }

  function Run(seed: Option<string>, ops: seq<Op>): Trace
    decreases |ops|
  {
    if ops == [] then Opening(seed) else Perform(Run(seed, Butlast(ops)), ops[|ops| - 1])
  }

  /** A run's trace is its log: the stack is the log's, and the sequence numbers count it. */
  lemma {:induction false} RunIsItsLog(seed: Option<string>, ops: seq<Op>)
    ensures var t := Run(seed, ops);
            && t.stack == StackOf(seed, t.log) && |t.log| == t.sequence == |ops|
            && forall i :: 0 <= i < |ops| ==> t.log[i].sequence == i
    decreases |ops|
  {
    if ops != [] {
      RunIsItsLog(seed, Butlast(ops));
      var t := Run(seed, ops);
      assert t.log[..|t.log| - 1] == Run(seed, Butlast(ops)).log;
    }
  }

  /** The last open span. */
  predicate IsContext(stack: seq<string>, parent: Option<string>) {
    if stack == [] then parent == None else parent == Some(stack[|stack| - 1])
  }

  /** In every run the event logged last is what was asked for: its parent is the caller's
      wherever one was given or the span does not start, and else the last open span; its
      duration is the caller's wherever one was measured or the span does not end. */
  lemma {:induction false} EventIsAsAsked(seed: Option<string>, ops: seq<Op>, op: Op)
    ensures var t, u := Run(seed, ops), Perform(Run(seed, ops), op);
            && |u.log| == |ops| + 1 && t.log == u.log[..|ops|]
            && var e := u.log[|ops|];
               if op.EmitOp? then e == Other(op.at, |ops|)
               else
                 && e.Span? && e.phase == op.phase && e.id == op.id && e.at == op.at && e.sequence == |ops|
                 && (op.parent.Some? || op.phase != START ==> e.parent == op.parent)
                 && (op.parent.None? && op.phase == START ==> IsContext(t.stack, e.parent))
                 && (op.phase == START || op.phase == PROGRESS ==> e.duration == op.duration)
                 && (op.duration.Some? && op.duration.value != 0.0 ==> e.duration == op.duration)
  {
    RunIsItsLog(seed, ops);
  }

  /** The stack goes back to where it stood when `id` started. */
  predicate BackAt(seed: Option<string>, ops: seq<Op>, id: string, i: nat, stack: seq<string>) {
    i < |ops| && ops[i].SpanOp? && ops[i].phase == START && ops[i].id == id && Run(seed, ops[..i]).stack == stack
  }

  lemma {:induction false} LogOfPrefix(seed: Option<string>, ops: seq<Op>, i: nat)
    requires i <= |ops|
    ensures |Run(seed, ops).log| == |ops| && Run(seed, ops[..i]).log == Run(seed, ops).log[..i]
    decreases |ops|
  {
    RunIsItsLog(seed, ops);
    if i < |ops| {
      var init := Butlast(ops);
      LogOfPrefix(seed, init, i);
      assert ops[..i] == init[..i] && Run(seed, ops).log[..|init|] == Run(seed, init).log;
      assert Run(seed, ops).log[..i] == Run(seed, init).log[..i];
    } else {
      assert ops[..i] == ops;
    }
  }

  lemma {:induction false} StackOfPrefix(seed: Option<string>, ops: seq<Op>, i: nat)
    requires i < |ops|
    ensures |Run(seed, ops).log| == |ops| && Run(seed, ops[..i]).stack == StackOf(seed, Run(seed, ops).log[..i])
    ensures ops[i].SpanOp? <==> Run(seed, ops).log[i].Span?
    ensures ops[i].SpanOp? ==>
              Run(seed, ops).log[i].phase == ops[i].phase && Run(seed, ops).log[i].id == ops[i].id
  {
    LogOfPrefix(seed, ops, i);
    LogOfPrefix(seed, ops, i + 1);
    RunIsItsLog(seed, ops[..i]);
    var upto := ops[..i + 1];
    assert Butlast(upto) == ops[..i] && Run(seed, upto).log[i] == Run(seed, ops).log[i];
  }

  /** What each operation does to the parent context, in every run: a start opens a span, an end
      of an open span takes the context back to where it stood at a start of that span (or empties
      it, when the span is the seed), however many spans were opened since, and nothing else
      touches it. */
  lemma {:induction false} ContextGoesBackToStart(seed: Option<string>, ops: seq<Op>, op: Op)
    ensures var was, now := Run(seed, ops).stack, Perform(Run(seed, ops), op).stack;
            if op.EmitOp? || op.phase == PROGRESS || op.phase == CANCELLED then now == was
            else if op.phase == START then now == was + [op.id]
            else if op.id !in was then now == was
            else op.id !in now
                 && ((now == [] && seed == Some(op.id)) || exists i: nat :: BackAt(seed, ops, op.id, i, now))
  {
    var t := Run(seed, ops);
    if op.SpanOp? && (op.phase == COMPLETE || op.phase == ERROR) {
      var k := IndexOf(t.stack, op.id);
      assert k == |t.stack| ==> t.stack[..k] == t.stack;
      if k < |t.stack| {
        RunIsItsLog(seed, ops);
        StackRemembers(seed, t.log, k);
        if !IsSeed(seed, t.stack, k) {
          var i :| BeganAs(seed, t.log, t.stack, k, i);
          StackOfPrefix(seed, ops, i);
          assert BackAt(seed, ops, op.id, i, t.stack[..k]);
        }
      }
    }
  }

  /** A start emitted without a parent is a synthesised one in the log, so the forest lemmas
      are about what the emitter produces. */
  lemma {:induction false} StartsAreSynthesised(seed: Option<string>, ops: seq<Op>, i: nat)
    requires i < |ops| && ops[i].SpanOp? && ops[i].phase == START && ops[i].parent.None?
    ensures Synthesised(seed, Run(seed, ops).log, i) && Run(seed, ops).log[i].id == ops[i].id
    decreases |ops|
  {
    var init := Butlast(ops);
    RunIsItsLog(seed, init);
    var was, log := Run(seed, init).log, Run(seed, ops).log;
    if i < |init| {
      StartsAreSynthesised(seed, init, i);
      assert log[..i] == was[..i];
    } else {
      assert log[..i] == was;
    }
  }

  /** Every open span that is not the seed has its start time on record. */
  predicate Agrees(seed: Option<string>, t: Trace) {
    forall id :: id in t.stack ==> id in t.starts || Some(id) == seed
  }

  /** A cancellation of a span that is still on the stack. */
  predicate CancelsOpen(seed: Option<string>, t: Trace, op: Op) {
    op.SpanOp? && op.phase == CANCELLED && op.id in t.stack && Some(op.id) != seed
  }

  /** Cancelling an open span is exactly what makes the two structures disagree. */
  lemma AgreementBrokenExactlyByCancel(seed: Option<string>, t: Trace, op: Op)
    requires Agrees(seed, t)
    ensures Agrees(seed, Perform(t, op)) <==> !CancelsOpen(seed, t, op)
  {
    var u := Perform(t, op);
    if op.SpanOp? && op.phase == CANCELLED && op.id in t.stack && Some(op.id) != seed {
      assert op.id in u.stack && op.id !in u.starts;
    }
  }

  predicate NeverCancelsOpen(seed: Option<string>, ops: seq<Op>)
    decreases |ops|
  {
    ops == [] || (NeverCancelsOpen(seed, Butlast(ops))
                  && !CancelsOpen(seed, Run(seed, Butlast(ops)), ops[|ops| - 1]))
  }

  lemma {:induction false} RunsAgree(seed: Option<string>, ops: seq<Op>)
    requires NeverCancelsOpen(seed, ops)
    ensures Agrees(seed, Run(seed, ops))
    decreases |ops|
  {
    if ops != [] {
      RunsAgree(seed, Butlast(ops));
      AgreementBrokenExactlyByCancel(seed, Run(seed, Butlast(ops)), ops[|ops| - 1]);
    }
  }

  /** Ends arrive last-in-first-out, and starts bring new ids. */
  predicate Disciplined(seed: Option<string>, ops: seq<Op>)
    decreases |ops|
  {
    ops == [] ||
    var op, stack := ops[|ops| - 1], Run(seed, Butlast(ops)).stack;
    && Disciplined(seed, Butlast(ops))
    && (op.SpanOp? && op.phase == START ==> op.id !in stack && Some(op.id) != seed)
    && (op.SpanOp? && op.phase.Ends() ==> op.phase != CANCELLED && Top(stack) == Some(op.id))
  }

  predicate DistinctEntries(stack: seq<string>) {
    forall i, j :: 0 <= i < j < |stack| ==> stack[i] != stack[j]
  }

  ghost predicate Coincide(seed: Option<string>, t: Trace) {
    && DistinctEntries(t.stack)
    && forall id :: id in t.starts <==> id in t.stack && Some(id) != seed
  }

  lemma StartCoincides(seed: Option<string>, t: Trace, op: Op)
    requires Coincide(seed, t) && op.SpanOp? && op.phase == START
    requires op.id !in t.stack && Some(op.id) != seed
    ensures Coincide(seed, Perform(t, op))
  {
    assert Perform(t, op).stack == t.stack + [op.id];
  }

  lemma {:induction false} EndPops(stack: seq<string>, id: string)
    requires DistinctEntries(stack) && Top(stack) == Some(id)
    ensures stack[..IndexOf(stack, id)] == stack[..|stack| - 1]
    ensures forall x :: x in stack <==> x in stack[..|stack| - 1] || x == id
    ensures id !in stack[..|stack| - 1]
  {
    assert stack[|stack| - 1] == id;
    assert stack == stack[..|stack| - 1] + [id];
  }

  lemma EndCoincides(seed: Option<string>, t: Trace, op: Op)
    requires Coincide(seed, t) && op.SpanOp? && (op.phase == COMPLETE || op.phase == ERROR)
    requires Top(t.stack) == Some(op.id)
    ensures Coincide(seed, Perform(t, op))
  {
    var rest, u := t.stack[..|t.stack| - 1], Perform(t, op);
    EndPops(t.stack, op.id);
    assert u.stack == rest && u.starts == t.starts - {op.id};
    assert forall i :: 0 <= i < |rest| ==> rest[i] == t.stack[i];
  }

  /** Under last-in-first-out use the open spans and the recorded start times coincide. */
  lemma {:induction false} DisciplinedUseCoincides(seed: Option<string>, ops: seq<Op>)
    requires Disciplined(seed, ops)
    ensures Coincide(seed, Run(seed, ops))
    decreases |ops|
  {
    if ops != [] {
      DisciplinedUseCoincides(seed, Butlast(ops));
      var t, op := Run(seed, Butlast(ops)), ops[|ops| - 1];
      if op.SpanOp? && op.phase == START {
        StartCoincides(seed, t, op);
      } else if op.SpanOp? && op.phase.Ends() {
        EndCoincides(seed, t, op);
      }
    }
  }

  /** The latest start or end of `id` was its cancellation. */
  predicate LastCancelled(ops: seq<Op>, id: string)
    decreases |ops|
  {
    ops != [] &&
    var op := ops[|ops| - 1];
    if op.SpanOp? && op.id == id && (op.phase == START || op.phase.Ends()) then op.phase == CANCELLED
    else LastCancelled(Butlast(ops), id)
  }

  lemma RestackKeeps(stack: seq<string>, e: Event, id: string)
    ensures id in Restack(stack, e) ==> id in stack || (e.Span? && e.phase == START && e.id == id)
    ensures e.Span? && (e.phase == COMPLETE || e.phase == ERROR) ==> e.id !in Restack(stack, e)
    ensures e.Span? && (e.phase == COMPLETE || e.phase == ERROR) ==>
              (Restack(stack, e) == stack <==> e.id !in stack)
  {
    if e.Span? && (e.phase == COMPLETE || e.phase == ERROR) {
      var i := IndexOf(stack, e.id);
      assert forall x :: x in stack[..i] ==> x in stack;
      assert i == |stack| ==> stack[..i] == stack;
    }
  }

  /** What stands on the stack without a start time is the seed, or was cancelled last. */
  lemma {:induction false} UnstartedOnStack(seed: Option<string>, ops: seq<Op>, id: string)
    requires id in Run(seed, ops).stack && id !in Run(seed, ops).starts
    ensures Some(id) == seed || LastCancelled(ops, id)
    decreases |ops|
  {
    if ops != [] {
      var t, op := Run(seed, Butlast(ops)), ops[|ops| - 1];
      RestackKeeps(t.stack, Build(op, Top(t.stack), t.starts, t.sequence), id);
      if !LastCancelled(ops, id) { UnstartedOnStack(seed, Butlast(ops), id); }
    }
  }

  /** In every run, an end for which no start is open leaves the parent context as it was,
      exactly unless it completes or fails a span that is still on the stack; and that span is
      the seed, or one whose latest start or end was a cancellation. */
  lemma {:induction false} UnmatchedEndKeepsContextExactly(seed: Option<string>, ops: seq<Op>, op: Op)
    requires op.SpanOp? && op.phase.Ends() && op.id !in Run(seed, ops).starts
    ensures var stack := Run(seed, ops).stack;
            && (Perform(Run(seed, ops), op).stack == stack <==> op.phase == CANCELLED || op.id !in stack)
            && (op.id in stack ==> Some(op.id) == seed || LastCancelled(ops, op.id))
  {
    var t := Run(seed, ops);
    RestackKeeps(t.stack, Build(op, Top(t.stack), t.starts, t.sequence), op.id);
    if op.id in t.stack { UnstartedOnStack(seed, ops, op.id); }
  }

  /** Completing a cancelled span, whose start time is gone, drops it and all above it. */
  lemma EndOfCancelledDropsContext()
    ensures var ops := [SpanOp(START, "a", None, None, 0.0), SpanOp(CANCELLED, "a", None, None, 1.0)];
            var end := SpanOp(COMPLETE, "a", None, None, 2.0);
            && Run(None, ops).starts == map[] && Run(None, ops).stack == ["a"]
            && Perform(Run(None, ops), end).stack == []
  {
    var ops := [SpanOp(START, "a", None, None, 0.0), SpanOp(CANCELLED, "a", None, None, 1.0)];
    assert Butlast(ops) == [ops[0]] && Butlast([ops[0]]) == [];
    assert Run(None, [ops[0]]).stack == ["a"] && Run(None, [ops[0]]).starts == map["a" := 0.0];
  }

  /** Ending the seed, whose start this emitter never saw, drops every span opened under it. */
  lemma EndOfSeedDropsAll()
    ensures var seed, ops := Some("p"), [SpanOp(START, "a", None, None, 0.0)];
            var end := SpanOp(COMPLETE, "p", None, None, 1.0);
            && OpenSince(ops, "p").None? && Run(seed, ops).stack == ["p", "a"]
            && Perform(Run(seed, ops), end).stack == []
  {
    var seed, ops := Some("p"), [SpanOp(START, "a", None, None, 0.0)];
    assert Butlast(ops) == [] && Run(seed, []).stack == ["p"];
    assert Run(seed, ops).stack == ["p", "a"];
  }

  // --------------------------------------------------------------------------- durations

  /** The time of the latest start of `id` that no end has consumed. */
  function OpenSince(ops: seq<Op>, id: string): Option<real>
    decreases |ops|
  {
    if ops == [] then None
    else
      var op := ops[|ops| - 1];
      if op.SpanOp? && op.id == id && op.phase == START then Some(op.at)
      else if op.SpanOp? && op.id == id && op.phase.Ends() then None
      else OpenSince(Butlast(ops), id)
  }

  lemma {:induction false} StartTimesAreHistory(seed: Option<string>, ops: seq<Op>, id: string)
    ensures var starts := Run(seed, ops).starts;
            OpenSince(ops, id) == if id in starts then Some(starts[id]) else None
    decreases |ops|
  {
    if ops != [] { StartTimesAreHistory(seed, Butlast(ops), id); }
  }

  predicate InOrder(ops: seq<Op>) {
    forall i, j :: 0 <= i <= j < |ops| ==> ops[i].at <= ops[j].at
  }

  lemma {:induction false} OpenSinceIsPast(ops: seq<Op>, id: string)
    requires OpenSince(ops, id).Some?
    ensures exists i :: 0 <= i < |ops| && ops[i].SpanOp? && ops[i].phase == START
                        && ops[i].id == id && ops[i].at == OpenSince(ops, id).value
    decreases |ops|
  {
    var op := ops[|ops| - 1];
    if !(op.SpanOp? && op.id == id && op.phase == START) {
      OpenSinceIsPast(Butlast(ops), id);
      var i :| 0 <= i < |ops| - 1 && ops[i].SpanOp? && ops[i].phase == START
               && ops[i].id == id && ops[i].at == OpenSince(Butlast(ops), id).value;
    }
  }

  lemma {:induction false} OpenSinceIsBefore(ops: seq<Op>, op: Op)
    requires InOrder(ops + [op]) && op.SpanOp? && OpenSince(ops, op.id).Some?
    ensures OpenSince(ops, op.id).value <= op.at
  {
    OpenSinceIsPast(ops, op.id);
    var i :| 0 <= i < |ops| && ops[i].SpanOp? && ops[i].phase == START
             && ops[i].id == op.id && ops[i].at == OpenSince(ops, op.id).value;
    assert (ops + [op])[i].at <= (ops + [op])[|ops|].at;
  }

  /** An end without a measured duration gets the time since its own latest unconsumed start,
      which is never negative; without such a start it keeps what the caller passed. */
  lemma DurationIsMeasured(seed: Option<string>, ops: seq<Op>, op: Op)
    requires InOrder(ops + [op]) && op.SpanOp? && op.phase.Ends()
    requires op.duration.None? || op.duration.value == 0.0
    ensures var t := Perform(Run(seed, ops), op);
            var since := OpenSince(ops, op.id);
            var e := t.log[|t.log| - 1];
            && e.Span? && (since.Some? ==> e.duration.Some? && e.duration.value >= 0.0)
            && e.duration == (if since.Some? then Some((op.at - since.value) * 1000.0) else op.duration)
  {
    StartTimesAreHistory(seed, ops, op.id);
    if OpenSince(ops, op.id).Some? { OpenSinceIsBefore(ops, op); }
  }

  /** A start's time is used by at most one end: between two ends that both find one there is
      another start. */
  lemma {:induction false} StartIsUsedOnce(ops: seq<Op>, first: nat, id: string)
    requires first < |ops| && ops[first].SpanOp? && ops[first].id == id && ops[first].phase.Ends()
    requires OpenSince(ops, id).Some?
    ensures exists i :: first < i < |ops| && ops[i].SpanOp? && ops[i].phase == START && ops[i].id == id
    decreases |ops|
  {
    var op := ops[|ops| - 1];
    if !(op.SpanOp? && op.id == id && op.phase == START) {
      StartIsUsedOnce(Butlast(ops), first, id);
      var i :| first < i < |ops| - 1 && ops[i].SpanOp? && ops[i].phase == START && ops[i].id == id;
    }
  }

  /** A cancelled span stays on the stack, without a start time, as parent of what follows. */
  lemma CancelledSpanStaysParent()
    ensures var ops := [SpanOp(START, "a", None, None, 0.0), SpanOp(CANCELLED, "a", None, None, 1.0),
                        SpanOp(START, "b", None, None, 2.0)];
            && Run(None, ops[..2]).stack == ["a"] && Run(None, ops[..2]).starts == map[]
            && Run(None, ops).log[2].parent == Some("a")
  {
    var ops := [SpanOp(START, "a", None, None, 0.0), SpanOp(CANCELLED, "a", None, None, 1.0),
                SpanOp(START, "b", None, None, 2.0)];
    assert Butlast(ops) == ops[..2] && Butlast(ops[..2]) == ops[..1] && Butlast(ops[..1]) == [];
    assert Run(None, ops[..1]).stack == ["a"] && Run(None, ops[..1]).starts == map["a" := 0.0];
  }

  // -------------------------------------------------------------------------- the classes

  class EventCollector {
    var events: seq<Event>
    var spanStack: seq<string>

    /** `collect_events(parent_span_id=seed)` */
    constructor (seed: Option<string>)
      ensures events == [] && spanStack == Seeded(seed)
    {
      events := [];
      spanStack := if seed.Some? then [seed.value] else [];
    }

    method Append(e: Event)
      modifies this
      ensures events == old(events) + [e] && spanStack == Restack(old(spanStack), e)
    {
      events := events + [e];
      if e.Other? {
        return;
      }
      if e.phase == START {
        spanStack := spanStack + [e.id];
      } else if (e.phase == COMPLETE || e.phase == ERROR) && e.id in spanStack {
        var idx := IndexOf(spanStack, e.id);
        spanStack := spanStack[..idx];
      }
    }

    method CurrentParentSpanId() returns (top: Option<string>)
      ensures top == Top(spanStack)
    {
      top := if spanStack != [] then Some(spanStack[|spanStack| - 1]) else None;
    }
  }

  class EventEmitter {
    var sequence: nat
    var spanStarts: map<string, real>

    constructor ()
      ensures sequence == 0 && spanStarts == map[]
    {
      sequence, spanStarts := 0, map[];
    }

    /** Numbers an event and pushes it to the active collector, if there is one. */
    method Push(e: Event, coll: EventCollector?)
      requires e.sequence == sequence
      modifies this`sequence, coll
      ensures sequence == old(sequence) + 1
      ensures coll != null ==> coll.events == old(coll.events) + [e]
                               && coll.spanStack == Restack(old(coll.spanStack), e)
    {
      sequence := sequence + 1;
      if coll != null {
        coll.Append(e);
      }
    }

    method Emit(now: real, coll: EventCollector?) returns (e: Event)
      modifies this`sequence, coll
      ensures e == Build(EmitOp(now), None, spanStarts, old(sequence))
      ensures sequence == old(sequence) + 1
      ensures coll != null ==> coll.events == old(coll.events) + [e]
                               && coll.spanStack == Restack(old(coll.spanStack), e)
    {
      e := Other(now, sequence);
      Push(e, coll);
    }

    /** `newId` is what the id generator would answer. */
    method EmitSpan(phase: SpanPhase, spanId: Option<string>, newId: string, parent: Option<string>,
                    duration: Option<real>, now: real, coll: EventCollector?) returns (e: Event)
      modifies this, coll
      ensures var id := if spanId.Some? && spanId.value != "" then spanId.value else newId;
              var op := SpanOp(phase, id, parent, duration, now);
              var context := if coll == null then None else Top(old(coll.spanStack));
              && e == Build(op, context, old(spanStarts), old(sequence))
              && spanStarts == Restart(old(spanStarts), op)
      ensures sequence == old(sequence) + 1
      ensures coll != null ==> coll.events == old(coll.events) + [e]
                               && coll.spanStack == Restack(old(coll.spanStack), e)
    {
      var parentId := parent;
      if parentId.None? && phase == START {
        if coll != null {
          parentId := coll.CurrentParentSpanId();
        }
      }
      var id := if spanId.Some? && spanId.value != "" then spanId.value else newId;
      var durationMs := duration;
      if phase == START {
        spanStarts := spanStarts[id := now];
      } else if phase == COMPLETE || phase == ERROR || phase == CANCELLED {
        if id in spanStarts {
          var t0 := spanStarts[id];
          spanStarts := spanStarts - {id};
          if durationMs.None? || durationMs.value == 0.0 {
            durationMs := Some((now - t0) * 1000.0);
          }
        }
      }
      e := Span(phase, id, parentId, durationMs, now, sequence);
      Push(e, coll);
    }
  }
}
