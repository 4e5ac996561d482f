/** The index of the chunk cache under concurrent loaders: the lock around its update, what the
    update keeps, and why nobody waits for the lock for ever. */
module CorpusIndex {
  import opened Common
  import opened CorpusCache

  // --------------------------------------------------------------------------- the lock

  /** The lock is held by whoever is inside it, who read the index as it still is. */
  predicate LockSane(s: Sys) {
    && (forall w :: 0 <= w < |s.pcs| ==> (s.pcs[w].InLock() <==> s.lock == Some(w)))
    && forall w :: 0 <= w < |s.pcs| && s.pcs[w].Holding? ==>
         s.pcs[w].snapshot == if s.pcs[w].readOk then s.index else map[]
  }

  /** A step outside the lock touches neither the lock nor the index. */
  lemma {:induction false} StepOutsideLock(tasks: seq<Task>, s: Sys, a: Action)
    requires !a.Acquire? && !a.ReadIndex? && !a.WriteIndex? && !a.Release?
    ensures var t := Next(tasks, s, a);
            && t.lock == s.lock && t.index == s.index && |t.pcs| == |s.pcs|
            && (forall w :: 0 <= w < |s.pcs| && w != a.w ==> t.pcs[w] == s.pcs[w])
            && (a.w < |s.pcs| ==>
                  t.pcs[a.w] == s.pcs[a.w] || (!t.pcs[a.w].InLock() && !s.pcs[a.w].InLock()))
  {
  }

  lemma {:induction false} StepKeepsLock(tasks: seq<Task>, s: Sys, a: Action)
    requires LockSane(s)
    ensures LockSane(Next(tasks, s, a))
  {
    if a.Acquire? || a.ReadIndex? || a.WriteIndex? || a.Release? {
    } else {
      StepOutsideLock(tasks, s, a);
    }
  }

  lemma {:induction false} RunsKeepLock(tasks: seq<Task>, s: Sys, acts: seq<Action>)
    requires LockSane(s)
    ensures LockSane(Run(tasks, s, acts))
    decreases |acts|
  {
    if acts != [] {
      RunsKeepLock(tasks, s, acts[..|acts| - 1]);
      StepKeepsLock(tasks, Run(tasks, s, acts[..|acts| - 1]), acts[|acts| - 1]);
    }
  }

  predicate KeepsEntries(index: map<Key, Entry>, later: map<Key, Entry>, key: Key) {
    forall k :: k in index && k != key ==> k in later && later[k] == index[k]
  }

  /** Writing the index keeps every other task's entry exactly when the holder could read the
      index, or there was nothing else in it. */
  lemma {:induction false} IndexUpdateExactly(tasks: seq<Task>, s: Sys, w: nat)
    requires LockSane(s) && w < |s.pcs| == |tasks| && s.pcs[w].Holding?
    ensures var t, key := Next(tasks, s, WriteIndex(w, true)), tasks[w].key;
            && key in t.index && t.index[key] == Entry(w, |s.pcs[w].chunks|)
            && (KeepsEntries(s.index, t.index, key) <==> s.pcs[w].readOk || s.index.Keys <= {key})
  {
    var t, key := Next(tasks, s, WriteIndex(w, true)), tasks[w].key;
    if !s.pcs[w].readOk && !(s.index.Keys <= {key}) {
      var k :| k in s.index && k != key;
      assert k !in t.index;
    }
  }

  predicate IndexReadable(acts: seq<Action>) {
    forall i :: 0 <= i < |acts| && acts[i].ReadIndex? ==> acts[i].ok
  }

  predicate AllReadOk(s: Sys) {
    forall w :: 0 <= w < |s.pcs| && s.pcs[w].Holding? ==> s.pcs[w].readOk
  }

  lemma {:induction false} StepKeepsIndex(tasks: seq<Task>, s: Sys, a: Action)
    requires LockSane(s) && AllReadOk(s) && (a.ReadIndex? ==> a.ok)
    ensures s.index.Keys <= Next(tasks, s, a).index.Keys && AllReadOk(Next(tasks, s, a))
  {
    if a.Acquire? || a.ReadIndex? || a.WriteIndex? || a.Release? {
    } else {
      StepOutsideLock(tasks, s, a);
    }
  }

  /** Over any run whose index reads succeed, no key ever leaves the index. */
  lemma {:induction false} IndexNeverShrinks(tasks: seq<Task>, s: Sys, acts: seq<Action>)
    requires LockSane(s) && AllReadOk(s) && IndexReadable(acts)
    ensures s.index.Keys <= Run(tasks, s, acts).index.Keys && AllReadOk(Run(tasks, s, acts))
    decreases |acts|
  {
    if acts != [] {
      var init := acts[..|acts| - 1];
      IndexNeverShrinks(tasks, s, init);
      RunsKeepLock(tasks, s, init);
      StepKeepsIndex(tasks, Run(tasks, s, init), acts[|acts| - 1]);
    }
  }

  /** Whoever stores is a storer, carrying what its file parses to. */
  predicate StorerSane(task: Task, pc: PC) {
    && (pc.Missed? ==> task.present)
    && (pc.Storing() ==> Stores(task) && pc.Carried() == task.parse.chunks)
  }

  predicate StorersSane(tasks: seq<Task>, s: Sys) {
    |s.pcs| == |tasks| && forall w :: 0 <= w < |tasks| ==> StorerSane(tasks[w], s.pcs[w])
  }

  lemma {:induction false} StepKeepsStorers(tasks: seq<Task>, s: Sys, a: Action)
    requires StorersSane(tasks, s)
    ensures StorersSane(tasks, Next(tasks, s, a))
  {
    if a.w < |tasks| {
      var t := Next(tasks, s, a);
      assert StorerSane(tasks[a.w], s.pcs[a.w]);
      forall w | 0 <= w < |tasks| ensures StorerSane(tasks[w], t.pcs[w]) {
        assert StorerSane(tasks[w], s.pcs[w]);
      }
    }
  }

  /** An entry some task of the run may write. */
  predicate TrueEntry(tasks: seq<Task>, key: Key, e: Entry) {
    && e.task < |tasks| && Stores(tasks[e.task]) && tasks[e.task].key == key
    && e.nChunks == |tasks[e.task].parse.chunks|
  }

  predicate SomeoneStores(tasks: seq<Task>, key: Key) {
    exists w :: 0 <= w < |tasks| && Stores(tasks[w]) && tasks[w].key == key
  }

  /** Every entry is as it was, or a storer's. */
  predicate Grown(tasks: seq<Task>, was: map<Key, Entry>, index: map<Key, Entry>) {
    forall k :: k in index ==> (k in was && index[k] == was[k]) || TrueEntry(tasks, k, index[k])
  }

  lemma {:induction false} StepGrowsIndex(tasks: seq<Task>, s: Sys, a: Action, was: map<Key, Entry>)
    requires LockSane(s) && StorersSane(tasks, s) && Grown(tasks, was, s.index)
    ensures Grown(tasks, was, Next(tasks, s, a).index)
  {
    if a.w < |tasks| && a.WriteIndex? && a.ok && s.pcs[a.w].Holding? {
      var t, key := Next(tasks, s, a), tasks[a.w].key;
      assert StorerSane(tasks[a.w], s.pcs[a.w]);
      assert TrueEntry(tasks, key, t.index[key]);
      assert forall k :: k in t.index && k != key ==> k in s.index && t.index[k] == s.index[k];
    }
  }

  lemma {:induction false} RunsGrowIndex(tasks: seq<Task>, s: Sys, acts: seq<Action>)
    requires Quiet(tasks, s)
    ensures var t := Run(tasks, s, acts);
            LockSane(t) && StorersSane(tasks, t) && Grown(tasks, s.index, t.index)
    decreases |acts|
  {
    if acts != [] {
      var init := acts[..|acts| - 1];
      RunsGrowIndex(tasks, s, init);
      StepKeepsLock(tasks, Run(tasks, s, init), acts[|acts| - 1]);
      StepKeepsStorers(tasks, Run(tasks, s, init), acts[|acts| - 1]);
      StepGrowsIndex(tasks, Run(tasks, s, init), acts[|acts| - 1], s.index);
    }
  }

  /** Over any run whose index reads succeed, every entry is as it was or names a task that
      stores under its key with its true number of chunks; no key is lost, and a key that no
      task stores under keeps its entry. */
  lemma {:induction false} IndexKeepsEntries(tasks: seq<Task>, s: Sys, acts: seq<Action>)
    requires Quiet(tasks, s) && IndexReadable(acts)
    ensures var t := Run(tasks, s, acts);
            && s.index.Keys <= t.index.Keys && Grown(tasks, s.index, t.index)
            && forall k :: k in s.index && !SomeoneStores(tasks, k) ==> t.index[k] == s.index[k]
  {
    RunsGrowIndex(tasks, s, acts);
    IndexNeverShrinks(tasks, s, acts);
  }

  /** Once a task has written the index, its key is in every later one. */
  lemma {:induction false} WrittenKeyStays(tasks: seq<Task>, s: Sys, w: nat, acts: seq<Action>)
    requires LockSane(s) && AllReadOk(s) && IndexReadable(acts)
    requires w < |s.pcs| == |tasks| && s.pcs[w].Holding?
    ensures tasks[w].key in Run(tasks, Next(tasks, s, WriteIndex(w, true)), acts).index
  {
    var u := Next(tasks, s, WriteIndex(w, true));
    StepKeepsLock(tasks, s, WriteIndex(w, true));
    StepKeepsIndex(tasks, s, WriteIndex(w, true));
    IndexNeverShrinks(tasks, u, acts);
    assert tasks[w].key in u.index;
  }

  /** Whoever is on the way to the index has its blob in place. */
  predicate BlobFirst(tasks: seq<Task>, s: Sys) {
    && |s.pcs| == |tasks|
    && (forall w :: 0 <= w < |tasks| && (s.pcs[w].Stored? || s.pcs[w].InLock()) ==> tasks[w].key in s.blob)
    && (forall w :: 0 <= w < |tasks| && s.pcs[w].Holding? ==> s.pcs[w].snapshot.Keys <= s.blob.Keys)
    && s.index.Keys <= s.blob.Keys
  }

  lemma {:induction false} StepKeepsBlobFirst(tasks: seq<Task>, s: Sys, a: Action)
    requires BlobFirst(tasks, s)
    ensures BlobFirst(tasks, Next(tasks, s, a)) && s.blob.Keys <= Next(tasks, s, a).blob.Keys
  {
  }

  /** The index never names a blob that is not there: in every run, whatever fails, blobs stay and
      the index lists no key without one (if it did not to begin with). */
  lemma {:induction false} IndexNamesBlobs(tasks: seq<Task>, s: Sys, acts: seq<Action>)
    requires Quiet(tasks, s) && s.index.Keys <= s.blob.Keys
    ensures var t := Run(tasks, s, acts);
            BlobFirst(tasks, t) && s.blob.Keys <= t.blob.Keys && t.index.Keys <= t.blob.Keys
    decreases |acts|
  {
    if acts != [] {
      var init := acts[..|acts| - 1];
      IndexNamesBlobs(tasks, s, init);
      StepKeepsBlobFirst(tasks, Run(tasks, s, init), acts[|acts| - 1]);
    }
  }

  // --------------------------------------------------------------------------- progress

  /** How far a worker is from being done. */
  function Rank(pc: PC): nat {
    match pc
    case Idle => 9
    case Missed => 8
    case Parsed(_) => 7
    case Writing(_, _) => 6
    case Written(_) => 5
    case Stored(_) => 4
    case Locked(_) => 3
    case Holding(_, _, _) => 2
    case Indexed(_) => 1
    case Done(_) => 0
  }

  function Ranks(pcs: seq<PC>): nat {
    if pcs == [] then 0 else Rank(pcs[0]) + Ranks(pcs[1..])
  }

  lemma {:induction false} RanksDrop(pcs: seq<PC>, w: nat, pc: PC)
    requires w < |pcs| && Rank(pc) < Rank(pcs[w])
    ensures Ranks(pcs[w := pc]) < Ranks(pcs)
    decreases |pcs|
  {
    if w == 0 {
      assert pcs[w := pc][1..] == pcs[1..];
    } else {
      RanksDrop(pcs[1..], w - 1, pc);
      assert pcs[w := pc][1..] == pcs[1..][w - 1 := pc];
    }
  }

  /** Worker `w`'s next action when nothing fails. */
  function Ahead(w: nat, pc: PC): Action
    requires !pc.Done?
  {
    match pc
    case Idle => Lookup(w, true)
    case Missed => ParseFile(w)
    case Parsed(_) => OpenTmp(w)
    case Writing(_, _) => CloseTmp(w, Torn)
    case Written(_) => Replace(w)
    case Stored(_) => Acquire(w)
    case Locked(_) => ReadIndex(w, true)
    case Holding(_, _, _) => WriteIndex(w, true)
    case Indexed(_) => Release(w)
  }

  /** The lock, when held, is held by a worker that is inside. */
  predicate LockHeld(s: Sys) { LockSane(s) && (s.lock.Some? ==> s.lock.value < |s.pcs|) }

  lemma {:induction false} StepKeepsHeld(tasks: seq<Task>, s: Sys, a: Action)
    requires LockHeld(s)
    ensures LockHeld(Next(tasks, s, a))
  {
    StepKeepsLock(tasks, s, a);
  }

  lemma {:induction false} RunsKeepHeld(tasks: seq<Task>, s: Sys, acts: seq<Action>)
    requires LockHeld(s)
    ensures LockHeld(Run(tasks, s, acts))
    decreases |acts|
  {
    if acts != [] {
      RunsKeepHeld(tasks, s, acts[..|acts| - 1]);
      StepKeepsHeld(tasks, Run(tasks, s, acts[..|acts| - 1]), acts[|acts| - 1]);
    }
  }

  /** Unless all are done someone can go ahead: the lock's holder, or anyone when it is free. */
  lemma {:induction false} SomeoneCanGo(tasks: seq<Task>, s: Sys) returns (a: Action)
    requires LockHeld(s) && |s.pcs| == |tasks| && !AllDone(s)
    ensures !a.GiveUp? && |Next(tasks, s, a).pcs| == |s.pcs|
    ensures Ranks(Next(tasks, s, a).pcs) < Ranks(s.pcs)
  {
    var w: nat;
    if s.lock.Some? { w := s.lock.value; } else { w :| w < |s.pcs| && !s.pcs[w].Done?; }
    a := Ahead(w, s.pcs[w]);
    assert Rank(NextPC(tasks[w], s, w, s.pcs[w], a)) < Rank(s.pcs[w]);
    RanksDrop(s.pcs, w, NextPC(tasks[w], s, w, s.pcs[w], a));
  }

  lemma {:induction false} RunCons(tasks: seq<Task>, s: Sys, a: Action, acts: seq<Action>)
    ensures Run(tasks, s, [a] + acts) == Run(tasks, Next(tasks, s, a), acts)
    decreases |acts|
  {
    if acts == [] {
      assert [a] + acts == [a] && [a][..0] == [];
    } else {
      RunCons(tasks, s, a, acts[..|acts| - 1]);
      assert ([a] + acts)[..|acts|] == [a] + acts[..|acts| - 1];
    }
  }

  predicate NobodyGivesUp(acts: seq<Action>) { forall i :: 0 <= i < |acts| ==> !acts[i].GiveUp? }

  lemma {:induction false} HeldCanFinish(tasks: seq<Task>, s: Sys) returns (acts: seq<Action>)
    requires LockHeld(s) && |s.pcs| == |tasks|
    ensures NobodyGivesUp(acts) && AllDone(Run(tasks, s, acts))
    decreases Ranks(s.pcs)
  {
    if AllDone(s) {
      acts := [];
    } else {
      var a := SomeoneCanGo(tasks, s);
      StepKeepsHeld(tasks, s, a);
      var more := HeldCanFinish(tasks, Next(tasks, s, a));
      acts := [a] + more;
      RunCons(tasks, s, a, more);
    }
  }

  lemma {:induction false} RunKeepsWorkers(tasks: seq<Task>, s: Sys, acts: seq<Action>)
    ensures |Run(tasks, s, acts).pcs| == |s.pcs|
    decreases |acts|
  {
    if acts != [] { RunKeepsWorkers(tasks, s, acts[..|acts| - 1]); }
  }

  /** No run gets stuck: from wherever it is, some schedule brings every task to its end, with
      no store given up, and in particular with nobody waiting for the lock for ever. */
  lemma {:induction false} EveryRunCanFinish(tasks: seq<Task>, s: Sys, acts: seq<Action>)
    requires Quiet(tasks, s)
    ensures exists more: seq<Action> :: NobodyGivesUp(more) && AllDone(Run(tasks, Run(tasks, s, acts), more))
  {
    RunsKeepHeld(tasks, s, acts);
    RunKeepsWorkers(tasks, s, acts);
    var more := HeldCanFinish(tasks, Run(tasks, s, acts));
  }
}
