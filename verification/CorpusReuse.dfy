/** What one corpus load leaves for the next: a cache that is right for any files at any chunk size,
    and that answers for what was loaded and for nothing else. */
module CorpusReuse {
  import opened Common
  import opened CorpusCache
  import opened CorpusIndex
  import opened CorpusLoading

  // ------------------------------------------------------------- one load after another

  /** The directory as a load left it, with `n` workers of the next one about to start. */
  function Restarted(s: Sys, n: nat): Sys { s.(pcs := seq(n, _ => Idle), lock := None) }

  /** A load with `n` further workers that never move. */
  function Beside(s: Sys, n: nat): Sys { s.(pcs := s.pcs + seq(n, _ => Idle)) }

  lemma WritingBeside(s: Sys, n: nat, i: nat)
    ensures SomeoneWriting(Beside(s, n), i) <==> SomeoneWriting(s, i)
  {
    var t := Beside(s, n);
    if v :| 0 <= v < |s.pcs| && s.pcs[v].Writing? && s.pcs[v].inode == i {
      assert t.pcs[v] == s.pcs[v];
    }
  }

  lemma {:induction false} NextBeside(tasks: seq<Task>, more: seq<Task>, s: Sys, a: Action)
    requires |s.pcs| == |tasks| && a.w < |tasks|
    ensures Next(tasks + more, Beside(s, |more|), a) == Beside(Next(tasks, s, a), |more|)
  {
    var w, pc := a.w, s.pcs[a.w];
    var t := Beside(s, |more|);
    assert t.pcs[w] == pc && (tasks + more)[w] == tasks[w];
    if Reuses(s, tasks[w].key) { WritingBeside(s, |more|, s.tmp[tasks[w].key]); }
    var next := NextPC(tasks[w], s, w, pc, a);
    assert NextPC(tasks[w], t, w, pc, a) == next;
    assert t.pcs[w := next] == s.pcs[w := next] + seq(|more|, _ => Idle);
  }

  /** A step of the load alone is safe with the next load's tasks standing by. */
  lemma {:induction false} StepBeside(tasks: seq<Task>, more: seq<Task>, s: Sys, a: Action)
    requires KeyDeterminesChunks(tasks + more) && |s.pcs| == |tasks| && Safe(tasks + more, Beside(s, |more|))
    requires MixtureTears(tasks, a) || (a.w < |tasks| && WorkerAlone(tasks, s, a.w))
    ensures Safe(tasks + more, Beside(Next(tasks, s, a), |more|))
  {
    if a.w < |tasks| {
      NextBeside(tasks, more, s, a);
      var all, t := tasks + more, Beside(s, |more|);
      assert all[a.w] == tasks[a.w] && t.pcs[a.w] == s.pcs[a.w];
      if (a.WriteSome? || a.CloseTmp?) && !s.pcs[a.w].Writing? {
        DisabledIsIdle(all, t, a);
      } else {
        StepIsSafe(all, t, a);
      }
    }
  }

  lemma {:induction false} RunBeside(tasks: seq<Task>, more: seq<Task>, s: Sys, acts: seq<Action>)
    requires KeyDeterminesChunks(tasks + more) && Quiet(tasks, s) && CompleteIsExact(tasks + more, s)
    requires Calm(tasks, s, acts)
    ensures |Run(tasks, s, acts).pcs| == |tasks|
    ensures Safe(tasks + more, Beside(Run(tasks, s, acts), |more|))
    decreases |acts|
  {
    RunKeepsWorkers(tasks, s, acts);
    if acts == [] {
      var t := Beside(s, |more|);
      forall w | 0 <= w < |tasks + more| ensures t.pcs[w].Idle? { }
    } else {
      var a, init := acts[|acts| - 1], acts[..|acts| - 1];
      RunBeside(tasks, more, s, init);
      if !MixtureTears(tasks, a) {
        RunsAreTidy(tasks, s, init);
        assert WorkerAlone(tasks, Run(tasks, s, init), a.w);
      }
      StepBeside(tasks, more, Run(tasks, s, init), a);
    }
  }

  /** Wherever a load stops, the directory it leaves is ready for any other load whose chunks the
      keys determine together with its own. */
  lemma {:induction false} CacheStaysReady(tasks: seq<Task>, more: seq<Task>, s: Sys, acts: seq<Action>)
    requires KeyDeterminesChunks(tasks + more) && Quiet(tasks, s) && CompleteIsExact(tasks + more, s)
    requires Calm(tasks, s, acts)
    ensures Ready(more, Restarted(Run(tasks, s, acts), |more|))
  {
    RunBeside(tasks, more, s, acts);
    var t, all := Run(tasks, s, acts), tasks + more;
    forall i | 0 <= i < |t.inodes| && t.inodes[i].content.Complete?
      ensures Exact(more, t.inodes[i].key, t.inodes[i].content.chunks)
    {
      ExactOfPart(tasks, more, t.inodes[i].key, t.inodes[i].content.chunks);
    }
  }

  lemma ExactOfPart(tasks: seq<Task>, more: seq<Task>, key: Key, cs: seq<Chunk>)
    requires Exact(tasks + more, key, cs)
    ensures Exact(tasks, key, cs) && Exact(more, key, cs)
  {
    var all := tasks + more;
    assert forall j :: 0 <= j < |tasks| ==> all[j] == tasks[j];
    assert forall j :: 0 <= j < |more| ==> all[|tasks| + j] == more[j];
  }

  // --------------------------------------------------------------- loads at other sizes

  /** At one chunk size the two loads chunk alike, and chunks depend on the content only; nothing is
      asked of loads at different sizes. */
  predicate Agree(world: World, files: seq<File>, size: int, chunker: bool,
                  others: seq<File>, otherSize: int, otherChunker: bool) {
    && ContentAddressed(world, files, size, chunker) && ContentAddressed(world, others, otherSize, otherChunker)
    && (size == otherSize ==> chunker == otherChunker && ContentAddressed(world, files + others, size, chunker))
  }

  lemma {:induction false} KeysTellSizes(world: World, files: seq<File>, size: int, chunker: bool,
                                         others: seq<File>, otherSize: int, otherChunker: bool)
    requires Agree(world, files, size, chunker, others, otherSize, otherChunker)
    ensures KeyDeterminesChunks(TasksOf(world, files, size, chunker) + TasksOf(world, others, otherSize, otherChunker))
  {
    var tasks, more := TasksOf(world, files, size, chunker), TasksOf(world, others, otherSize, otherChunker);
    if size == otherSize {
      assert TasksOf(world, files + others, size, chunker) == tasks + more;
      ContentAddressedSuffices(world, files + others, size, chunker);
    } else {
      ContentAddressedSuffices(world, files, size, chunker);
      ContentAddressedSuffices(world, others, otherSize, otherChunker);
      DistinctKeysDetermine(tasks, more);
    }
  }

  lemma {:induction false} DistinctKeysDetermine(tasks: seq<Task>, more: seq<Task>)
    requires KeyDeterminesChunks(tasks) && KeyDeterminesChunks(more)
    requires forall i, j :: 0 <= i < |tasks| && 0 <= j < |more| ==> tasks[i].key != more[j].key
    ensures KeyDeterminesChunks(tasks + more)
  {
    var all := tasks + more;
    forall i | 0 <= i < |all| && Stores(all[i]) ensures Exact(all, all[i].key, all[i].parse.chunks) {
      if i < |tasks| {
        assert Exact(tasks, tasks[i].key, tasks[i].parse.chunks);
      } else {
        assert Exact(more, more[i - |tasks|].key, more[i - |tasks|].parse.chunks);
      }
    }
  }

  /** A cache that is right for both loads. */
  predicate RightForBoth(tasks: seq<Task>, more: seq<Task>, s: Sys) {
    Quiet(tasks, s) && CompleteIsExact(tasks + more, s)
  }

  /** Two loads over one cache, of any files, at one chunk size or at two, the first one stopped
      anywhere: each, when it completes, yields its own uncached corpus. */
  lemma {:induction false} LoadsDoNotMix(world: World, files: seq<File>, size: int, chunker: bool,
                                         others: seq<File>, otherSize: int, otherChunker: bool,
                                         s: Sys, acts: seq<Action>, again: seq<Action>, chunked: bool)
    requires Agree(world, files, size, chunker, others, otherSize, otherChunker)
    requires RightForBoth(TasksOf(world, files, size, chunker), TasksOf(world, others, otherSize, otherChunker), s)
    requires Calm(TasksOf(world, files, size, chunker), s, acts)
    requires var t := Restarted(Run(TasksOf(world, files, size, chunker), s, acts), |others|);
             Calm(TasksOf(world, others, otherSize, otherChunker), t, again)
    ensures var tasks, more := TasksOf(world, files, size, chunker), TasksOf(world, others, otherSize, otherChunker);
            var first, t := Run(tasks, s, acts), Restarted(Run(tasks, s, acts), |others|);
            var second := Run(more, t, again);
            && Ready(more, t) && |first.pcs| == |files| && |second.pcs| == |others|
            && (AllDone(first) ==> Assemble(files, SlotsOf(first), chunked)
                                   == Assemble(files, SerialSlots(world, files, size, chunker), chunked))
            && (AllDone(second) ==> Assemble(others, SlotsOf(second), chunked)
                                    == Assemble(others, SerialSlots(world, others, otherSize, otherChunker), chunked))
  {
    var tasks, more := TasksOf(world, files, size, chunker), TasksOf(world, others, otherSize, otherChunker);
    KeysTellSizes(world, files, size, chunker, others, otherSize, otherChunker);
    CacheStaysReady(tasks, more, s, acts);
    var t := Restarted(Run(tasks, s, acts), |others|);
    RunKeepsWorkers(tasks, s, acts);
    RunKeepsWorkers(more, t, again);
    ContentAddressedSuffices(world, files, size, chunker);
    ContentAddressedSuffices(world, others, otherSize, otherChunker);
    if AllDone(Run(tasks, s, acts)) {
      ReadyForFirst(tasks, more, s);
      ScheduleIndependence(world, files, size, chunker, s, acts, chunked);
    }
    if AllDone(Run(more, t, again)) {
      ScheduleIndependence(world, others, otherSize, otherChunker, t, again, chunked);
    }
  }

  lemma ReadyForFirst(tasks: seq<Task>, more: seq<Task>, s: Sys)
    requires RightForBoth(tasks, more, s)
    ensures Ready(tasks, s)
  {
    forall i | 0 <= i < |s.inodes| && s.inodes[i].content.Complete?
      ensures Exact(tasks, s.inodes[i].key, s.inodes[i].content.chunks)
    {
      ExactOfPart(tasks, more, s.inodes[i].key, s.inodes[i].content.chunks);
    }
  }

  // --------------------------------------------------------------------- hits and misses

  predicate NoneOfSize(s: Sys, size: int) { forall k :: k in s.blob ==> k.chunkSize != size }

  lemma {:induction false} RunsKeepSizes(tasks: seq<Task>, s: Sys, acts: seq<Action>, size: int)
    requires NoneOfSize(s, size) && forall w :: 0 <= w < |tasks| ==> tasks[w].key.chunkSize != size
    ensures NoneOfSize(Run(tasks, s, acts), size)
    decreases |acts|
  {
    if acts != [] { RunsKeepSizes(tasks, s, acts[..|acts| - 1], size); }
  }

  /** Flipping the chunk size is a clean miss: after loads at other sizes every file is parsed
      anew. */
  lemma {:induction false} OtherSizeIsMiss(world: World, files: seq<File>, size: int, chunker: bool,
                                           others: seq<File>, otherSize: int, otherChunker: bool,
                                           s: Sys, acts: seq<Action>, w: nat, readable: bool)
    requires size != otherSize && NoneOfSize(s, otherSize) && w < |others| && others[w].present
    ensures var t := Restarted(Run(TasksOf(world, files, size, chunker), s, acts), |others|);
            Next(TasksOf(world, others, otherSize, otherChunker), t, Lookup(w, readable)).pcs[w] == Missed
  {
    RunsKeepSizes(TasksOf(world, files, size, chunker), s, acts, otherSize);
  }

  /** What a worker has published by the time it is past the replacement of its blob. */
  predicate Published(task: Task, s: Sys, pc: PC) {
    && (pc.Writing? || pc.Written? ==> task.key in s.tmp)
    && (pc.Stored? || pc.InLock() ==> task.key in s.blob)
    && (pc.Done? && pc.result.Loaded? && Stores(task) ==> task.key in s.blob)
    && (pc.Done? && pc.result.Failed? ==> !Stores(task))
  }

  predicate AllPublished(tasks: seq<Task>, s: Sys) {
    |s.pcs| == |tasks| && forall w :: 0 <= w < |tasks| ==> Published(tasks[w], s, s.pcs[w])
  }

  lemma {:induction false} StepPublishes(tasks: seq<Task>, s: Sys, a: Action)
    requires OneStorerPerKey(tasks) && Tidy(tasks, s) && AllPublished(tasks, s) && !a.GiveUp?
    ensures AllPublished(tasks, Next(tasks, s, a))
  {
    if a.w < |tasks| {
      var t := Next(tasks, s, a);
      assert WorkerAlone(tasks, s, a.w) && Published(tasks[a.w], s, s.pcs[a.w]);
      forall w | 0 <= w < |tasks| ensures Published(tasks[w], t, t.pcs[w]) {
        assert WorkerAlone(tasks, s, w) && Published(tasks[w], s, s.pcs[w]);
      }
    }
  }

  lemma {:induction false} RunsPublish(tasks: seq<Task>, s: Sys, acts: seq<Action>)
    requires OneStorerPerKey(tasks) && Clean(tasks, s) && NobodyGivesUp(acts)
    ensures AllPublished(tasks, Run(tasks, s, acts)) && NoTornBlob(Run(tasks, s, acts))
    decreases |acts|
  {
    RunsAreTidy(tasks, s, acts);
    if acts != [] {
      var init := acts[..|acts| - 1];
      assert NobodyGivesUp(init);
      RunsPublish(tasks, s, init);
      RunsAreTidy(tasks, s, init);
      StepPublishes(tasks, Run(tasks, s, init), acts[|acts| - 1]);
    }
  }

  /** Re-running is all hits: after a completed load in which no store was given up, a file of the
      same content at the same chunk size, wherever it lies and whatever it is called, is served
      the chunks that were loaded, without being parsed. */
  lemma {:induction false} LoadedIsHit(world: World, files: seq<File>, others: seq<File>, size: int, chunker: bool,
                                       s: Sys, acts: seq<Action>, i: nat, w: nat)
    requires Agree(world, files, size, chunker, others, size, chunker)
    requires RightForBoth(TasksOf(world, files, size, chunker), TasksOf(world, others, size, chunker), s)
    requires var tasks := TasksOf(world, files, size, chunker);
             OneStorerPerKey(tasks) && Clean(tasks, s) && NobodyGivesUp(acts) && AllDone(Run(tasks, s, acts))
    requires i < |files| && w < |others| && others[w].present && others[w].bytes == files[i].bytes
    requires files[i].present && world.load(files[i], size, chunker).Chunks?
    requires world.load(files[i], size, chunker).chunks != []
    ensures var t := Restarted(Run(TasksOf(world, files, size, chunker), s, acts), |others|);
            Next(TasksOf(world, others, size, chunker), t, Lookup(w, true)).pcs[w]
            == Done(Loaded(world.load(files[i], size, chunker).chunks, true))
  {
    var tasks, more := TasksOf(world, files, size, chunker), TasksOf(world, others, size, chunker);
    KeysTellSizes(world, files, size, chunker, others, size, chunker);
    RunsPublish(tasks, s, acts);
    RunBeside(tasks, more, s, acts);
    var t, key := Run(tasks, s, acts), tasks[i].key;
    assert Published(tasks[i], t, t.pcs[i]) && Stores(tasks[i]);
    var cs := t.inodes[t.blob[key]].content.chunks;
    ExactOfPart(tasks, more, key, cs);
  }
}
