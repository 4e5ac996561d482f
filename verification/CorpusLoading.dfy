/** `_load_files_to_corpus`: slots filled in completion order, documents and URIs collected
    in input order. */
module CorpusLoading {
  import opened Common
  import opened CorpusCache

  datatype File = File(present: bool, name: string, path: string, suffix: string, bytes: string)

  /** The code outside the loader: the digest, and parsing plus chunking, which reads the
      bytes but also the path and suffix, the chunk size and whether a chunker is there. */
  datatype World = World(digest: string -> string, load: (File, int, bool) -> Parse)

  function TaskOf(world: World, f: File, chunkSize: int, chunker: bool): Task {
    Task(f.present, Key(world.digest(f.bytes), chunkSize), world.load(f, chunkSize, chunker))
  }

  function TasksOf(world: World, files: seq<File>, chunkSize: int, chunker: bool): seq<Task> {
    seq(|files|, i requires 0 <= i < |files| => TaskOf(world, files[i], chunkSize, chunker))
  }

  // ---------------------------------------------------------------------- specification

  datatype Uri = Uri(name: string, chunk: Option<int>)

  datatype Corpus = Corpus(documents: seq<Chunk>, uris: seq<Uri>) {
    function Plus(other: Corpus): Corpus { Corpus(documents + other.documents, uris + other.uris) }
  }

  function UriOf(name: string, c: Chunk, j: nat): Uri {
    Uri(name, Some(if c.index.Some? then c.index.value else j))
  }

  /** What one file adds; a failed file and an empty chunk list add nothing. */
  function Contribution(f: File, slot: Option<seq<Chunk>>, chunked: bool): Corpus {
    if slot.None? || slot.value == [] then Corpus([], [])
    else if chunked then
      Corpus(slot.value, seq(|slot.value|, j requires 0 <= j < |slot.value| => UriOf(f.name, slot.value[j], j)))
    else Corpus([slot.value[0]], [Uri(f.name, None)])
  }

  function Parts(files: seq<File>, slots: seq<Option<seq<Chunk>>>, chunked: bool): seq<Corpus>
    requires |files| == |slots|
  {
    seq(|files|, i requires 0 <= i < |files| => Contribution(files[i], slots[i], chunked))
  }

  function Sum(parts: seq<Corpus>): Corpus
    decreases |parts|
  {
    if parts == [] then Corpus([], []) else Sum(parts[..|parts| - 1]).Plus(parts[|parts| - 1])
  }

  function Assemble(files: seq<File>, slots: seq<Option<seq<Chunk>>>, chunked: bool): Corpus
    requires |files| == |slots|
  {
    Sum(Parts(files, slots, chunked))
  }

  lemma PlusAssociates(a: Corpus, b: Corpus, c: Corpus)
    ensures a.Plus(b).Plus(c) == a.Plus(b.Plus(c))
  {
  }

  lemma {:induction false} SumSnoc(parts: seq<Corpus>, part: Corpus)
    ensures Sum(parts + [part]) == Sum(parts).Plus(part)
  {
    assert (parts + [part])[..|parts|] == parts;
  }

  lemma {:induction false} SumConcatenates(p: seq<Corpus>, q: seq<Corpus>)
    ensures Sum(p + q) == Sum(p).Plus(Sum(q))
    decreases |q|
  {
    if q == [] {
      assert p + q == p && Sum(p).Plus(Corpus([], [])) == Sum(p);
    } else {
      var init, last := Butlast(q), q[|q| - 1];
      SumConcatenates(p, init);
      assert q == init + [last];
      Associates(p, init, [last]);
      SumSnoc(p + init, last);
      SumSnoc(init, last);
      PlusAssociates(Sum(p), Sum(init), last);
    }
  }

  lemma {:induction false} SumIsPaired(parts: seq<Corpus>)
    requires forall i :: 0 <= i < |parts| ==> |parts[i].documents| == |parts[i].uris|
    ensures |Sum(parts).documents| == |Sum(parts).uris|
    decreases |parts|
  {
    if parts != [] { SumIsPaired(parts[..|parts| - 1]); }
  }

  /** Documents and URIs come in pairs, file by file in input order: file `i` sits between
      what the earlier and what the later files contribute. */
  lemma {:induction false} CorpusFollowsInputOrder(files: seq<File>, slots: seq<Option<seq<Chunk>>>,
                                                   i: nat, chunked: bool)
    requires |files| == |slots| && i < |files|
    ensures var all := Assemble(files, slots, chunked);
            && |all.documents| == |all.uris|
            && all == Assemble(files[..i], slots[..i], chunked)
                      .Plus(Contribution(files[i], slots[i], chunked))
                      .Plus(Assemble(files[i + 1..], slots[i + 1..], chunked))
  {
    var parts, part := Parts(files, slots, chunked), Contribution(files[i], slots[i], chunked);
    var p, q := Parts(files[..i], slots[..i], chunked), Parts(files[i + 1..], slots[i + 1..], chunked);
    SumIsPaired(parts);
    assert parts == p + [part] + q;
    SumConcatenates(p + [part], q);
    SumSnoc(p, part);
  }

  /** How many documents a slot stands for. */
  function Count(slot: Option<seq<Chunk>>, chunked: bool): nat {
    if slot.None? || slot.value == [] then 0 else if chunked then |slot.value| else 1
  }

  function Counted(slots: seq<Option<seq<Chunk>>>, chunked: bool): nat
    decreases |slots|
  {
    if slots == [] then 0 else Counted(Butlast(slots), chunked) + Count(slots[|slots| - 1], chunked)
  }

  lemma {:induction false} AssembleCounts(files: seq<File>, slots: seq<Option<seq<Chunk>>>, chunked: bool)
    requires |files| == |slots|
    ensures |Assemble(files, slots, chunked).documents| == Counted(slots, chunked)
    ensures |Assemble(files, slots, chunked).uris| == Counted(slots, chunked)
    decreases |files|
  {
    if files != [] {
      AssembleCounts(Butlast(files), Butlast(slots), chunked);
      var parts := Parts(files, slots, chunked);
      assert parts[..|parts| - 1] == Parts(Butlast(files), Butlast(slots), chunked);
    }
  }

  /** Where everything is: after the documents of the earlier files, chunk `j` of file `i` under
      the file's name and the chunk's own index, or `j` when it carries none; unchunked, the one
      document under the file's name alone. */
  lemma {:induction false} CorpusIsLaidOut(files: seq<File>, slots: seq<Option<seq<Chunk>>>, chunked: bool,
                                           i: nat, j: nat)
    requires |files| == |slots| && i < |files| && j < Count(slots[i], chunked)
    ensures var all, at := Assemble(files, slots, chunked), Counted(slots[..i], chunked) + j;
            && |all.documents| == |all.uris| == Counted(slots, chunked) && at < Counted(slots, chunked)
            && slots[i].Some? && j < |slots[i].value| && all.documents[at] == slots[i].value[j]
            && all.uris[at].name == files[i].name
            && (!chunked ==> all.uris[at].chunk.None?)
            && (chunked ==> var own := slots[i].value[j].index;
                            all.uris[at].chunk == if own.Some? then own else Some(j))
  {
    AssembleCounts(files, slots, chunked);
    AssembleCounts(files[..i], slots[..i], chunked);
    CorpusFollowsInputOrder(files, slots, i, chunked);
    var before, part := Assemble(files[..i], slots[..i], chunked), Contribution(files[i], slots[i], chunked);
    var after := Assemble(files[i + 1..], slots[i + 1..], chunked);
    Associates(before.documents, part.documents, after.documents);
    Associates(before.uris, part.uris, after.uris);
  }

  /** A failed file removes exactly its own chunks. */
  lemma {:induction false} FailureIsLocal(files: seq<File>, slots: seq<Option<seq<Chunk>>>, i: nat, chunked: bool)
    requires |files| == |slots| && i < |files|
    ensures Assemble(files, slots[i := None], chunked)
            == Assemble(files[..i] + files[i + 1..], slots[..i] + slots[i + 1..], chunked)
  {
    var without := Parts(files[..i] + files[i + 1..], slots[..i] + slots[i + 1..], chunked);
    var p, q := Parts(files[..i], slots[..i], chunked), Parts(files[i + 1..], slots[i + 1..], chunked);
    assert without == p + q;
    SumConcatenates(p, q);
    CorpusFollowsInputOrder(files, slots[i := None], i, chunked);
    assert slots[i := None][..i] == slots[..i] && slots[i := None][i + 1..] == slots[i + 1..];
    assert Sum(p).Plus(Corpus([], [])) == Sum(p);
  }

  // ------------------------------------------------------------------ schedules and cache

  /** What the serial loader without a cache puts into a file's slot. */
  function Serially(world: World, f: File, chunkSize: int, chunker: bool): Option<seq<Chunk>> {
    if !f.present || world.load(f, chunkSize, chunker).Broken? then None
    else Some(world.load(f, chunkSize, chunker).chunks)
  }

  function SlotOf(r: Result): Option<seq<Chunk>> {
    if r.Loaded? then Some(r.chunks) else None
  }

  function SlotsOf(t: Sys): seq<Option<seq<Chunk>>>
    requires AllDone(t)
  {
    seq(|t.pcs|, w requires 0 <= w < |t.pcs| => SlotOf(t.pcs[w].result))
  }

  function SerialSlots(world: World, files: seq<File>, chunkSize: int, chunker: bool): seq<Option<seq<Chunk>>> {
    seq(|files|, i requires 0 <= i < |files| => Serially(world, files[i], chunkSize, chunker))
  }

  /** Whatever the interleaving and whatever the cache held, a completed parallel load yields
      the corpus of the uncached serial loop; provided that no two of the files are stored under
      one key, or that what two writers leave in one file does not parse to something else. */
  lemma ScheduleIndependence(world: World, files: seq<File>, chunkSize: int, chunker: bool,
                             s: Sys, acts: seq<Action>, chunked: bool)
    requires KeyDeterminesChunks(TasksOf(world, files, chunkSize, chunker))
    requires Ready(TasksOf(world, files, chunkSize, chunker), s)
    requires Calm(TasksOf(world, files, chunkSize, chunker), s, acts)
    requires AllDone(Run(TasksOf(world, files, chunkSize, chunker), s, acts))
    ensures var tasks := TasksOf(world, files, chunkSize, chunker);
            var t := Run(tasks, s, acts);
            && |t.pcs| == |files|
            && Assemble(files, SlotsOf(t), chunked)
               == Assemble(files, SerialSlots(world, files, chunkSize, chunker), chunked)
  {
    var tasks := TasksOf(world, files, chunkSize, chunker);
    if MixturesTear(tasks, acts) { CacheNeverLies(tasks, s, acts); } else { LoneStorersNeverLie(tasks, s, acts); }
    var t := Run(tasks, s, acts);
    var serial := SerialSlots(world, files, chunkSize, chunker);
    assert forall w :: 0 <= w < |tasks| ==> SlotsOf(t)[w] == serial[w];
    assert SlotsOf(t) == serial;
  }

  /** The documented reading of the key: no two different contents share a digest, and the
      chunks depend on nothing but the content (and the chunk size). */
  predicate ContentAddressed(world: World, files: seq<File>, chunkSize: int, chunker: bool) {
    forall i, j :: 0 <= i < |files| && 0 <= j < |files| && files[i].present && files[j].present
                   && world.digest(files[i].bytes) == world.digest(files[j].bytes) ==>
      world.load(files[i], chunkSize, chunker) == world.load(files[j], chunkSize, chunker)
  }

  lemma ContentAddressedSuffices(world: World, files: seq<File>, chunkSize: int, chunker: bool)
    requires ContentAddressed(world, files, chunkSize, chunker)
    ensures KeyDeterminesChunks(TasksOf(world, files, chunkSize, chunker))
  {
    var tasks := TasksOf(world, files, chunkSize, chunker);
    forall i, j | 0 <= i < |tasks| && Stores(tasks[i]) && 0 <= j < |tasks| && tasks[j].present
                  && tasks[j].key == tasks[i].key
      ensures tasks[j].parse == Chunks(tasks[i].parse.chunks)
    {
      assert world.load(files[i], chunkSize, chunker) == world.load(files[j], chunkSize, chunker);
    }
  }

  /** A parser that records where a document came from, as the text parsers do. */
  function WithSource(f: File, chunkSize: int, chunker: bool): Parse {
    Chunks([Chunk(f.path + f.bytes, None)])
  }

  /** Two copies of one file: after the first is cached, the second is served chunks that name
      the first one's path, which no uncached load would produce. */
  lemma CopiedFileIsServedTheOriginal(bytes: string, chunkSize: int)
    ensures var world := World(b => b, WithSource);
            var files := [File(true, "x", "a", ".txt", bytes), File(true, "x", "b", ".txt", bytes)];
            var tasks := TasksOf(world, files, chunkSize, true);
            exists acts: seq<Action> :: MixturesTear(tasks, acts) && !AllAsUncached(tasks, Run(tasks, Empty(2), acts))
  {
    var world := World(b => b, WithSource);
    var files := [File(true, "x", "a", ".txt", bytes), File(true, "x", "b", ".txt", bytes)];
    var tasks := TasksOf(world, files, chunkSize, true);
    assert ("a" + bytes)[0] != ("b" + bytes)[0];
    assert tasks[0].parse.chunks[0].body == "a" + bytes && tasks[1].parse.chunks[0].body == "b" + bytes;
    assert Stores(tasks[0]) && tasks[1].present && tasks[1].key == tasks[0].key;
    assert !Exact(tasks, tasks[0].key, tasks[0].parse.chunks);
    TransparentExactly(tasks, Empty(2));
  }

  // ------------------------------------------------------------------------- the loader

  /** The effective size of the thread pool. */
  function Workers(requested: Option<int>, fallback: nat, n: nat): (workers: int)
    ensures workers <= 1 || workers <= n
    ensures requested.Some? && 1 <= requested.value <= n ==> workers == requested.value
  {
    var w := if requested.None? || requested.value < 1 then fallback else requested.value;
    if w < (if n > 1 then n else 1) then w else if n > 1 then n else 1
  }

  /** Every future completes, in some order. */
  predicate Completes(order: seq<nat>, n: nat) {
    (forall i :: 0 <= i < n ==> i in order) && forall k :: 0 <= k < |order| ==> order[k] < n
  }

  /** `outcomes[i]` is what worker `i` returns, `completed` the order in which they do. */
  method LoadFiles(files: seq<File>, chunkSize: int, importable: bool, requested: Option<int>,
                   fallbackWorkers: nat, outcomes: seq<Result>, completed: seq<nat>)
    returns (corpus: Option<Corpus>)
    requires |outcomes| == |files| && Completes(completed, |files|)
    ensures var slots := seq(|outcomes|, i requires 0 <= i < |outcomes| => SlotOf(outcomes[i]));
            var all := Assemble(files, slots, chunkSize > 0 && importable);
            corpus == if all.documents == [] then None else Some(all)
  {
    var n := |files|;
    ghost var slots := seq(|outcomes|, i requires 0 <= i < |outcomes| => SlotOf(outcomes[i]));
    if n == 0 {
      return None;
    }
    var chunkerAvailable := chunkSize > 0 && importable;
    var workers := Workers(requested, fallbackWorkers, n);
    var results: array<Option<seq<Chunk>>> := new Option<seq<Chunk>>[n](_ => None);
    if workers == 1 {
      for i := 0 to n
        invariant forall k :: 0 <= k < i ==> results[k] == slots[k]
      {
        results[i] := SlotOf(outcomes[i]);
      }
    } else {
      for k := 0 to |completed|
        invariant forall j :: 0 <= j < k ==> results[completed[j]] == slots[completed[j]]
      {
        var idx := completed[k];
        results[idx] := SlotOf(outcomes[idx]);
      }
      forall i | 0 <= i < n ensures results[i] == slots[i] {
        assert i in completed;
        var j :| 0 <= j < |completed| && completed[j] == i;
      }
    }
    assert results[..] == slots;
    var all := Collect(files, results, chunkerAvailable);
    corpus := if all.documents == [] then None else Some(all);
  }

  /** One file's turn: its chunks, or the one document, appended with their URIs. */
  method AddFile(f: File, slot: Option<seq<Chunk>>, chunked: bool, before: Corpus) returns (after: Corpus)
    ensures after == before.Plus(Contribution(f, slot, chunked))
  {
    after := before;
    ghost var added := Contribution(f, slot, chunked);
    if slot.Some? && slot.value != [] {
      var chunks := slot.value;
      if chunked {
        for j := 0 to |chunks|
          invariant after == before.Plus(Corpus(added.documents[..j], added.uris[..j]))
        {
          after := Corpus(after.documents + [chunks[j]], after.uris + [UriOf(f.name, chunks[j], j)]);
        }
        assert added.documents[..|chunks|] == added.documents && added.uris[..|chunks|] == added.uris;
      } else {
        after := Corpus(after.documents + [chunks[0]], after.uris + [Uri(f.name, None)]);
      }
    }
  }

  method Collect(files: seq<File>, results: array<Option<seq<Chunk>>>, chunked: bool) returns (all: Corpus)
    requires results.Length == |files|
    ensures all == Assemble(files, results[..], chunked)
  {
    ghost var parts := Parts(files, results[..], chunked);
    all := Corpus([], []);
    for i := 0 to |files|
      invariant all == Sum(parts[..i])
    {
      assert parts[..i + 1] == parts[..i] + [parts[i]];
      SumSnoc(parts[..i], parts[i]);
      all := AddFile(files[i], results[i], chunked, all);
    }
    assert parts[..|files|] == parts;
  }
}
