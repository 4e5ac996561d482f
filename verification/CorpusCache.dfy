/** The content-addressed chunk cache under concurrent loaders (`_cache_load`,
    `_cache_store`, `_parse_and_chunk_one`).

    Each task is a small step machine; a run is any sequence of actions, an action that is
    not enabled changing nothing, so a run is any interleaving of any number of workers.
    A file's content is what a reader would make of it: `Torn` is anything that does not
    parse back, and loading it is a miss.  A lone writer's file is torn until closed; what
    several writers leave in one file reads as anything.  Names map to inodes, as a replaced
    temporary file keeps being written by whoever has it open. */
module CorpusCache {
  import opened Common

  datatype Key = Key(digest: string, chunkSize: int)

  /** A chunk document; `index` is its own record of its place, when it carries one. */
  datatype Chunk = Chunk(body: string, index: Option<int>)

  datatype Parse = Broken | Chunks(chunks: seq<Chunk>)

  /** One file in play: whether it exists, its cache key, and what parsing and chunking it yields. */
  datatype Task = Task(present: bool, key: Key, parse: Parse)

  datatype Content = Torn | Complete(chunks: seq<Chunk>)

  /** `sole` is the writer whose truncation was the last one, when nobody else had the file
      open at that moment. */
  datatype Inode = Inode(key: Key, content: Content, sole: Option<nat>)

  datatype Result = Loaded(chunks: seq<Chunk>, hit: bool) | Failed

  datatype Entry = Entry(task: nat, nChunks: nat)

  datatype PC =
    | Idle
    | Missed
    | Parsed(chunks: seq<Chunk>)
    | Writing(chunks: seq<Chunk>, inode: nat)
    | Written(chunks: seq<Chunk>)
    | Stored(chunks: seq<Chunk>)
    | Locked(chunks: seq<Chunk>)
    | Holding(chunks: seq<Chunk>, snapshot: map<Key, Entry>, readOk: bool)
    | Indexed(chunks: seq<Chunk>)
    | Done(result: Result)
  {
    predicate InLock() { Locked? || Holding? || Indexed? }

    predicate Storing() {
      Parsed? || Writing? || Written? || Stored? || InLock()
    }

    function Carried(): seq<Chunk>
      requires Storing()
    {
      match this
      case Parsed(cs) => cs
      case Writing(cs, _) => cs
      case Written(cs) => cs
      case Stored(cs) => cs
      case Locked(cs) => cs
      case Holding(cs, _, _) => cs
      case Indexed(cs) => cs
    }
  }

  datatype Sys = Sys(tmp: map<Key, nat>, blob: map<Key, nat>, inodes: seq<Inode>,
                        index: map<Key, Entry>, lock: Option<nat>, pcs: seq<PC>)

  datatype Action =
    | Lookup(w: nat, readable: bool)      // an unreadable blob is a miss
    | ParseFile(w: nat)
    | OpenTmp(w: nat)
    | WriteSome(w: nat, mixed: Content)   // `mixed`: what the file reads as, should other
    | CloseTmp(w: nat, mixed: Content)    // writers have been at it too
    | Replace(w: nat)
    | Acquire(w: nat)
    | ReadIndex(w: nat, ok: bool)
    | WriteIndex(w: nat, ok: bool)
    | Release(w: nat)
    | GiveUp(w: nat)                      // a suppressed OSError inside the store

  predicate SomeoneWriting(s: Sys, i: nat) {
    exists v :: 0 <= v < |s.pcs| && s.pcs[v].Writing? && s.pcs[v].inode == i
  }

  /** The inode `open("w")` truncates, if the temporary name leads to one. */
  predicate Reuses(s: Sys, key: Key) { key in s.tmp && s.tmp[key] < |s.inodes| }

  function NextPC(task: Task, s: Sys, w: nat, pc: PC, a: Action): PC {
    match a
    case Lookup(_, readable) =>
      if !pc.Idle? then pc
      else if !task.present then Done(Failed)
      else if readable && task.key in s.blob && s.blob[task.key] < |s.inodes|
              && s.inodes[s.blob[task.key]].content.Complete?
      then Done(Loaded(s.inodes[s.blob[task.key]].content.chunks, true))
      else Missed
    case ParseFile(_) =>
      if !pc.Missed? then pc
      else if task.parse.Broken? then Done(Failed)
      else if task.parse.chunks == [] then Done(Loaded([], false))
      else Parsed(task.parse.chunks)
    case OpenTmp(_) =>
      if pc.Parsed? then Writing(pc.chunks, if Reuses(s, task.key) then s.tmp[task.key] else |s.inodes|)
      else pc
    case WriteSome(_, _) => pc
    case CloseTmp(_, _) => if pc.Writing? then Written(pc.chunks) else pc
    case Replace(_) =>
      if !pc.Written? then pc
      else if task.key in s.tmp then Stored(pc.chunks)
      else Done(Loaded(pc.chunks, false))
    case Acquire(_) => if pc.Stored? && s.lock.None? then Locked(pc.chunks) else pc
    case ReadIndex(_, ok) =>
      if pc.Locked? then Holding(pc.chunks, if ok then s.index else map[], ok) else pc
    case WriteIndex(_, _) => if pc.Holding? then Indexed(pc.chunks) else pc
    case Release(_) => if pc.Indexed? then Done(Loaded(pc.chunks, false)) else pc
    case GiveUp(_) =>
      if pc.Parsed? || pc.Writing? || pc.Written? || pc.Stored?
      then Done(Loaded(pc.Carried(), false)) else pc
  }

  /** What a write leaves in the file: of a lone writer's, part of its list and in the end all
      of it; of several writers', anything. */
  function Left(inode: Inode, w: nat, cs: seq<Chunk>, a: Action): Content
    requires a.WriteSome? || a.CloseTmp?
  {
    if inode.sole != Some(w) then a.mixed else if a.CloseTmp? then Complete(cs) else Torn
  }

  function NextInodes(task: Task, s: Sys, w: nat, pc: PC, a: Action): seq<Inode> {
    if a.OpenTmp? && pc.Parsed? then
      if Reuses(s, task.key) then
        var i := s.tmp[task.key];
        s.inodes[i := Inode(task.key, Torn, if SomeoneWriting(s, i) then None else Some(w))]
      else s.inodes + [Inode(task.key, Torn, Some(w))]
    else if (a.WriteSome? || a.CloseTmp?) && pc.Writing? && pc.inode < |s.inodes| then
      var i := pc.inode;
      s.inodes[i := s.inodes[i].(content := Left(s.inodes[i], w, pc.chunks, a))]
    else s.inodes
  }

  function NextTmp(task: Task, s: Sys, pc: PC, a: Action): map<Key, nat> {
    if a.OpenTmp? && pc.Parsed? && !Reuses(s, task.key) then s.tmp[task.key := |s.inodes|]
    else if a.Replace? && pc.Written? then s.tmp - {task.key}
    else s.tmp
  }

  function NextBlob(task: Task, s: Sys, pc: PC, a: Action): map<Key, nat> {
    if a.Replace? && pc.Written? && task.key in s.tmp then s.blob[task.key := s.tmp[task.key]]
    else s.blob
  }

  function NextIndex(task: Task, s: Sys, w: nat, pc: PC, a: Action): map<Key, Entry> {
    if a.WriteIndex? && a.ok && pc.Holding? then pc.snapshot[task.key := Entry(w, |pc.chunks|)]
    else s.index
  }

  function NextLock(s: Sys, w: nat, pc: PC, a: Action): Option<nat> {
    if a.Acquire? && pc.Stored? && s.lock.None? then Some(w)
    else if a.Release? && pc.Indexed? then None
    else s.lock
  }

  /** One atomic step; only the acting worker moves. */
  function Next(tasks: seq<Task>, s: Sys, a: Action): Sys {
    if a.w >= |tasks| || |s.pcs| != |tasks| then s
    else
      var w, task, pc := a.w, tasks[a.w], s.pcs[a.w];
      Sys(NextTmp(task, s, pc, a), NextBlob(task, s, pc, a), NextInodes(task, s, w, pc, a),
          NextIndex(task, s, w, pc, a), NextLock(s, w, pc, a), s.pcs[w := NextPC(task, s, w, pc, a)])
  }

  function Run(tasks: seq<Task>, s: Sys, acts: seq<Action>): Sys
    decreases |acts|
  {
    if acts == [] then s
    else Next(tasks, Run(tasks, s, acts[..|acts| - 1]), acts[|acts| - 1])
  }

  // -------------------------------------------------------------- the cache never lies

  /** `cs` is what every file under `key` parses to. */
  predicate Exact(tasks: seq<Task>, key: Key, cs: seq<Chunk>) {
    forall j :: 0 <= j < |tasks| && tasks[j].present && tasks[j].key == key ==>
      tasks[j].parse == Chunks(cs)
  }

  /** A task whose result gets stored: an empty chunk list does not. */
  predicate Stores(task: Task) { task.present && task.parse.Chunks? && task.parse.chunks != [] }

  /** The key hypothesis: the chunks are a function of the key, as far as anything is stored. */
  predicate KeyDeterminesChunks(tasks: seq<Task>) {
    forall i :: 0 <= i < |tasks| && Stores(tasks[i]) ==>
      Exact(tasks, tasks[i].key, tasks[i].parse.chunks)
  }

  /** What the same task would answer without a cache. */
  predicate AsUncached(task: Task, r: Result) {
    if task.present && task.parse.Chunks? then r.Loaded? && r.chunks == task.parse.chunks
    else r.Failed?
  }

  predicate NamesLeadToTheirInodes(s: Sys) {
    && (forall k :: k in s.blob ==> s.blob[k] < |s.inodes| && s.inodes[s.blob[k]].key == k)
    && (forall k :: k in s.tmp ==> s.tmp[k] < |s.inodes| && s.inodes[s.tmp[k]].key == k)
  }

  predicate CompleteIsExact(tasks: seq<Task>, s: Sys) {
    forall i :: 0 <= i < |s.inodes| && s.inodes[i].content.Complete? ==>
      Exact(tasks, s.inodes[i].key, s.inodes[i].content.chunks)
  }

  predicate WorkerSane(tasks: seq<Task>, s: Sys, w: nat)
    requires w < |s.pcs| == |tasks|
  {
    var pc := s.pcs[w];
    && (pc.Missed? || pc.Storing() ==> tasks[w].present)
    && (pc.Storing() ==> tasks[w].parse == Chunks(pc.Carried()) && pc.Carried() != [])
    && (pc.Writing? ==> pc.inode < |s.inodes| && s.inodes[pc.inode].key == tasks[w].key)
    && (pc.Done? ==> AsUncached(tasks[w], pc.result))
  }

  predicate Safe(tasks: seq<Task>, s: Sys) {
    && |s.pcs| == |tasks|
    && NamesLeadToTheirInodes(s) && CompleteIsExact(tasks, s)
    && forall w :: 0 <= w < |tasks| ==> WorkerSane(tasks, s, w)
  }

  /** A loader about to start over whatever an earlier one left. */
  predicate Quiet(tasks: seq<Task>, s: Sys) {
    && |s.pcs| == |tasks| && (forall w :: 0 <= w < |tasks| ==> s.pcs[w].Idle?)
    && s.lock.None? && NamesLeadToTheirInodes(s)
  }

  /** What it left, if complete, is right; it may be torn. */
  predicate Ready(tasks: seq<Task>, s: Sys) { Quiet(tasks, s) && CompleteIsExact(tasks, s) }

  lemma {:induction false} OpenIsSafe(tasks: seq<Task>, s: Sys, w: nat)
    requires Safe(tasks, s) && w < |tasks| && s.pcs[w].Parsed?
    ensures Safe(tasks, Next(tasks, s, OpenTmp(w)))
  {
    var t := Next(tasks, s, OpenTmp(w));
    forall v | 0 <= v < |tasks| ensures WorkerSane(tasks, t, v) {
      assert WorkerSane(tasks, s, v);
    }
  }

  /** A write or an opening by a worker that is not at that point changes nothing. */
  lemma {:induction false} DisabledIsIdle(tasks: seq<Task>, s: Sys, a: Action)
    requires |s.pcs| == |tasks|
    requires a.w >= |tasks| || (a.OpenTmp? && !s.pcs[a.w].Parsed?)
             || ((a.WriteSome? || a.CloseTmp?) && !s.pcs[a.w].Writing?)
             || (a.Replace? && !s.pcs[a.w].Written?)
    ensures Next(tasks, s, a) == s
  {
  }

  /** Should the bytes of several writers parse at all, they parse to this writer's list. */
  predicate MixtureTears(tasks: seq<Task>, a: Action) {
    (a.WriteSome? || a.CloseTmp?) && a.w < |tasks| && a.mixed.Complete? ==>
      tasks[a.w].parse == Chunks(a.mixed.chunks)
  }

  predicate MixturesTear(tasks: seq<Task>, acts: seq<Action>) {
    forall i :: 0 <= i < |acts| ==> MixtureTears(tasks, acts[i])
  }

  /** Nobody else has been at the file `a` writes to. */
  predicate WritesAlone(s: Sys, a: Action) {
    a.w < |s.pcs| && s.pcs[a.w].Writing? && s.pcs[a.w].inode < |s.inodes|
    && s.inodes[s.pcs[a.w].inode].sole == Some(a.w)
  }

  lemma {:induction false} WriteIsSafe(tasks: seq<Task>, s: Sys, a: Action)
    requires KeyDeterminesChunks(tasks) && Safe(tasks, s)
    requires a.WriteSome? || a.CloseTmp?
    requires MixtureTears(tasks, a) || WritesAlone(s, a)
    ensures Safe(tasks, Next(tasks, s, a))
  {
    if a.w >= |tasks| || !s.pcs[a.w].Writing? {
      DisabledIsIdle(tasks, s, a);
    } else {
      var t := Next(tasks, s, a);
      assert WorkerSane(tasks, s, a.w);
      assert Exact(tasks, tasks[a.w].key, s.pcs[a.w].chunks);
      forall v | 0 <= v < |tasks| ensures WorkerSane(tasks, t, v) {
        assert WorkerSane(tasks, s, v);
      }
    }
  }

  /** A step that moves one worker and renames at most. */
  lemma {:induction false} MoveIsSafe(tasks: seq<Task>, s: Sys, t: Sys, w: nat)
    requires Safe(tasks, s) && w < |tasks| && |t.pcs| == |s.pcs|
    requires t.inodes == s.inodes && NamesLeadToTheirInodes(t) && WorkerSane(tasks, t, w)
    requires forall v :: 0 <= v < |tasks| && v != w ==> t.pcs[v] == s.pcs[v]
    ensures Safe(tasks, t)
  {
    forall v | 0 <= v < |tasks| && v != w ensures WorkerSane(tasks, t, v) {
      assert WorkerSane(tasks, s, v);
    }
  }

  lemma {:induction false} LookupIsSafe(tasks: seq<Task>, s: Sys, a: Action)
    requires Safe(tasks, s) && (a.Lookup? || a.ParseFile?)
    ensures Safe(tasks, Next(tasks, s, a))
  {
    if a.w < |tasks| {
      var t := Next(tasks, s, a);
      assert WorkerSane(tasks, s, a.w);
      if a.Lookup? && tasks[a.w].key in s.blob {
        assert s.inodes[s.blob[tasks[a.w].key]].key == tasks[a.w].key;
      }
      MoveIsSafe(tasks, s, t, a.w);
    }
  }

  lemma {:induction false} ReplaceIsSafe(tasks: seq<Task>, s: Sys, w: nat)
    requires Safe(tasks, s)
    ensures Safe(tasks, Next(tasks, s, Replace(w)))
  {
    if w < |tasks| {
      assert WorkerSane(tasks, s, w);
      MoveIsSafe(tasks, s, Next(tasks, s, Replace(w)), w);
    }
  }

  lemma {:induction false} LaterStepIsSafe(tasks: seq<Task>, s: Sys, a: Action)
    requires Safe(tasks, s)
    requires a.Acquire? || a.ReadIndex? || a.WriteIndex? || a.Release? || a.GiveUp?
    ensures Safe(tasks, Next(tasks, s, a))
  {
    if a.w < |tasks| {
      assert WorkerSane(tasks, s, a.w);
      MoveIsSafe(tasks, s, Next(tasks, s, a), a.w);
    }
  }

  lemma {:induction false} StepIsSafe(tasks: seq<Task>, s: Sys, a: Action)
    requires KeyDeterminesChunks(tasks) && Safe(tasks, s)
    requires a.WriteSome? || a.CloseTmp? ==> MixtureTears(tasks, a) || WritesAlone(s, a)
    ensures Safe(tasks, Next(tasks, s, a))
  {
    if a.OpenTmp? {
      if a.w < |tasks| && s.pcs[a.w].Parsed? { OpenIsSafe(tasks, s, a.w); } else { DisabledIsIdle(tasks, s, a); }
    } else if a.WriteSome? || a.CloseTmp? {
      WriteIsSafe(tasks, s, a);
    } else if a.Lookup? || a.ParseFile? {
      LookupIsSafe(tasks, s, a);
    } else if a.Replace? {
      ReplaceIsSafe(tasks, s, a.w);
    } else {
      LaterStepIsSafe(tasks, s, a);
    }
  }

  lemma {:induction false} RunsAreSafe(tasks: seq<Task>, s: Sys, acts: seq<Action>)
    requires KeyDeterminesChunks(tasks) && Safe(tasks, s) && MixturesTear(tasks, acts)
    ensures Safe(tasks, Run(tasks, s, acts))
    decreases |acts|
  {
    if acts != [] {
      RunsAreSafe(tasks, s, acts[..|acts| - 1]);
      StepIsSafe(tasks, Run(tasks, s, acts[..|acts| - 1]), acts[|acts| - 1]);
    }
  }

  /** Every complete blob is the true chunk list of its key. */
  predicate BlobsAreExact(tasks: seq<Task>, t: Sys) {
    forall k :: k in t.blob && t.blob[k] < |t.inodes| && t.inodes[t.blob[k]].content.Complete? ==>
      Exact(tasks, k, t.inodes[t.blob[k]].content.chunks)
  }

  predicate AllAsUncached(tasks: seq<Task>, t: Sys) {
    && |t.pcs| == |tasks|
    && forall w :: 0 <= w < |tasks| && t.pcs[w].Done? ==> AsUncached(tasks[w], t.pcs[w].result)
  }

  lemma {:induction false} SafeNeverLies(tasks: seq<Task>, t: Sys)
    requires Safe(tasks, t)
    ensures BlobsAreExact(tasks, t) && AllAsUncached(tasks, t)
  {
    forall w | 0 <= w < |tasks| && t.pcs[w].Done? ensures AsUncached(tasks[w], t.pcs[w].result) {
      assert WorkerSane(tasks, t, w);
    }
  }

  /** In every interleaving, a complete blob is the true chunk list of its key and a finished
      task answers what it would have answered without the cache; provided that what several
      writers leave in one file does not parse to something else. */
  lemma {:induction false} CacheNeverLies(tasks: seq<Task>, s: Sys, acts: seq<Action>)
    requires KeyDeterminesChunks(tasks) && Ready(tasks, s) && MixturesTear(tasks, acts)
    ensures BlobsAreExact(tasks, Run(tasks, s, acts)) && AllAsUncached(tasks, Run(tasks, s, acts))
  {
    RunsAreSafe(tasks, s, acts);
    SafeNeverLies(tasks, Run(tasks, s, acts));
  }

  // ---------------------------------------------- the key hypothesis is exactly what it takes

  function Empty(n: nat): Sys {
    Sys(map[], map[], [], map[], None, seq(n, _ => Idle))
  }

  /** One task running alone, from a miss through the replacement of its blob. */
  function Solo(w: nat): seq<Action> {
    [Lookup(w, false), ParseFile(w), OpenTmp(w), CloseTmp(w, Torn), Replace(w)]
  }

  lemma {:induction false} RunSnoc(tasks: seq<Task>, s: Sys, acts: seq<Action>, a: Action)
    ensures Run(tasks, s, acts + [a]) == Next(tasks, Run(tasks, s, acts), a)
  {
    assert (acts + [a])[..|acts|] == acts;
  }

  /** Opening and closing without company writes the whole list. */
  lemma {:induction false} WriteAlone(tasks: seq<Task>, s: Sys, w: nat)
    requires w < |tasks| == |s.pcs| && s.pcs[w].Parsed? && NamesLeadToTheirInodes(s)
    requires forall v :: 0 <= v < |tasks| ==> !s.pcs[v].Writing?
    ensures var t, key := Next(tasks, Next(tasks, s, OpenTmp(w)), CloseTmp(w, Torn)), tasks[w].key;
            && key in t.tmp && t.tmp[key] < |t.inodes|
            && t.inodes[t.tmp[key]].content == Complete(s.pcs[w].chunks)
            && t.blob == s.blob && t.pcs == s.pcs[w := Written(s.pcs[w].chunks)]
  {
    var u, key := Next(tasks, s, OpenTmp(w)), tasks[w].key;
    assert key in u.tmp && u.tmp[key] < |u.inodes| && u.inodes[u.tmp[key]].sole == Some(w);
    assert u.pcs[w] == Writing(s.pcs[w].chunks, u.tmp[key]) && u.blob == s.blob;
    assert u.pcs[w := Written(s.pcs[w].chunks)] == s.pcs[w := Written(s.pcs[w].chunks)];
  }

  /** A lone storer that misses leaves its own chunks, complete, in its temporary file. */
  lemma {:induction false} WrittenAlone(tasks: seq<Task>, s: Sys, w: nat) returns (t: Sys)
    requires Quiet(tasks, s) && w < |tasks| && Stores(tasks[w])
    ensures t == Run(tasks, s, Solo(w)[..4])
    ensures var cs, key := tasks[w].parse.chunks, tasks[w].key;
            && key in t.tmp && t.tmp[key] < |t.inodes| && t.inodes[t.tmp[key]].content == Complete(cs)
            && t.blob == s.blob && t.pcs == s.pcs[w := Written(cs)]
  {
    var acts := Solo(w);
    var u := MissAndParse(tasks, s, w);
    assert Run(tasks, s, acts[..2]) == u by {
      assert acts[..0] == [] && acts[..1] == acts[..0] + [acts[0]] && acts[..2] == acts[..1] + [acts[1]];
      RunSnoc(tasks, s, acts[..0], acts[0]);
      RunSnoc(tasks, s, acts[..1], acts[1]);
    }
    t := Run(tasks, s, acts[..4]);
    assert t == Next(tasks, Next(tasks, u, OpenTmp(w)), CloseTmp(w, Torn)) by {
      assert acts[..3] == acts[..2] + [acts[2]] && acts[..4] == acts[..3] + [acts[3]];
      RunSnoc(tasks, s, acts[..2], acts[2]);
      RunSnoc(tasks, s, acts[..3], acts[3]);
    }
    WriteAlone(tasks, u, w);
    assert u.pcs[w := Written(u.pcs[w].chunks)] == s.pcs[w := Written(tasks[w].parse.chunks)];
  }

  lemma {:induction false} MissAndParse(tasks: seq<Task>, s: Sys, w: nat) returns (u: Sys)
    requires |s.pcs| == |tasks| && w < |tasks| && Stores(tasks[w]) && s.pcs[w].Idle?
    ensures u == Next(tasks, Next(tasks, s, Lookup(w, false)), ParseFile(w))
    ensures u == s.(pcs := s.pcs[w := Parsed(tasks[w].parse.chunks)])
  {
    var m := Next(tasks, s, Lookup(w, false));
    assert m == s.(pcs := s.pcs[w := Missed]);
    u := Next(tasks, m, ParseFile(w));
    assert m.pcs[w := Parsed(tasks[w].parse.chunks)] == s.pcs[w := Parsed(tasks[w].parse.chunks)];
  }

  /** The second of two tasks with one key and different chunks is served the first one's. */
  lemma {:induction false} SharedKeyServesWrongChunks(tasks: seq<Task>, s: Sys, i: nat, j: nat)
    requires Quiet(tasks, s)
    requires i < |tasks| && j < |tasks| && Stores(tasks[i]) && tasks[j].present && tasks[j].key == tasks[i].key
    requires tasks[j].parse != tasks[i].parse
    ensures !AllAsUncached(tasks, Run(tasks, s, Solo(i) + [Lookup(j, true)]))
  {
    var t := WrittenAlone(tasks, s, i);
    assert Solo(i) == Solo(i)[..4] + [Replace(i)];
    RunSnoc(tasks, s, Solo(i)[..4], Replace(i));
    RunSnoc(tasks, s, Solo(i), Lookup(j, true));
    var u := Run(tasks, s, Solo(i) + [Lookup(j, true)]);
    assert u.pcs[j] == Done(Loaded(tasks[i].parse.chunks, true));
  }

  /** Over whatever was cached before, caching is transparent in every run exactly when the key
      determines the chunks. */
  lemma {:induction false} TransparentExactly(tasks: seq<Task>, s: Sys)
    requires Ready(tasks, s)
    ensures KeyDeterminesChunks(tasks) <==>
            forall acts: seq<Action> :: MixturesTear(tasks, acts) ==> AllAsUncached(tasks, Run(tasks, s, acts))
  {
    if KeyDeterminesChunks(tasks) {
      forall acts: seq<Action> | MixturesTear(tasks, acts) ensures AllAsUncached(tasks, Run(tasks, s, acts)) {
        CacheNeverLies(tasks, s, acts);
      }
    } else {
      var i :| 0 <= i < |tasks| && Stores(tasks[i])
               && !Exact(tasks, tasks[i].key, tasks[i].parse.chunks);
      var j :| 0 <= j < |tasks| && tasks[j].present && tasks[j].key == tasks[i].key
               && tasks[j].parse != Chunks(tasks[i].parse.chunks);
      SharedKeyServesWrongChunks(tasks, s, i, j);
      assert MixturesTear(tasks, Solo(i) + [Lookup(j, true)]);
    }
  }

  // --------------------------------------------------------------- half-written entries

  predicate OneStorerPerKey(tasks: seq<Task>) {
    forall i, j :: 0 <= i < j < |tasks| && Stores(tasks[i]) && Stores(tasks[j]) ==>
      tasks[i].key != tasks[j].key
  }

  predicate NoTornBlob(s: Sys) {
    forall k :: k in s.blob ==> s.blob[k] < |s.inodes| && s.inodes[s.blob[k]].content.Complete?
  }

  /** A worker between opening and replacing has its temporary file to itself. */
  predicate WorkerAlone(tasks: seq<Task>, s: Sys, w: nat)
    requires w < |s.pcs| == |tasks|
  {
    var pc, key := s.pcs[w], tasks[w].key;
    && (pc.Missed? ==> tasks[w].present)
    && (pc.Storing() ==> Stores(tasks[w]))
    && (pc.Writing? ==> key in s.tmp && s.tmp[key] == pc.inode < |s.inodes|
                        && s.inodes[pc.inode].sole == Some(w))
    && (pc.Written? && key in s.tmp ==>
          s.tmp[key] < |s.inodes| && s.inodes[s.tmp[key]].content.Complete?)
  }

  predicate Tidy(tasks: seq<Task>, s: Sys) {
    && |s.pcs| == |tasks| && NamesLeadToTheirInodes(s) && NoTornBlob(s)
    && (forall k :: k in s.tmp && k in s.blob ==> s.tmp[k] != s.blob[k])
    && forall w :: 0 <= w < |tasks| ==> WorkerAlone(tasks, s, w)
  }

  lemma {:induction false} OpenIsTidy(tasks: seq<Task>, s: Sys, w: nat)
    requires OneStorerPerKey(tasks) && Tidy(tasks, s) && w < |tasks| && s.pcs[w].Parsed?
    ensures Tidy(tasks, Next(tasks, s, OpenTmp(w)))
  {
    var t, key := Next(tasks, s, OpenTmp(w)), tasks[w].key;
    assert WorkerAlone(tasks, s, w);
    forall v | 0 <= v < |tasks| && v != w && s.pcs[v].Storing() ensures tasks[v].key != key {
      assert WorkerAlone(tasks, s, v);
    }
    forall v | 0 <= v < |tasks| && s.pcs[v].Writing? && key in s.tmp ensures s.pcs[v].inode != s.tmp[key] {
      assert WorkerAlone(tasks, s, v) && s.inodes[s.tmp[tasks[v].key]].key == tasks[v].key;
      assert s.inodes[s.tmp[key]].key == key;
    }
    forall v | 0 <= v < |tasks| ensures WorkerAlone(tasks, t, v) {
      assert WorkerAlone(tasks, s, v);
    }
    forall k | k in t.blob ensures t.inodes[t.blob[k]].content.Complete? {
      assert k in s.blob && s.inodes[s.blob[k]].key == k;
    }
  }

  lemma {:induction false} WriteIsTidy(tasks: seq<Task>, s: Sys, a: Action)
    requires OneStorerPerKey(tasks) && Tidy(tasks, s) && a.w < |tasks| && s.pcs[a.w].Writing?
    requires a.WriteSome? || a.CloseTmp?
    ensures Tidy(tasks, Next(tasks, s, a))
  {
    var t, w := Next(tasks, s, a), a.w;
    assert WorkerAlone(tasks, s, w);
    var i := s.pcs[w].inode;
    forall k | k in t.blob ensures t.inodes[t.blob[k]].content.Complete? {
      assert s.inodes[s.blob[k]].key == k && s.blob[k] != i;
    }
    forall v | 0 <= v < |tasks| ensures WorkerAlone(tasks, t, v) {
      assert WorkerAlone(tasks, s, v);
      if v != w && s.pcs[v].Written? && tasks[v].key in s.tmp {
        assert s.inodes[s.tmp[tasks[v].key]].key == tasks[v].key != tasks[w].key;
      }
    }
  }

  lemma {:induction false} ReplaceIsTidy(tasks: seq<Task>, s: Sys, w: nat)
    requires Tidy(tasks, s) && w < |tasks| && s.pcs[w].Written? && OneStorerPerKey(tasks)
    ensures Tidy(tasks, Next(tasks, s, Replace(w)))
  {
    var t, key := Next(tasks, s, Replace(w)), tasks[w].key;
    assert WorkerAlone(tasks, s, w);
    forall k | k in t.tmp && k in t.blob ensures t.tmp[k] != t.blob[k] {
      assert s.inodes[s.tmp[k]].key == k;
    }
    forall v | 0 <= v < |tasks| ensures WorkerAlone(tasks, t, v) {
      assert WorkerAlone(tasks, s, v);
    }
  }

  lemma {:induction false} MoveIsTidy(tasks: seq<Task>, s: Sys, t: Sys, w: nat)
    requires Tidy(tasks, s) && w < |tasks| && |t.pcs| == |s.pcs|
    requires t.inodes == s.inodes && t.tmp == s.tmp && t.blob == s.blob && WorkerAlone(tasks, t, w)
    requires forall v :: 0 <= v < |tasks| && v != w ==> t.pcs[v] == s.pcs[v]
    ensures Tidy(tasks, t)
  {
    forall v | 0 <= v < |tasks| && v != w ensures WorkerAlone(tasks, t, v) {
      assert WorkerAlone(tasks, s, v);
    }
  }

  /** A step that leaves the files alone starts a store only for what gets stored. */
  lemma {:induction false} OtherStepMoves(tasks: seq<Task>, s: Sys, a: Action)
    requires a.w < |tasks| == |s.pcs|
    requires !a.OpenTmp? && !a.WriteSome? && !a.CloseTmp? && !a.Replace?
    ensures var t, w := Next(tasks, s, a), a.w;
            && t.inodes == s.inodes && t.tmp == s.tmp && t.blob == s.blob && |t.pcs| == |s.pcs|
            && (forall v :: 0 <= v < |tasks| && v != w ==> t.pcs[v] == s.pcs[v])
            && (t.pcs[w].Writing? || t.pcs[w].Written? ==> t.pcs[w] == s.pcs[w])
            && (t.pcs[w].Missed? ==> s.pcs[w].Missed? || tasks[w].present)
            && (t.pcs[w].Storing() ==> s.pcs[w].Storing() || (s.pcs[w].Missed? && tasks[w].parse.Chunks?
                                                             && tasks[w].parse.chunks != []))
  {
  }

  lemma {:induction false} OtherStepIsTidy(tasks: seq<Task>, s: Sys, a: Action)
    requires Tidy(tasks, s) && !a.OpenTmp? && !a.WriteSome? && !a.CloseTmp? && !a.Replace?
    ensures Tidy(tasks, Next(tasks, s, a))
  {
    if a.w < |tasks| {
      var t := Next(tasks, s, a);
      OtherStepMoves(tasks, s, a);
      assert WorkerAlone(tasks, t, a.w) by { assert WorkerAlone(tasks, s, a.w); }
      MoveIsTidy(tasks, s, t, a.w);
    }
  }

  lemma {:induction false} RunsAreTidy(tasks: seq<Task>, s: Sys, acts: seq<Action>)
    requires OneStorerPerKey(tasks) && Tidy(tasks, s)
    ensures Tidy(tasks, Run(tasks, s, acts))
    decreases |acts|
  {
    if acts != [] {
      var a, was := acts[|acts| - 1], Run(tasks, s, acts[..|acts| - 1]);
      RunsAreTidy(tasks, s, acts[..|acts| - 1]);
      if a.OpenTmp? {
        if a.w < |tasks| && was.pcs[a.w].Parsed? { OpenIsTidy(tasks, was, a.w); } else { DisabledIsIdle(tasks, was, a); }
      } else if a.WriteSome? || a.CloseTmp? {
        if a.w < |tasks| && was.pcs[a.w].Writing? { WriteIsTidy(tasks, was, a); } else { DisabledIsIdle(tasks, was, a); }
      } else if a.Replace? {
        if a.w < |tasks| && was.pcs[a.w].Written? {
          ReplaceIsTidy(tasks, was, a.w);
        } else {
          DisabledIsIdle(tasks, was, a);
        }
      } else {
        OtherStepIsTidy(tasks, was, a);
      }
    }
  }

  /** While `i` has a finished temporary file waiting, `j` misses, parses and truncates it;
      `i` then publishes what is left. */
  lemma {:induction false} SecondStorerTruncates(tasks: seq<Task>, i: nat, j: nat, t: Sys)
    requires i < |tasks| && j < |tasks| && i != j && Stores(tasks[j]) && tasks[i].key == tasks[j].key
    requires |t.pcs| == |tasks| && t.pcs[i].Written? && t.pcs[j].Idle?
    requires tasks[i].key in t.tmp && t.tmp[tasks[i].key] < |t.inodes|
    ensures var u := Next(tasks, Next(tasks, Next(tasks, t, Lookup(j, false)), ParseFile(j)), OpenTmp(j));
            !NoTornBlob(Next(tasks, u, Replace(i)))
  {
    var key := tasks[i].key;
    var t2 := MissAndParse(tasks, t, j);
    var u := Next(tasks, t2, OpenTmp(j));
    assert u.pcs[i].Written? && u.tmp == t.tmp && u.inodes[t.tmp[key]].content.Torn?;
    assert Next(tasks, u, Replace(i)).blob[key] == t.tmp[key];
  }

  /** Two storers of one key: the second truncates the finished temporary file of the first,
      and the first then publishes it. */
  lemma {:induction false} SharedTmpTearsBlob(tasks: seq<Task>, s: Sys, i: nat, j: nat)
    requires Quiet(tasks, s)
    requires i < |tasks| && j < |tasks| && i != j && Stores(tasks[i]) && Stores(tasks[j])
    requires tasks[i].key == tasks[j].key
    ensures !NoTornBlob(Run(tasks, s,
              Solo(i)[..4] + [Lookup(j, false)] + [ParseFile(j)] + [OpenTmp(j)] + [Replace(i)]))
  {
    var t := WrittenAlone(tasks, s, i);
    SecondStorerTruncates(tasks, i, j, t);
    var a0 := Solo(i)[..4];
    var a1 := a0 + [Lookup(j, false)];
    var a2 := a1 + [ParseFile(j)];
    var a3 := a2 + [OpenTmp(j)];
    RunSnoc(tasks, s, a0, Lookup(j, false));
    RunSnoc(tasks, s, a1, ParseFile(j));
    RunSnoc(tasks, s, a2, OpenTmp(j));
    RunSnoc(tasks, s, a3, Replace(i));
  }

  /** A quiet directory with whole blobs; temporary files may lie about, under no other name. */
  predicate Clean(tasks: seq<Task>, s: Sys) {
    Quiet(tasks, s) && NoTornBlob(s) && forall k :: k in s.tmp && k in s.blob ==> s.tmp[k] != s.blob[k]
  }

  /** "Atomic per blob" holds of every run over a clean directory exactly when no two storers
      share a key. */
  lemma {:induction false} NeverTornExactly(tasks: seq<Task>, s: Sys)
    requires Clean(tasks, s)
    ensures OneStorerPerKey(tasks) <==>
            forall acts: seq<Action> :: NoTornBlob(Run(tasks, s, acts))
  {
    if OneStorerPerKey(tasks) {
      forall acts: seq<Action> ensures NoTornBlob(Run(tasks, s, acts)) {
        RunsAreTidy(tasks, s, acts);
      }
    } else {
      var i, j :| 0 <= i < j < |tasks| && Stores(tasks[i]) && Stores(tasks[j])
                  && tasks[i].key == tasks[j].key;
      SharedTmpTearsBlob(tasks, s, i, j);
    }
  }

  // ---------------------------------------------------------------- bytes of two writers

  /** With one storer per key no file has two writers, and nothing need be said of mixtures. */
  lemma {:induction false} LoneStorersAreSafe(tasks: seq<Task>, s: Sys, acts: seq<Action>)
    requires KeyDeterminesChunks(tasks) && OneStorerPerKey(tasks) && Ready(tasks, s) && Clean(tasks, s)
    ensures Safe(tasks, Run(tasks, s, acts))
    decreases |acts|
  {
    if acts != [] {
      var a, was := acts[|acts| - 1], Run(tasks, s, acts[..|acts| - 1]);
      LoneStorersAreSafe(tasks, s, acts[..|acts| - 1]);
      RunsAreTidy(tasks, s, acts[..|acts| - 1]);
      if a.WriteSome? || a.CloseTmp? {
        if a.w < |tasks| && was.pcs[a.w].Writing? {
          assert WorkerAlone(tasks, was, a.w);
          StepIsSafe(tasks, was, a);
        } else {
          DisabledIsIdle(tasks, was, a);
        }
      } else {
        StepIsSafe(tasks, was, a);
      }
    }
  }

  ghost predicate Reaches(tasks: seq<Task>, s: Sys, t: Sys) {
    exists acts: seq<Action> :: Run(tasks, s, acts) == t
  }

  lemma {:induction false} ReachesNext(tasks: seq<Task>, s: Sys, t: Sys, a: Action)
    requires Reaches(tasks, s, t)
    ensures Reaches(tasks, s, Next(tasks, t, a))
  {
    var acts: seq<Action> :| Run(tasks, s, acts) == t;
    RunSnoc(tasks, s, acts, a);
  }

  /** Two storers of one key can publish anything at all, such as an empty list. */
  lemma {:induction false} MixedWritesPoison(tasks: seq<Task>, s: Sys, i: nat, j: nat)
    requires Quiet(tasks, s)
    requires i < |tasks| && j < |tasks| && i != j && Stores(tasks[i]) && Stores(tasks[j])
    requires tasks[i].key == tasks[j].key
    ensures exists t :: Reaches(tasks, s, t) && !BlobsAreExact(tasks, t)
  {
    var s2 := MissAndParse(tasks, s, i);
    assert Run(tasks, s, []) == s;
    ReachesNext(tasks, s, s, Lookup(i, false));
    ReachesNext(tasks, s, Next(tasks, s, Lookup(i, false)), ParseFile(i));
    var s3 := Next(tasks, s2, OpenTmp(i));
    ReachesNext(tasks, s, s2, OpenTmp(i));
    var s5 := MissAndParse(tasks, s3, j);
    ReachesNext(tasks, s, s3, Lookup(j, false));
    ReachesNext(tasks, s, Next(tasks, s3, Lookup(j, false)), ParseFile(j));
    var s6 := Next(tasks, s5, OpenTmp(j));
    ReachesNext(tasks, s, s5, OpenTmp(j));
    var s7 := Next(tasks, s6, CloseTmp(i, Complete([])));
    ReachesNext(tasks, s, s6, CloseTmp(i, Complete([])));
    ReachesNext(tasks, s, s7, Replace(i));
    TwoWritersMix(tasks, s2, s5, i, j);
  }

  /** `i` has the file open; `j` opens it too; what `i` then closes and publishes is anything. */
  lemma {:induction false} TwoWritersMix(tasks: seq<Task>, s2: Sys, s5: Sys, i: nat, j: nat)
    requires i < |tasks| == |s2.pcs| && j < |tasks| && i != j && Stores(tasks[i]) && Stores(tasks[j])
    requires tasks[i].key == tasks[j].key && s2.pcs[i].Parsed? && NamesLeadToTheirInodes(s2)
    requires var s3 := Next(tasks, s2, OpenTmp(i));
             j < |s3.pcs| && s5 == s3.(pcs := s3.pcs[j := Parsed(tasks[j].parse.chunks)])
    ensures var s6 := Next(tasks, s5, OpenTmp(j));
            !BlobsAreExact(tasks, Next(tasks, Next(tasks, s6, CloseTmp(i, Complete([]))), Replace(i)))
  {
    var key, s3 := tasks[i].key, Next(tasks, s2, OpenTmp(i));
    assert key in s3.tmp && s3.tmp[key] < |s3.inodes|;
    var x := s3.tmp[key];
    assert s5.pcs[i] == Writing(s2.pcs[i].chunks, x) && SomeoneWriting(s5, x);
    var s6 := Next(tasks, s5, OpenTmp(j));
    assert s6.pcs[i] == s5.pcs[i] && s6.tmp == s5.tmp && s6.inodes[x].sole.None?;
    var s7 := Next(tasks, s6, CloseTmp(i, Complete([])));
    assert s7.pcs[i].Written? && s7.tmp == s6.tmp && s7.inodes[x].content == Complete([]);
    var s8 := Next(tasks, s7, Replace(i));
    assert s8.blob[key] == x && s8.inodes == s7.inodes;
    assert !Exact(tasks, key, []);
  }

  lemma {:induction false} WrongKeyPoisons(tasks: seq<Task>, s: Sys, i: nat)
    requires Quiet(tasks, s) && i < |tasks| && Stores(tasks[i])
    requires !Exact(tasks, tasks[i].key, tasks[i].parse.chunks)
    ensures !BlobsAreExact(tasks, Run(tasks, s, Solo(i)))
  {
    var t := WrittenAlone(tasks, s, i);
    assert Solo(i) == Solo(i)[..4] + [Replace(i)];
    RunSnoc(tasks, s, Solo(i)[..4], Replace(i));
    var u := Run(tasks, s, Solo(i));
    assert u.blob[tasks[i].key] == t.tmp[tasks[i].key] && u.inodes == t.inodes;
  }

  lemma {:induction false} BlobsGoWrong(tasks: seq<Task>, s: Sys) returns (acts: seq<Action>)
    requires Quiet(tasks, s) && (!KeyDeterminesChunks(tasks) || !OneStorerPerKey(tasks))
    ensures !BlobsAreExact(tasks, Run(tasks, s, acts))
  {
    if !KeyDeterminesChunks(tasks) {
      var i :| 0 <= i < |tasks| && Stores(tasks[i]) && !Exact(tasks, tasks[i].key, tasks[i].parse.chunks);
      WrongKeyPoisons(tasks, s, i);
      acts := Solo(i);
    } else {
      var i, j :| 0 <= i < j < |tasks| && Stores(tasks[i]) && Stores(tasks[j])
                  && tasks[i].key == tasks[j].key;
      MixedWritesPoison(tasks, s, i, j);
      var t :| Reaches(tasks, s, t) && !BlobsAreExact(tasks, t);
      acts :| Run(tasks, s, acts) == t;
    }
  }

  /** With nothing supposed of the bytes two writers leave, every complete blob is right in
      every run exactly when the key determines the chunks and no two storers share a key. */
  lemma {:induction false} BlobsAreExactExactly(tasks: seq<Task>, s: Sys)
    requires Ready(tasks, s) && Clean(tasks, s)
    ensures (forall acts: seq<Action> :: BlobsAreExact(tasks, Run(tasks, s, acts)))
            <==> KeyDeterminesChunks(tasks) && OneStorerPerKey(tasks)
  {
    if KeyDeterminesChunks(tasks) && OneStorerPerKey(tasks) {
      forall acts: seq<Action> ensures BlobsAreExact(tasks, Run(tasks, s, acts)) {
        LoneStorersNeverLie(tasks, s, acts);
      }
    } else {
      var acts := BlobsGoWrong(tasks, s);
    }
  }

  lemma {:induction false} LoneStorersNeverLie(tasks: seq<Task>, s: Sys, acts: seq<Action>)
    requires KeyDeterminesChunks(tasks) && OneStorerPerKey(tasks) && Ready(tasks, s) && Clean(tasks, s)
    ensures BlobsAreExact(tasks, Run(tasks, s, acts)) && AllAsUncached(tasks, Run(tasks, s, acts))
  {
    LoneStorersAreSafe(tasks, s, acts);
    SafeNeverLies(tasks, Run(tasks, s, acts));
  }

  /** Nothing goes wrong with what several writers leave in one file: should it parse, it parses to
      the right list; or no two storers share a key in the first place. */
  predicate Calm(tasks: seq<Task>, s: Sys, acts: seq<Action>) {
    MixturesTear(tasks, acts) || (OneStorerPerKey(tasks) && Clean(tasks, s))
  }

  predicate AllDone(t: Sys) { forall w :: 0 <= w < |t.pcs| ==> t.pcs[w].Done? }
}
