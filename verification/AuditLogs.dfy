/** `JSONLAuditLogger`: an append-only log built from whole-file reads and writes.

    Contents are text; a file that was never written is the same as an empty one.  Whether a
    read or a write succeeds is decided by the outside. */
module AuditLogs {
  import opened Common

  datatype Event = Event(kind: string, sessionId: Option<string>, line: string)

  datatype Config = Config(include_: Option<seq<string>>, resolver: string -> string)

  /** Whether the file system lets the read and the write through. */
  datatype Io = Io(readOk: bool, writeOk: bool)

  type Files = map<string, string>

  function Content(files: Files, path: string): string {
    if path in files then files[path] else ""
  }

  // -------------------------------------------------------------------------- appending

  predicate Terminated(s: string) { s != "" && s[|s| - 1] == '\n' }

  /** The new content: what was read, its last line terminated, and the new line. */
  function Appended(existing: string, line: string): string {
    (if existing != "" && !Terminated(existing) then existing + "\n" else existing) + line + "\n"
  }

  function Session(e: Event): string {
    if e.sessionId.Some? && e.sessionId.value != "" then e.sessionId.value else "unscoped"
  }

  function PathOf(cfg: Config, e: Event): string { cfg.resolver(Session(e)) }

  predicate Included(cfg: Config, e: Event) { cfg.include_.Some? ==> e.kind in cfg.include_.value }

  /** One event through the logger. */
  function Logged(cfg: Config, files: Files, e: Event, io: Io): Files {
    if !Included(cfg, e) || !io.writeOk then files
    else
      var existing := if io.readOk then Content(files, PathOf(cfg, e)) else "";
      files[PathOf(cfg, e) := Appended(existing, e.line)]
  }

  // ---------------------------------------------------------------------------- parsing

  function Break(s: string): (i: nat)
    ensures i <= |s| && (i < |s| ==> s[i] == '\n')
    ensures forall k :: 0 <= k < i ==> s[k] != '\n'
  {
    if s == "" || s[0] == '\n' then 0 else 1 + Break(s[1..])
  }

  /** The lines of a text; a last line without its newline counts. */
  function Lines(s: string): seq<string>
    decreases |s|
  {
    if s == "" then []
    else
      var i := Break(s);
      if i == |s| then [s] else [s[..i]] + Lines(s[i + 1..])
  }

  lemma {:induction false} BreakIsFirst(s: string, i: nat)
    requires i < |s| && s[i] == '\n' && forall k :: 0 <= k < i ==> s[k] != '\n'
    ensures Break(s) == i
  {
    var b := Break(s);
  }

  lemma {:induction false} FirstLine(head: string, rest: string)
    requires '\n' !in head
    ensures Lines(head + "\n" + rest) == [head] + Lines(rest)
  {
    var s := head + "\n" + rest;
    assert s[|head|] == '\n' && s[..|head|] == head && s[|head| + 1..] == rest;
    BreakIsFirst(s, |head|);
  }

  /** The first line of a text that holds a newline. */
  lemma {:induction false} SplitFirst(s: string) returns (head: string, rest: string)
    requires '\n' in s
    ensures s == head + "\n" + rest && '\n' !in head
  {
    var i := Break(s);
    head, rest := s[..i], s[i + 1..];
  }

  /** After a newline, or at the start, a text's lines are followed by those of what is added. */
  lemma {:induction false} LinesConcat(s: string, t: string)
    requires s == "" || Terminated(s)
    ensures Lines(s + t) == Lines(s) + Lines(t)
    decreases |s|
  {
    if s == "" {
      assert s + t == t;
    } else {
      var head, rest := SplitFirst(s);
      assert rest == "" || rest[|rest| - 1] == s[|s| - 1];
      FirstLine(head, rest);
      FirstLine(head, rest + t);
      Associates(head + "\n", rest, t);
      LinesConcat(rest, t);
      Associates([head], Lines(rest), Lines(t));
    }
  }

  lemma {:induction false} OneLine(line: string)
    requires '\n' !in line
    ensures Lines(line + "\n") == [line]
  {
    FirstLine(line, "");
    assert line + "\n" + "" == line + "\n";
  }

  lemma {:induction false} NoNewline(s: string)
    requires s != "" && '\n' !in s
    ensures Lines(s) == [s]
  {
  }

  /** Terminating the last line repairs it without changing what the text parses to. */
  lemma {:induction false} TerminatingKeepsLines(s: string)
    requires s != "" && !Terminated(s)
    ensures Lines(s + "\n") == Lines(s)
    decreases |s|
  {
    if '\n' !in s {
      OneLine(s);
      NoNewline(s);
    } else {
      var head, rest := SplitFirst(s);
      assert rest != "" && rest[|rest| - 1] == s[|s| - 1];
      FirstLine(head, rest);
      FirstLine(head, rest + "\n");
      Associates(head + "\n", rest, "\n");
      TerminatingKeepsLines(rest);
    }
  }

  /** An append parses back to what was read, followed by the new line. */
  lemma AppendAddsOneLine(existing: string, line: string)
    requires '\n' !in line
    ensures Lines(Appended(existing, line)) == Lines(existing) + [line]
  {
    var base := if existing != "" && !Terminated(existing) then existing + "\n" else existing;
    if existing != "" && !Terminated(existing) { TerminatingKeepsLines(existing); }
    LinesConcat(base, line + "\n");
    OneLine(line);
    assert Appended(existing, line) == base + (line + "\n");
  }

  /** Writing back on top of `read` extends the log `current` by the line exactly when `read`
      still parses to what the log holds: a failed read (`""`) or an append that slipped in
      between loses lines. */
  lemma WriteBackKeepsLogExactly(read: string, current: string, line: string)
    requires '\n' !in line
    ensures Lines(Appended(read, line)) == Lines(current) + [line] <==> Lines(read) == Lines(current)
  {
    AppendAddsOneLine(read, line);
    var a, b := Lines(read), Lines(current);
    if a + [line] == b + [line] {
      assert (a + [line])[..|a|] == a && (b + [line])[..|b|] == b;
    }
  }

  /** Only an empty log is safe from a read that fails although the file is there. */
  lemma FailedReadKeepsLogExactly(cfg: Config, files: Files, e: Event)
    requires Included(cfg, e) && '\n' !in e.line
    ensures var path := PathOf(cfg, e);
            var kept := Lines(Content(Logged(cfg, files, e, Io(false, true)), path))
                        == Lines(Content(files, path)) + [e.line];
            kept <==> Content(files, path) == ""
  {
    WriteBackKeepsLogExactly("", Content(files, PathOf(cfg, e)), e.line);
  }

  // ------------------------------------------------------------------------------- runs

  /** Events one after another, with what becomes of their reads and writes. */
  function Run(cfg: Config, files: Files, events: seq<Event>, ios: seq<Io>): Files
    requires |events| == |ios|
    decreases |events|
  {
    if events == [] then files
    else Logged(cfg, Run(cfg, files, Butlast(events), Butlast(ios)), events[|events| - 1], ios[|ios| - 1])
  }

  predicate Writes(cfg: Config, e: Event, io: Io, path: string) {
    Included(cfg, e) && PathOf(cfg, e) == path && io.writeOk
  }

  /** What one event adds to the file at `path`. */
  function NewLines(cfg: Config, e: Event, io: Io, path: string): seq<string> {
    if Writes(cfg, e, io, path) then [e.line] else []
  }

  /** The lines of the included events whose session resolves to `path` and whose write got
      through, in order. */
  function LinesFor(cfg: Config, events: seq<Event>, ios: seq<Io>, path: string): seq<string>
    requires |events| == |ios|
    decreases |events|
  {
    if events == [] then []
    else LinesFor(cfg, Butlast(events), Butlast(ios), path)
         + NewLines(cfg, events[|events| - 1], ios[|ios| - 1], path)
  }

  predicate NewlineFree(events: seq<Event>) {
    forall i :: 0 <= i < |events| ==> '\n' !in events[i].line
  }

  /** A write over a file that had something in it and could not be read. */
  predicate Clobbers(cfg: Config, files: Files, e: Event, io: Io, path: string) {
    Writes(cfg, e, io, path) && !io.readOk && Content(files, path) != ""
  }

  predicate NeverClobbers(cfg: Config, files: Files, events: seq<Event>, ios: seq<Io>, path: string)
    requires |events| == |ios|
    decreases |events|
  {
    events == [] ||
    (NeverClobbers(cfg, files, Butlast(events), Butlast(ios), path)
     && !Clobbers(cfg, Run(cfg, files, Butlast(events), Butlast(ios)), events[|events| - 1], ios[|ios| - 1], path))
  }

  lemma {:induction false} SomethingHasLines(s: string)
    requires s != ""
    ensures Lines(s) != []
  {
  }

  lemma {:induction false} LoggedLines(cfg: Config, files: Files, e: Event, io: Io, path: string)
    requires '\n' !in e.line
    ensures var was, now := Lines(Content(files, path)), Lines(Content(Logged(cfg, files, e, io), path));
            if Clobbers(cfg, files, e, io, path) then |now| == 1 <= |was|
            else now == was + NewLines(cfg, e, io, path)
  {
    var was := Lines(Content(files, path));
    if Writes(cfg, e, io, path) {
      AppendAddsOneLine(if io.readOk then Content(files, path) else "", e.line);
      if Clobbers(cfg, files, e, io, path) { SomethingHasLines(Content(files, path)); }
    } else {
      assert was + [] == was;
    }
  }

  /** What a file holds after a run, against what it should. */
  predicate Holds(whole: bool, got: seq<string>, want: seq<string>) {
    if whole then got == want else |got| < |want|
  }

  lemma {:induction false} LogHolds(cfg: Config, files: Files, events: seq<Event>, ios: seq<Io>, path: string)
    requires |events| == |ios| && NewlineFree(events)
    ensures Holds(NeverClobbers(cfg, files, events, ios, path),
                  Lines(Content(Run(cfg, files, events, ios), path)),
                  Lines(Content(files, path)) + LinesFor(cfg, events, ios, path))
    decreases |events|
  {
    var kept := Lines(Content(files, path));
    if events == [] {
      assert kept + [] == kept;
    } else {
      var e, io := events[|events| - 1], ios[|ios| - 1];
      LogHolds(cfg, files, Butlast(events), Butlast(ios), path);
      LoggedLines(cfg, Run(cfg, files, Butlast(events), Butlast(ios)), e, io, path);
      Associates(kept, LinesFor(cfg, Butlast(events), Butlast(ios), path), NewLines(cfg, e, io, path));
    }
  }

  /** Whatever reads and writes fail, a file parses back to its original lines followed by
      exactly what was written to it, if and only if no write ever followed a failed read of
      something. */
  lemma {:induction false} LogParsesBackExactly(cfg: Config, files: Files, events: seq<Event>, ios: seq<Io>, path: string)
    requires |events| == |ios| && NewlineFree(events)
    ensures Lines(Content(Run(cfg, files, events, ios), path))
            == Lines(Content(files, path)) + LinesFor(cfg, events, ios, path)
            <==> NeverClobbers(cfg, files, events, ios, path)
  {
    LogHolds(cfg, files, events, ios, path);
  }

  predicate AllOk(ios: seq<Io>) { forall i :: 0 <= i < |ios| ==> ios[i] == Io(true, true) }

  /** The events that go to `path`, in order. */
  function LoggedTo(cfg: Config, events: seq<Event>, path: string): seq<string>
    decreases |events|
  {
    if events == [] then []
    else
      var e := events[|events| - 1];
      LoggedTo(cfg, Butlast(events), path)
      + (if Included(cfg, e) && PathOf(cfg, e) == path then [e.line] else [])
  }

  lemma {:induction false} NothingFails(cfg: Config, files: Files, events: seq<Event>, ios: seq<Io>, path: string)
    requires |events| == |ios| && AllOk(ios)
    ensures NeverClobbers(cfg, files, events, ios, path)
    ensures LinesFor(cfg, events, ios, path) == LoggedTo(cfg, events, path)
    decreases |events|
  {
    if events != [] { NothingFails(cfg, files, Butlast(events), Butlast(ios), path); }
  }

  /** When nothing fails, every file parses back to its original lines followed by exactly the
      included events whose session resolves to it. */
  lemma {:induction false} LogParsesBack(cfg: Config, files: Files, events: seq<Event>, ios: seq<Io>, path: string)
    requires |events| == |ios| && NewlineFree(events) && AllOk(ios)
    ensures Lines(Content(Run(cfg, files, events, ios), path))
            == Lines(Content(files, path)) + LoggedTo(cfg, events, path)
  {
    NothingFails(cfg, files, events, ios, path);
    LogParsesBackExactly(cfg, files, events, ios, path);
  }

  /** Without a filter every event is logged, and otherwise those of the listed kinds; an event
      without a session id, or with an empty one, goes where "unscoped" does. */
  function GoesTo(cfg: Config, path: string): Event -> bool {
    (e: Event) =>
      && (cfg.include_.None? || e.kind in cfg.include_.value)
      && path == cfg.resolver(if e.sessionId == None || e.sessionId == Some("") then "unscoped" else e.sessionId.value)
  }

  function LineOf(events: seq<Event>): seq<string> {
    seq(|events|, i requires 0 <= i < |events| => events[i].line)
  }

  lemma GoesToExactly(cfg: Config, path: string, e: Event)
    ensures GoesTo(cfg, path)(e) <==> Included(cfg, e) && PathOf(cfg, e) == path
  {
  }

  lemma LineOfSnoc(events: seq<Event>, e: Event)
    ensures LineOf(events + [e]) == LineOf(events) + [e.line] && LineOf(events + []) == LineOf(events) + []
  {
    assert events + [] == events;
  }

  lemma {:induction false} LoggedArePicked(cfg: Config, events: seq<Event>, path: string) returns (logged: seq<Event>)
    ensures Picks(logged, events, GoesTo(cfg, path)) && LoggedTo(cfg, events, path) == LineOf(logged)
    decreases |events|
  {
    if events == [] {
      logged := [];
      PicksNothing(GoesTo(cfg, path));
    } else {
      var last := events[|events| - 1];
      var before := LoggedArePicked(cfg, Butlast(events), path);
      PicksLast(before, events, GoesTo(cfg, path));
      GoesToExactly(cfg, path, last);
      LineOfSnoc(before, last);
      logged := before + (if GoesTo(cfg, path)(last) then [last] else []);
    }
  }

  /** So a file parses back to its original lines followed by the lines of exactly those events
      that go there, in order. */
  lemma {:induction false} LogHoldsItsEvents(cfg: Config, files: Files, events: seq<Event>, ios: seq<Io>, path: string)
    returns (logged: seq<Event>)
    requires |events| == |ios| && NewlineFree(events) && AllOk(ios)
    ensures Picks(logged, events, GoesTo(cfg, path))
    ensures Lines(Content(Run(cfg, files, events, ios), path)) == Lines(Content(files, path)) + LineOf(logged)
  {
    LogParsesBack(cfg, files, events, ios, path);
    logged := LoggedArePicked(cfg, events, path);
  }

  /** Nothing of a log that could be read is ever rewritten, its last line is terminated again,
      and no other file is touched. */
  lemma LoggedOnlyAppends(cfg: Config, files: Files, e: Event, io: Io, path: string)
    ensures var was, now := Content(files, path), Content(Logged(cfg, files, e, io), path);
            && (!(io.writeOk && GoesTo(cfg, path)(e)) ==> now == was)
            && (io.writeOk && GoesTo(cfg, path)(e) ==> Terminated(now) && (io.readOk ==> was < now))
  {
    if Included(cfg, e) && io.writeOk {
      var read := if io.readOk then Content(files, PathOf(cfg, e)) else "";
      assert Terminated(Appended(read, e.line)) && read < Appended(read, e.line);
    }
  }

  // ------------------------------------------------------------------- the default paths

  function Underscored(s: string): string {
    seq(|s|, i requires 0 <= i < |s| => if s[i] == '/' then '_' else s[i])
  }

  function Safe(session: string): string {
    if session == "" then "unscoped" else Underscored(session)
  }

  const PREFIX: string := "audit/session-"
  const SUFFIX: string := ".jsonl"

  function DefaultPath(session: string): string { PREFIX + Safe(session) + SUFFIX }

  /** A session's default file is named after it, slash by underscore; without an id, "unscoped". */
  lemma DefaultPathIsNamed(s: string)
    ensures DefaultPath("") == "audit/session-unscoped.jsonl"
    ensures s != "" ==>
              exists name :: && DefaultPath(s) == "audit/session-" + name + ".jsonl" && |name| == |s|
                             && forall i :: 0 <= i < |s| ==> name[i] == if s[i] == '/' then '_' else s[i]
  {
    assert s != "" ==> DefaultPath(s) == "audit/session-" + Underscored(s) + ".jsonl";
  }

  lemma PathsAgree(s: string, t: string)
    ensures DefaultPath(s) == DefaultPath(t) <==> Safe(s) == Safe(t)
  {
    var p, q := DefaultPath(s), DefaultPath(t);
    assert p[|PREFIX|..|p| - |SUFFIX|] == Safe(s);
    assert q[|PREFIX|..|q| - |SUFFIX|] == Safe(t);
  }

  /** A session has a log file to itself exactly when its id holds neither a slash nor an
      underscore and is neither empty nor the name kept for sessions without an id. */
  lemma OwnFileExactly(s: string)
    ensures (forall t: string :: DefaultPath(t) == DefaultPath(s) ==> t == s)
            <==> '/' !in s && '_' !in s && s != "" && s != "unscoped"
  {
    if '/' in s {
      var i :| 0 <= i < |s| && s[i] == '/';
      var t := Underscored(s);
      assert t[i] == '_' && Underscored(t) == t;
      PathsAgree(s, t);
    } else if '_' in s {
      var i :| 0 <= i < |s| && s[i] == '_';
      var t := s[i := '/'];
      assert Underscored(t) == Underscored(s);
      assert t[i] != s[i];
      PathsAgree(s, t);
    } else if s == "" || s == "unscoped" {
      assert Underscored("unscoped") == "unscoped";
      PathsAgree("", "unscoped");
    } else {
      assert Underscored(s) == s;
      forall t: string | DefaultPath(t) == DefaultPath(s) ensures t == s {
        PathsAgree(t, s);
        if t != "" {
          forall i | 0 <= i < |s| ensures t[i] == s[i] {
            assert Underscored(t)[i] == s[i];
          }
        }
      }
    }
  }

  // -------------------------------------------------------------------------- the class

  class AuditLogger {
    const cfg: Config
    const hasVfs: bool
    var files: Files

    constructor (cfg: Config, hasVfs: bool, files: Files)
      ensures this.cfg == cfg && this.hasVfs == hasVfs && this.files == files
    {
      this.cfg, this.hasVfs, this.files := cfg, hasVfs, files;
    }

    method OnEvent(e: Event, io: Io)
      modifies this
      ensures files == if hasVfs then Logged(cfg, old(files), e, io) else old(files)
    {
      if !hasVfs {
        return;
      }
      if cfg.include_.Some? && e.kind !in cfg.include_.value {
        return;
      }
      var sessionId := if e.sessionId.Some? && e.sessionId.value != "" then e.sessionId.value else "unscoped";
      AppendLine(cfg.resolver(sessionId), e.line, io);
    }

    /** Read, extend, write back; a failed read counts as a first write. */
    method AppendLine(path: string, line: string, io: Io)
      requires hasVfs
      modifies this
      ensures files == if io.writeOk
                       then old(files)[path := Appended(if io.readOk then Content(old(files), path) else "", line)]
                       else old(files)
    {
      var existing := "";
      if io.readOk && path in files {
        existing := files[path];
      }
      if existing != "" && existing[|existing| - 1] != '\n' {
        existing := existing + "\n";
      }
      var newContent := existing + line + "\n";
      if io.writeOk {
        files := files[path := newContent];
      }
    }
  }
}
