/** Tailing the growing output of an agent: reading it in pieces agrees with reading it once. */
module Tailing {
  import opened Wrappers

  newtype byte = b: int | 0 <= b < 256
  type File = seq<byte>

  const NEWLINE: byte := 10

  datatype AgentEvent =
    | Session(id: Option<string>, model: Option<string>)
    | Text(text: string)
    | Tool(name: string, summary: string)
    | Outcome(ok: bool, subtype: Option<string>, text: string, session: Option<string>, cost: Option<real>)

  datatype Numbered = Numbered(number: nat, event: AgentEvent)

  /** What a turn keeps of a job: the read offset, and what its events say about session, model and text. */
  datatype Job = Job(offset: nat, session: Option<string>, model: Option<string>, lastText: Option<string>)

  /** The keys that one chunk will set. */
  datatype Updates = Updates(session: Option<string>, model: Option<string>, lastText: Option<string>)

  const NOTHING := Updates(None, None, None)

  // ---- lines ----

  /** `rfind(b"\n") + 1`: how much of a chunk ends in a newline. */
  function CompleteLen(s: File): (n: nat)
    ensures n <= |s| && (n > 0 ==> s[n - 1] == NEWLINE)
    ensures forall i :: n <= i < |s| ==> s[i] != NEWLINE
  {
    if s == [] then 0 else if s[|s| - 1] == NEWLINE then |s| else CompleteLen(s[..|s| - 1])
  }

  predicate AtLineStart(s: File, n: nat) {
    n <= |s| && (n == 0 || s[n - 1] == NEWLINE)
  }

  /** The length of the first line, without its newline, or of everything when there is none. */
  function FirstLine(s: File): (n: nat)
    ensures n <= |s| && (n < |s| ==> s[n] == NEWLINE)
    ensures forall i :: 0 <= i < n ==> s[i] != NEWLINE
  {
    if s == [] || s[0] == NEWLINE then 0 else 1 + FirstLine(s[1..])
  }

  /** The complete lines; an unfinished last line is not among them. */
  function Lines(s: File): seq<File>
    decreases |s|
  {
    if FirstLine(s) == |s| then [] else [s[..FirstLine(s)]] + Lines(s[FirstLine(s) + 1..])
  }

  lemma {:induction false} LinesJoin(a: File, b: File)
    requires AtLineStart(a, |a|)
    ensures Lines(a + b) == Lines(a) + Lines(b)
    decreases |a|
  {
    hide FirstLine, Lines, AtLineStart;
    if a == [] {
      assert a + b == b;
      UnfinishedLine(a);
    } else {
      var k := FirstLine(a);
      HasLine(a);
      FirstLineIs(a + b, k);
      var rest := a[k + 1..];
      assert (a + b)[k + 1..] == rest + b && (a + b)[..k] == a[..k];
      RestStarts(a, k);
      LinesJoin(rest, b);
      OneLine(a);
      OneLine(a + b);
    }
  }

  lemma OneLine(s: File)
    requires FirstLine(s) < |s|
    ensures Lines(s) == [s[..FirstLine(s)]] + Lines(s[FirstLine(s) + 1..])
  {
    hide FirstLine;
  }

  lemma HasLine(a: File)
    requires AtLineStart(a, |a|) && a != []
    ensures FirstLine(a) < |a|
  {
    hide FirstLine;
  }

  lemma RestStarts(a: File, k: nat)
    requires AtLineStart(a, |a|) && k < |a|
    ensures AtLineStart(a[k + 1..], |a[k + 1..]|)
  {
  }

  lemma {:induction false} FirstLineIs(s: File, k: nat)
    requires k < |s| && s[k] == NEWLINE && forall i :: 0 <= i < k ==> s[i] != NEWLINE
    ensures FirstLine(s) == k
  {
    if FirstLine(s) < k { assert s[FirstLine(s)] == NEWLINE; }
  }

  lemma UnfinishedLine(s: File)
    requires forall i :: 0 <= i < |s| ==> s[i] != NEWLINE
    ensures Lines(s) == []
  {
    if FirstLine(s) < |s| { assert s[FirstLine(s)] == NEWLINE; }
  }

  /** The complete part of a chunk has all its lines. */
  lemma CompleteLines(s: File)
    ensures Lines(s[..CompleteLen(s)]) == Lines(s)
  {
    var n := CompleteLen(s);
    assert s == s[..n] + s[n..];
    LinesJoin(s[..n], s[n..]);
    UnfinishedLine(s[n..]);
  }

  // ---- events ----

  predicate Blank(line: File) {
    forall i :: 0 <= i < |line| ==> line[i] in {9, 10, 11, 12, 13, 32}
  }

  function Projected(project: File -> seq<AgentEvent>, line: File): seq<AgentEvent> {
    if Blank(line) then [] else project(line)
  }

  function Events(project: File -> seq<AgentEvent>, lines: seq<File>): seq<AgentEvent> {
    if lines == [] then []
    else Events(project, lines[..|lines| - 1]) + Projected(project, lines[|lines| - 1])
  }

  lemma {:induction false} EventsJoin(project: File -> seq<AgentEvent>, a: seq<File>, b: seq<File>)
    ensures Events(project, a + b) == Events(project, a) + Events(project, b)
  {
    if b == [] {
      assert a + b == a;
    } else {
      assert (a + b)[..|a + b| - 1] == a + b[..|b| - 1];
      EventsJoin(project, a, b[..|b| - 1]);
    }
  }

  function Truthy(o: Option<string>): bool { o.Some? && o.value != "" }

  /** What one event does to the keys to be set. */
  function Note(u: Updates, e: AgentEvent): Updates {
    match e
    case Session(id, model) => u.(session := if Truthy(id) then id else u.session, model := model)
    case Text(text) => u.(lastText := Some(text))
    case Tool(_, _) => u
    case Outcome(_, _, _, session, _) => if Truthy(session) then u.(session := session) else u
  }

  function Notes(events: seq<AgentEvent>): Updates {
    if events == [] then NOTHING else Note(Notes(events[..|events| - 1]), events[|events| - 1])
  }

  /** The events that are stored: all but those that open a session. */
  function Stored(events: seq<AgentEvent>): seq<AgentEvent> {
    if events == [] then []
    else Stored(events[..|events| - 1]) + if events[|events| - 1].Session? then [] else [events[|events| - 1]]
  }

  function LastOutcome(events: seq<AgentEvent>): Option<AgentEvent> {
    if events == [] then None
    else if events[|events| - 1].Outcome? then Some(events[|events| - 1]) else LastOutcome(events[..|events| - 1])
  }

  function Or<T>(a: Option<T>, b: Option<T>): Option<T> { if a.Some? then a else b }

  function Apply(job: Job, u: Updates, offset: nat): Job {
    Job(offset, Or(u.session, job.session), Or(u.model, job.model), Or(u.lastText, job.lastText))
  }

  /** `append_events`: numbers go on from the lines that are there. */
  function AppendEvents(log: seq<Numbered>, events: seq<AgentEvent>): seq<Numbered> {
    log + seq(|events|, i requires 0 <= i < |events| => Numbered(|log| + i + 1, events[i]))
  }

  /** The whole of a job's state while its output is read; `result` is the monitor's own. */
  datatype Reading = Reading(job: Job, log: seq<Numbered>, result: Option<AgentEvent>)

  /** One `_drain` and the monitor's `result = found or result`, for the file as it is at that moment. */
  function Drained(project: File -> seq<AgentEvent>, r: Reading, file: Option<File>): Reading {
    if file.None? || |file.value| < r.job.offset then r else
    var chunk := file.value[r.job.offset..];
    var n := CompleteLen(chunk);
    if n == 0 then r else
    var events := Events(project, Lines(chunk[..n]));
    Reading(Apply(r.job, Notes(events), r.job.offset + n), AppendEvents(r.log, Stored(events)),
            Or(LastOutcome(events), r.result))
  }

  function DrainedAll(project: File -> seq<AgentEvent>, r: Reading, files: seq<Option<File>>): Reading {
    if files == [] then r else Drained(project, DrainedAll(project, r, files[..|files| - 1]), files[|files| - 1])
  }

  /** The file only grows, and once there it stays. */
  predicate Growing(files: seq<Option<File>>) {
    forall i, j :: 0 <= i < j < |files| && files[i].Some? ==> files[j].Some? && files[i].value <= files[j].value
  }

  function Latest(files: seq<Option<File>>): File {
    if files == [] || files[|files| - 1].None? then [] else files[|files| - 1].value
  }

  // ---- joining chunks ----

  lemma {:induction false} NotesJoin(a: seq<AgentEvent>, b: seq<AgentEvent>)
    ensures Notes(a + b).session == Or(Notes(b).session, Notes(a).session)
    ensures Notes(a + b).lastText == Or(Notes(b).lastText, Notes(a).lastText)
    ensures Stored(a + b) == Stored(a) + Stored(b)
    ensures LastOutcome(a + b) == Or(LastOutcome(b), LastOutcome(a))
  {
    if b == [] {
      assert a + b == a;
    } else {
      assert (a + b)[..|a + b| - 1] == a + b[..|b| - 1];
      NotesJoin(a, b[..|b| - 1]);
    }
  }

  lemma AppendTwice(log: seq<Numbered>, a: seq<AgentEvent>, b: seq<AgentEvent>)
    ensures AppendEvents(AppendEvents(log, a), b) == AppendEvents(log, a + b)
  {
  }

  lemma NothingToAppend(log: seq<Numbered>)
    ensures AppendEvents(log, []) == log
  {
  }

  /** What has been read of a file: its complete lines up to the offset, and everything about them but the model. */
  ghost predicate ReadSoFar(project: File -> seq<AgentEvent>, start: Reading, file: File, r: Reading) {
    && AtLineStart(file, r.job.offset)
    && var events := Events(project, Lines(file[..r.job.offset]));
    && r.log == AppendEvents(start.log, Stored(events))
    && r.result == Or(LastOutcome(events), start.result)
    && r.job.session == Or(Notes(events).session, start.job.session)
    && r.job.lastText == Or(Notes(events).lastText, start.job.lastText)
  }

  lemma DrainReads(project: File -> seq<AgentEvent>, start: Reading, file: File, r: Reading)
    requires ReadSoFar(project, start, file, r)
    ensures ReadSoFar(project, start, file, Drained(project, r, Some(file)))
    ensures Drained(project, r, Some(file)).job.offset == CompleteLen(file)
  {
    hide Notes, Stored, LastOutcome, Events, Lines, CompleteLen;
    var chunk := file[r.job.offset..];
    var n := CompleteLen(chunk);
    CompleteUnique(file, r.job.offset + n);
    if n > 0 {
      var done := file[..r.job.offset];
      assert file[..r.job.offset + n] == done + chunk[..n];
      assert AtLineStart(done, |done|);
      LinesJoin(done, chunk[..n]);
      EventsJoin(project, Lines(done), Lines(chunk[..n]));
      NotesJoin(Events(project, Lines(done)), Events(project, Lines(chunk[..n])));
      AppendTwice(start.log, Stored(Events(project, Lines(done))), Stored(Events(project, Lines(chunk[..n]))));
    }
  }

  lemma CompleteUnique(s: File, n: nat)
    requires AtLineStart(s, n) && forall i :: n <= i < |s| ==> s[i] != NEWLINE
    ensures CompleteLen(s) == n
  {
    hide CompleteLen;
  }

  lemma {:induction false} DrainsRead(project: File -> seq<AgentEvent>, start: Reading, files: seq<Option<File>>)
    requires Growing(files) && start.job.offset == 0
    ensures ReadSoFar(project, start, Latest(files), DrainedAll(project, start, files))
    ensures DrainedAll(project, start, files).job.offset == CompleteLen(Latest(files))
  {
    NothingToAppend(start.log);
    if files != [] {
      var before := files[..|files| - 1];
      var r := DrainedAll(project, start, before);
      DrainsRead(project, start, before);
      var now := files[|files| - 1];
      if now.Some? {
        assert Latest(before) <= now.value by {
          if before != [] && before[|before| - 1].Some? { assert files[|before| - 1].value <= now.value; }
        }
        assert now.value[..r.job.offset] == Latest(before)[..r.job.offset];
        DrainReads(project, start, now.value, r);
      } else if before != [] {
        assert files[|before| - 1].None?;
      }
    }
  }

  /** However a growing file is cut into reads, the events, their numbers, the offset, the session, the last text and
      the last result are those of one read of its last state. */
  lemma {:induction false} PiecesAgreeWithOnePass(project: File -> seq<AgentEvent>, start: Reading,
                                                  files: seq<Option<File>>)
    requires Growing(files) && start.job.offset == 0
    ensures var pieces := DrainedAll(project, start, files);
            var once := Drained(project, start, Some(Latest(files)));
            && pieces.log == once.log && pieces.result == once.result
            && pieces.job == once.job.(model := pieces.job.model)
            && pieces.log == AppendEvents(start.log, Stored(Events(project, Lines(Latest(files)))))
            && AtLineStart(Latest(files), pieces.job.offset)
  {
    DrainsRead(project, start, files);
    DrainsRead(project, start, [Some(Latest(files))]);
    assert [Some(Latest(files))][..0] == [];
    assert DrainedAll(project, start, []) == start;
    CompleteLines(Latest(files));
  }

  /** If the log was numbered 1 to n before, it still is. */
  lemma NumbersAreConsecutive(log: seq<Numbered>, events: seq<AgentEvent>)
    requires forall i :: 0 <= i < |log| ==> log[i].number == i + 1
    ensures forall i :: 0 <= i < |AppendEvents(log, events)| ==> AppendEvents(log, events)[i].number == i + 1
  {
  }

  // ---- what a drain stores, by the places of the events ----

  /** The session that an event names: an opening or an outcome with an id that is not empty. */
  function Naming(e: AgentEvent): Option<string> {
    match e
    case Session(id, _) => if id == Some("") then None else id
    case Outcome(_, _, _, session, _) => if session == Some("") then None else session
    case _ => None
  }

  predicate LastNaming(events: seq<AgentEvent>, i: int) {
    0 <= i < |events| && Naming(events[i]).Some? && forall j :: i < j < |events| ==> Naming(events[j]).None?
  }

  predicate LastText(events: seq<AgentEvent>, i: int) {
    0 <= i < |events| && events[i].Text? && forall j :: i < j < |events| ==> !events[j].Text?
  }

  predicate LastOpening(events: seq<AgentEvent>, i: int) {
    0 <= i < |events| && events[i].Session? && forall j :: i < j < |events| ==> !events[j].Session?
  }

  predicate LastResult(events: seq<AgentEvent>, i: int) {
    0 <= i < |events| && events[i].Outcome? && forall j :: i < j < |events| ==> !events[j].Outcome?
  }

  /** What the notes of some events say, event by event from the last one back. */
  ghost predicate NotedAt(events: seq<AgentEvent>, u: Updates, o: Option<AgentEvent>) {
    && (forall i :: LastNaming(events, i) ==> u.session == Naming(events[i]))
    && (forall i :: LastText(events, i) ==> u.lastText == Some(events[i].text))
    && (forall i :: LastOpening(events, i) ==> u.model == events[i].model)
    && (forall i :: LastResult(events, i) ==> o == Some(events[i]))
    && ((forall i :: 0 <= i < |events| ==> Naming(events[i]).None?) ==> u.session.None?)
    && ((forall i :: 0 <= i < |events| ==> !events[i].Text?) ==> u.lastText.None?)
    && ((forall i :: 0 <= i < |events| ==> !events[i].Session?) ==> u.model.None?)
    && ((forall i :: 0 <= i < |events| ==> !events[i].Outcome?) ==> o.None?)
  }

  lemma {:induction false} NotesAreByPlace(events: seq<AgentEvent>)
    ensures NotedAt(events, Notes(events), LastOutcome(events))
  {
    if events != [] {
      var init, last := events[..|events| - 1], events[|events| - 1];
      NotesAreByPlace(init);
      hide Notes, LastOutcome;
      assert events == init + [last];
      OneMore(init, last);
      NotedOneMore(init, last, Notes(init), LastOutcome(init));
    }
  }

  lemma NotedOneMore(init: seq<AgentEvent>, e: AgentEvent, u: Updates, o: Option<AgentEvent>)
    requires NotedAt(init, u, o)
    ensures NotedAt(init + [e], Note(u, e), if e.Outcome? then Some(e) else o)
  {
    var events := init + [e];
    forall i | LastNaming(events, i) && i < |init| ensures LastNaming(init, i) {
      forall j | i < j < |init| ensures Naming(init[j]).None? { assert init[j] == events[j]; }
    }
    forall i | LastText(events, i) && i < |init| ensures LastText(init, i) {
      forall j | i < j < |init| ensures !init[j].Text? { assert init[j] == events[j]; }
    }
    forall i | LastOpening(events, i) && i < |init| ensures LastOpening(init, i) {
      forall j | i < j < |init| ensures !init[j].Session? { assert init[j] == events[j]; }
    }
    forall i | LastResult(events, i) && i < |init| ensures LastResult(init, i) {
      forall j | i < j < |init| ensures !init[j].Outcome? { assert init[j] == events[j]; }
    }
    assert events[|init|] == e;
    forall i | 0 <= i < |init| ensures init[i] == events[i] {}
  }

  /** Joining what lines were split into gives the text back. */
  function Unsplit(lines: seq<File>): File {
    if lines == [] then [] else lines[0] + [NEWLINE] + Unsplit(lines[1..])
  }

  lemma {:induction false} LinesAreTheText(s: File)
    ensures Unsplit(Lines(s)) == s[..CompleteLen(s)]
    ensures forall i, j :: 0 <= i < |Lines(s)| && 0 <= j < |Lines(s)[i]| ==> Lines(s)[i][j] != NEWLINE
    decreases |s|
  {
    hide FirstLine, CompleteLen, Lines;
    var k := FirstLine(s);
    if k == |s| {
      UnfinishedLine(s);
      CompleteUnique(s, 0);
    } else {
      var rest := s[k + 1..];
      OneLine(s);
      LinesAreTheText(rest);
      CompleteUnique(s, k + 1 + CompleteLen(rest));
      assert s[..k + 1 + CompleteLen(rest)] == s[..k] + [NEWLINE] + rest[..CompleteLen(rest)];
      assert ([s[..k]] + Lines(rest))[1..] == Lines(rest);
    }
  }

  /** Event `i` is no opening, and so many events before it are stored. */
  predicate StoredAt(events: seq<AgentEvent>, i: int, k: int) {
    0 <= i < |events| && !events[i].Session? && |Stored(events[..i])| == k
  }

  ghost predicate HasSource(events: seq<AgentEvent>, k: int) {
    exists i :: StoredAt(events, i, k)
  }

  predicate SameEvent(events: seq<AgentEvent>, i: int, k: int) {
    0 <= i < |events| && 0 <= k < |Stored(events)| && Stored(events)[k] == events[i]
  }

  lemma StoredOneMore(events: seq<AgentEvent>, e: AgentEvent, i: int, k: int)
    ensures StoredAt(events + [e], i, k) <==>
      StoredAt(events, i, k) || (i == |events| && !e.Session? && |Stored(events)| == k)
    ensures SameEvent(events, i, k) || (i == |events| && !e.Session? && |Stored(events)| == k) ==>
      SameEvent(events + [e], i, k)
  {
    OneMore(events, e);
    hide Stored, Notes, LastOutcome;
    if 0 <= i <= |events| { assert (events + [e])[..i] == events[..i]; }
    assert events[..|events|] == events;
  }

  /** Every event but the openings is stored, once, behind those before it; and nothing else is. */
  lemma {:induction false} StoredInOrder(events: seq<AgentEvent>)
    ensures forall i, k :: StoredAt(events, i, k) ==> SameEvent(events, i, k)
    ensures forall k :: 0 <= k < |Stored(events)| ==> HasSource(events, k)
  {
    if events != [] {
      hide StoredAt, SameEvent, Stored, Notes, LastOutcome;
      var n := |events| - 1;
      var init, e := events[..n], events[n];
      StoredInOrder(init);
      assert events == init + [e];
      OneMore(init, e);
      forall i, k | StoredAt(events, i, k) ensures SameEvent(events, i, k) {
        StoredOneMore(init, e, i, k);
      }
      forall k | 0 <= k < |Stored(events)| ensures HasSource(events, k) {
        if k < |Stored(init)| {
          assert HasSource(init, k);
          var i :| StoredAt(init, i, k);
          StoredOneMore(init, e, i, k);
          assert StoredAt(events, i, k);
        } else {
          StoredOneMore(init, e, n, k);
          assert StoredAt(events, n, k);
        }
      }
    }
  }

  /** Numbered events go behind those that are there, which stay. */
  lemma AppendedInOrder(log: seq<Numbered>, events: seq<AgentEvent>)
    ensures var more := AppendEvents(log, events);
            && |more| == |log| + |events| && more[..|log|] == log
            && forall i :: 0 <= i < |events| ==> more[|log| + i] == Numbered(|log| + i + 1, events[i])
  {
  }

  /** One line projects to its events, a line of white space to none. */
  lemma EventsOfOneLine(project: File -> seq<AgentEvent>, line: File)
    ensures Events(project, [line]) ==
      if forall i :: 0 <= i < |line| ==> line[i] == 32 || 9 <= line[i] <= 13 then [] else project(line)
  {
    assert [line][..0] == [];
    assert Events(project, [line]) == Events(project, []) + Projected(project, line);
  }

  /** A drain of a file with complete new lines: what is stored in the job and in the log, by the places of the events. */
  lemma DrainMeans(project: File -> seq<AgentEvent>, r: Reading, file: File)
    requires r.job.offset <= |file|
    ensures var chunk := file[r.job.offset..];
            var events, next := Events(project, Lines(chunk)), Drained(project, r, Some(file));
            && next.job.offset == r.job.offset + CompleteLen(chunk)
            && next.log == AppendEvents(r.log, Stored(events))
            && (forall i :: LastNaming(events, i) ==> next.job.session == Naming(events[i]))
            && (forall i :: LastText(events, i) ==> next.job.lastText == Some(events[i].text))
            && (forall i :: LastOpening(events, i) && events[i].model.Some? ==> next.job.model == events[i].model)
            && (forall i :: LastOpening(events, i) && events[i].model.None? ==> next.job.model == r.job.model)
            && (forall i :: LastResult(events, i) ==> next.result == Some(events[i]))
            && ((forall i :: 0 <= i < |events| ==> Naming(events[i]).None?) ==> next.job.session == r.job.session)
            && ((forall i :: 0 <= i < |events| ==> !events[i].Text?) ==> next.job.lastText == r.job.lastText)
            && ((forall i :: 0 <= i < |events| ==> !events[i].Session?) ==> next.job.model == r.job.model)
            && ((forall i :: 0 <= i < |events| ==> !events[i].Outcome?) ==> next.result == r.result)
  {
    hide Notes, Stored, LastOutcome, Events, Lines, CompleteLen, Naming;
    var chunk := file[r.job.offset..];
    CompleteLines(chunk);
    NotesAreByPlace(Events(project, Lines(chunk)));
    NoEvents(project);
    NothingSeen();
    NothingToAppend(r.log);
    assert chunk[..0] == [];
  }

  /** A file that is not there, that has shrunk, or that has no complete new line leaves everything as it is. */
  lemma DrainWaits(project: File -> seq<AgentEvent>, r: Reading, file: Option<File>)
    requires file.None? || |file.value| < r.job.offset
             || forall i :: r.job.offset <= i < |file.value| ==> file.value[i] != NEWLINE
    ensures Drained(project, r, file) == r
  {
    hide Lines, Events;
    if file.Some? && r.job.offset <= |file.value| { CompleteUnique(file.value[r.job.offset..], 0); }
  }

  // ---- the model column ----

  predicate HasSession(events: seq<AgentEvent>) {
    exists i :: 0 <= i < |events| && events[i].Session?
  }

  function ModelAfter(m: Option<string>, chunk: seq<AgentEvent>): Option<string> {
    Or(Notes(chunk).model, m)
  }

  function ModelAfterAll(m: Option<string>, chunks: seq<seq<AgentEvent>>): Option<string> {
    if chunks == [] then m else ModelAfter(ModelAfterAll(m, chunks[..|chunks| - 1]), chunks[|chunks| - 1])
  }

  function Flat(chunks: seq<seq<AgentEvent>>): seq<AgentEvent> {
    if chunks == [] then [] else Flat(chunks[..|chunks| - 1]) + chunks[|chunks| - 1]
  }

  /** The last session event says which model it is, or no session event says anything new. */
  predicate ModelIsClear(m: Option<string>, events: seq<AgentEvent>) {
    Notes(events).model.Some?
    || forall i :: 0 <= i < |events| && events[i].Session? && events[i].model.Some? ==> events[i].model == m
  }

  lemma {:induction false} ModelNotesJoin(a: seq<AgentEvent>, b: seq<AgentEvent>)
    ensures Notes(a + b).model == if HasSession(b) then Notes(b).model else Notes(a).model
    ensures Notes(b).model.Some? ==> HasSession(b)
  {
    if b == [] {
      assert a + b == a;
    } else {
      var init := b[..|b| - 1];
      assert (a + b)[..|a + b| - 1] == a + init;
      ModelNotesJoin(a, init);
      assert b[|b| - 1].Session? || (HasSession(b) == HasSession(init)) by {
        if HasSession(init) { var i :| 0 <= i < |init| && init[i].Session?; assert b[i].Session?; }
        if HasSession(b) && !b[|b| - 1].Session? { var i :| 0 <= i < |b| && b[i].Session?; assert init[i].Session?; }
      }
    }
  }

  lemma {:induction false} ModelNoted(events: seq<AgentEvent>)
    requires Notes(events).model.Some?
    ensures exists i :: 0 <= i < |events| && events[i].Session? && events[i].model == Notes(events).model
  {
    if !events[|events| - 1].Session? {
      ModelNoted(events[..|events| - 1]);
      var i :| 0 <= i < |events| - 1 && events[i].Session? && events[i].model == Notes(events[..|events| - 1]).model;
    }
  }

  /** When the model is clear, every way of cutting the events gives it alike. */
  lemma {:induction false} ClearModelsAgree(m: Option<string>, chunks: seq<seq<AgentEvent>>)
    requires ModelIsClear(m, Flat(chunks))
    ensures ModelAfterAll(m, chunks) == ModelAfter(m, Flat(chunks))
  {
    if chunks != [] {
      var init, last := chunks[..|chunks| - 1], chunks[|chunks| - 1];
      ModelNotesJoin(Flat(init), last);
      if Notes(Flat(chunks)).model.Some? {
        if !HasSession(last) {
          ModelNotesJoin([], last);
          assert [] + last == last;
          ClearModelsAgree(m, init);
        }
      } else {
        forall i | 0 <= i < |Flat(init)| && Flat(init)[i].Session? && Flat(init)[i].model.Some?
          ensures Flat(init)[i].model == m
        {
          assert Flat(chunks)[i] == Flat(init)[i];
        }
        ClearModelsAgree(m, init);
        OldModels(m, Flat(init), last);
      }
    }
  }

  lemma OldModels(m: Option<string>, a: seq<AgentEvent>, b: seq<AgentEvent>)
    requires forall i :: 0 <= i < |a + b| && (a + b)[i].Session? && (a + b)[i].model.Some? ==> (a + b)[i].model == m
    ensures Notes(a).model.Some? ==> Notes(a).model == m
    ensures Notes(b).model.Some? ==> Notes(b).model == m
  {
    if Notes(a).model.Some? {
      ModelNoted(a);
      var i :| 0 <= i < |a| && a[i].Session? && a[i].model == Notes(a).model;
      assert (a + b)[i] == a[i];
    }
    if Notes(b).model.Some? {
      ModelNoted(b);
      var i :| 0 <= i < |b| && b[i].Session? && b[i].model == Notes(b).model;
      assert (a + b)[|a| + i] == b[i];
    }
  }

  /** When it is not, cutting right after a session event that carries a model gives another model than one read:
      the chunk-wise update drops the model when a later session event of the same chunk carries none. */
  lemma UnclearModelsDiffer(m: Option<string>, events: seq<AgentEvent>)
    requires !ModelIsClear(m, events)
    ensures exists k :: 0 <= k <= |events| && (k > 0 ==> events[k - 1].Session?)
                        && ModelAfterAll(m, [events[..k], events[k..]]) != ModelAfter(m, events)
  {
    var i :| 0 <= i < |events| && events[i].Session? && events[i].model.Some? && events[i].model != m;
    var a, b := events[..i + 1], events[i + 1..];
    assert a + b == events && a[..i] == events[..i];
    assert Notes(a).model == events[i].model;
    ModelNotesJoin(a, b);
    assert [a, b][..1] == [a] && [a][..0] == [];
    assert ModelAfterAll(m, [a]) == ModelAfter(ModelAfterAll(m, []), a);
    assert ModelAfterAll(m, [a, b]) == ModelAfter(ModelAfterAll(m, [a]), b);
  }

  /** The events of each read that found a complete line. */
  function Chunks(project: File -> seq<AgentEvent>, r: Reading, files: seq<Option<File>>): seq<seq<AgentEvent>> {
    if files == [] then [] else
    var before := DrainedAll(project, r, files[..|files| - 1]);
    var file := files[|files| - 1];
    Chunks(project, r, files[..|files| - 1])
      + if file.None? || |file.value| < before.job.offset then []
        else [Events(project, Lines(file.value[before.job.offset..][..CompleteLen(file.value[before.job.offset..])]))]
  }

  lemma NoEvents(project: File -> seq<AgentEvent>)
    ensures Events(project, Lines([])) == [] && Notes([]) == NOTHING
  {
    UnfinishedLine([]);
  }

  lemma ChunkGivesModel(project: File -> seq<AgentEvent>, m: Option<string>, file: File, r: Reading,
                        chunks: seq<seq<AgentEvent>>)
    requires AtLineStart(file, r.job.offset) && r.job.model == ModelAfterAll(m, chunks)
    requires Flat(chunks) == Events(project, Lines(file[..r.job.offset]))
    ensures var chunk := file[r.job.offset..];
            var more := chunks + [Events(project, Lines(chunk[..CompleteLen(chunk)]))];
            var next := Drained(project, r, Some(file));
            && next.job.model == ModelAfterAll(m, more) && next.job.offset <= |file|
            && Flat(more) == Events(project, Lines(file[..next.job.offset]))
  {
    hide Notes, Stored, LastOutcome, Events, Lines, CompleteLen;
    var done, chunk := file[..r.job.offset], file[r.job.offset..];
    var n := CompleteLen(chunk);
    var more := chunks + [Events(project, Lines(chunk[..n]))];
    assert more[..|more| - 1] == chunks;
    assert file[..r.job.offset + n] == done + chunk[..n];
    LinesJoin(done, chunk[..n]);
    EventsJoin(project, Lines(done), Lines(chunk[..n]));
    NoEvents(project);
    assert chunk[..0] == [];
  }

  lemma {:induction false} ChunksGiveModel(project: File -> seq<AgentEvent>, start: Reading, files: seq<Option<File>>)
    requires Growing(files) && start.job.offset == 0
    ensures var r := DrainedAll(project, start, files);
            && r.job.model == ModelAfterAll(start.job.model, Chunks(project, start, files))
            && r.job.offset <= |Latest(files)|
            && Flat(Chunks(project, start, files)) == Events(project, Lines(Latest(files)[..r.job.offset]))
  {
    hide Notes, Stored, LastOutcome, Events, Lines, CompleteLen, Drained;
    NoEvents(project);
    if files != [] {
      var before, now := files[..|files| - 1], files[|files| - 1];
      var r := DrainedAll(project, start, before);
      DrainsRead(project, start, before);
      ChunksGiveModel(project, start, before);
      if now.Some? {
        assert Latest(before) <= now.value by {
          if before != [] && before[|before| - 1].Some? { assert files[|before| - 1].value <= now.value; }
        }
        assert now.value[..r.job.offset] == Latest(before)[..r.job.offset];
        ChunkGivesModel(project, start.job.model, now.value, r, Chunks(project, start, before));
      } else {
        if before != [] { assert files[|before| - 1].None?; }
        NothingYet(project, r);
        assert Latest(before) == Latest(files) == [];
        assert Chunks(project, start, files) == Chunks(project, start, before) + [] == Chunks(project, start, before);
      }
    }
  }

  lemma NothingYet(project: File -> seq<AgentEvent>, r: Reading)
    ensures Drained(project, r, None) == r
  {
  }

  /** With a clear model, the model too is that of one read, so the whole reading is. */
  lemma PiecesAgreeOnTheModel(project: File -> seq<AgentEvent>, start: Reading, files: seq<Option<File>>)
    requires Growing(files) && start.job.offset == 0
    requires ModelIsClear(start.job.model, Events(project, Lines(Latest(files))))
    ensures DrainedAll(project, start, files) == Drained(project, start, Some(Latest(files)))
  {
    PiecesAgreeWithOnePass(project, start, files);
    DrainsRead(project, start, files);
    CompleteLines(Latest(files));
    ChunksGiveModel(project, start, files);
    ClearModelsAgree(start.job.model, Chunks(project, start, files));
    hide Notes, Stored, LastOutcome, Events, Lines, CompleteLen;
    NoEvents(project);
  }

  // ---- the tailing job itself ----

  lemma NothingSeen()
    ensures Notes([]) == NOTHING && Stored([]) == [] && LastOutcome([]) == None
  {
  }

  lemma OneMore(seen: seq<AgentEvent>, e: AgentEvent)
    ensures Notes(seen + [e]) == Note(Notes(seen), e)
    ensures Stored(seen + [e]) == Stored(seen) + if e.Session? then [] else [e]
    ensures LastOutcome(seen + [e]) == if e.Outcome? then Some(e) else LastOutcome(seen)
  {
    assert (seen + [e])[..|seen|] == seen;
  }

  lemma NoLines(project: File -> seq<AgentEvent>, lines: seq<File>)
    ensures Events(project, lines[..0]) == []
  {
  }

  lemma NextLine(project: File -> seq<AgentEvent>, lines: seq<File>, i: nat)
    requires i < |lines|
    ensures Events(project, lines[..i + 1]) == Events(project, lines[..i]) + Projected(project, lines[i])
  {
    assert lines[..i + 1][..i] == lines[..i];
  }

  class Tail {
    const project: File -> seq<AgentEvent>
    var job: Job
    var log: seq<Numbered>

    constructor (project: File -> seq<AgentEvent>, job: Job, log: seq<Numbered>)
      ensures this.project == project && this.job == job && this.log == log
    {
      this.project, this.job, this.log := project, job, log;
    }

    /** `_drain`: line by line and event by event over the complete part of what is new. */
    method Drain(file: Option<File>) returns (result: Option<AgentEvent>)
      modifies this
      ensures Reading(job, log, result) == Drained(project, Reading(old(job), old(log), None), file)
    {
      hide Lines, CompleteLen, Notes, Stored, LastOutcome, Events;
      result := None;
      NoEvents(project);
      NothingSeen();
      if file.None? || |file.value| < job.offset { return; }
      var chunk := file.value[job.offset..];
      var complete := chunk[..CompleteLen(chunk)];
      if complete == [] { return; }
      var updates, pending := NOTHING, [];
      var lines := Lines(complete);
      ghost var seen: seq<AgentEvent> := [];
      NoLines(project, lines);
      for i := 0 to |lines|
        invariant job == old(job) && log == old(log)
        invariant seen == Events(project, lines[..i])
        invariant updates == Notes(seen) && pending == Stored(seen) && result == LastOutcome(seen)
      {
        NextLine(project, lines, i);
        if Blank(lines[i]) { continue; }
        var events := project(lines[i]);
        ghost var before := seen;
        for j := 0 to |events|
          invariant job == old(job) && log == old(log)
          invariant seen == before + events[..j]
          invariant updates == Notes(seen) && pending == Stored(seen) && result == LastOutcome(seen)
        {
          var event := events[j];
          OneMore(seen, event);
          updates := Note(updates, event);
          if !event.Session? { pending := pending + [event]; }
          if event.Outcome? { result := Some(event); }
          seen := seen + [event];
        }
        assert events[..|events|] == events;
      }
      assert lines[..|lines|] == lines;
      log := AppendEvents(log, pending);
      job := Apply(job, updates, job.offset + |complete|);
    }

    /** `_monitor`: one drain for every poll; `files` are the states in which the polls find the output. */
    method Monitor(files: seq<Option<File>>) returns (result: Option<AgentEvent>)
      modifies this
      ensures Reading(job, log, result) == DrainedAll(project, Reading(old(job), old(log), None), files)
    {
      result := None;
      for i := 0 to |files|
        invariant Reading(job, log, result) == DrainedAll(project, Reading(old(job), old(log), None), files[..i])
      {
        assert files[..i + 1][..i] == files[..i];
        var found := Drain(files[i]);
        result := Or(found, result);
      }
      assert files[..|files|] == files;
    }
  }
}
