/** The incremental reader of the audit log (src/logs.rs): a tail which follows an
  * append-only file of newline-terminated records.
  */
module Logs {
  import opened Wrappers
  import opened Usage

  const NEWLINE: Byte := 10

  // ---- Lines of a byte string ----

  /** The newline-terminated lines of `bytes`, without their newlines. */
  function Lines(bytes: seq<Byte>): seq<seq<Byte>>
    decreases |bytes|
  {
    var i := FirstNewline(bytes);
    if i == |bytes| then [] else [bytes[..i]] + Lines(bytes[i + 1..])
  }

  /** The bytes after the last newline. */
  function Rest(bytes: seq<Byte>): seq<Byte>
    decreases |bytes|
  {
    var i := FirstNewline(bytes);
    if i == |bytes| then bytes else Rest(bytes[i + 1..])
  }

  function FirstNewline(bytes: seq<Byte>): (i: nat)
    ensures i <= |bytes| && (i < |bytes| ==> bytes[i] == NEWLINE)
    ensures forall j :: 0 <= j < i ==> bytes[j] != NEWLINE
  {
    NewlineFrom(bytes, 0)
  }

  function NewlineFrom(bytes: seq<Byte>, from: nat): (i: nat)
    requires from <= |bytes|
    ensures from <= i <= |bytes| && (i < |bytes| ==> bytes[i] == NEWLINE)
    ensures forall j :: from <= j < i ==> bytes[j] != NEWLINE
    decreases |bytes| - from
  {
    if from == |bytes| || bytes[from] == NEWLINE then from else NewlineFrom(bytes, from + 1)
  }

  function Terminated(lines: seq<seq<Byte>>): seq<Byte> {
    if lines == [] then [] else lines[0] + [NEWLINE] + Terminated(lines[1..])
  }

  lemma FirstLine(line: seq<Byte>, more: seq<Byte>)
    requires NEWLINE !in line
    ensures Lines(line + [NEWLINE] + more) == [line] + Lines(more)
    ensures Rest(line + [NEWLINE] + more) == Rest(more)
  {
    var text := line + [NEWLINE] + more;
    var i := FirstNewline(text);
    assert forall j :: 0 <= j < |line| ==> text[j] == line[j] && line[j] in line;
    assert text[|line|] == NEWLINE;
    assert i == |line|;
    assert text[..i] == line && text[i + 1..] == more;
  }

  lemma TerminatedCons(line: seq<Byte>, lines: seq<seq<Byte>>, rest: seq<Byte>, more: seq<Byte>)
    requires Terminated(lines) + rest == more
    ensures Terminated([line] + lines) + rest == line + [NEWLINE] + more
  {
    assert ([line] + lines)[1..] == lines;
    assert line + [NEWLINE] + Terminated(lines) + rest == line + [NEWLINE] + (Terminated(lines) + rest);
  }

  /** `Lines` and `Rest` cut a byte string at every newline ... */
  lemma {:induction false} LinesExact(bytes: seq<Byte>)
    ensures Terminated(Lines(bytes)) + Rest(bytes) == bytes
    decreases |bytes|
  {
    var i := FirstNewline(bytes);
    if i < |bytes| {
      var line, more := bytes[..i], bytes[i + 1..];
      LinesExact(more);
      TerminatedCons(line, Lines(more), Rest(more), more);
      CutLine(bytes, i);
      JoinAtNewline(bytes, i);
    } else {
      assert [] + bytes == bytes;
    }
  }

  lemma JoinAtNewline(bytes: seq<Byte>, i: nat)
    requires i < |bytes| && bytes[i] == NEWLINE
    ensures bytes[..i] + [NEWLINE] + bytes[i + 1..] == bytes
  {
  }

  lemma {:induction false} LinesHoldNoNewline(bytes: seq<Byte>)
    ensures NEWLINE !in Rest(bytes) && forall l <- Lines(bytes) :: NEWLINE !in l
    decreases |bytes|
  {
    var i := FirstNewline(bytes);
    if i < |bytes| {
      LinesHoldNoNewline(bytes[i + 1..]);
    }
  }

  /** ... and that is the only way to cut it. */
  lemma {:induction false} LinesUnique(lines: seq<seq<Byte>>, rest: seq<Byte>)
    requires NEWLINE !in rest && forall l <- lines :: NEWLINE !in l
    ensures Lines(Terminated(lines) + rest) == lines && Rest(Terminated(lines) + rest) == rest
    decreases |lines|
  {
    if lines == [] {
      assert Terminated(lines) + rest == rest;
      assert FirstNewline(rest) == |rest|;
    } else {
      var more := Terminated(lines[1..]) + rest;
      assert Terminated(lines) + rest == lines[0] + [NEWLINE] + more;
      FirstLine(lines[0], more);
      LinesUnique(lines[1..], rest);
    }
  }

  /** Reading on: only the unfinished line and the new bytes matter. */
  lemma {:induction false} LinesAppend(a: seq<Byte>, b: seq<Byte>)
    ensures Lines(a + b) == Lines(a) + Lines(Rest(a) + b)
    ensures Rest(a + b) == Rest(Rest(a) + b)
    decreases |a|
  {
    var i := FirstNewline(a);
    if i < |a| {
      var line, more := a[..i], a[i + 1..];
      assert a + b == line + [NEWLINE] + (more + b);
      FirstLine(line, more + b);
      LinesAppend(more, b);
    }
  }

  predicate Blank(line: seq<Byte>) {
    forall b <- line :: IsAsciiWhitespace(b)
  }

  /** Record parsing is a library call; it enters as a function value. */
  type Parser<Record> = seq<Byte> -> Option<Record>

  function Records<Record>(parse: Parser<Record>, lines: seq<seq<Byte>>): seq<Record> {
    if lines == [] then []
    else
      var more := Records(parse, lines[1..]);
      if Blank(lines[0]) || parse(lines[0]).None? then more else [parse(lines[0]).value] + more
  }

  function CountMalformed<Record>(parse: Parser<Record>, lines: seq<seq<Byte>>): nat {
    if lines == [] then 0
    else (if !Blank(lines[0]) && parse(lines[0]).None? then 1 else 0) + CountMalformed(parse, lines[1..])
  }

  lemma {:induction false} RecordsConcat<Record>(parse: Parser<Record>, a: seq<seq<Byte>>, b: seq<seq<Byte>>)
    ensures Records(parse, a + b) == Records(parse, a) + Records(parse, b)
    ensures CountMalformed(parse, a + b) == CountMalformed(parse, a) + CountMalformed(parse, b)
    decreases |a|
  {
    if a == [] {
      assert a + b == b;
    } else {
      assert (a + b)[0] == a[0] && (a + b)[1..] == a[1..] + b;
      RecordsConcat(parse, a[1..], b);
    }
  }

  /** A line holds something besides tabs, line feeds, form feeds, carriage returns and spaces. */
  predicate Written(line: seq<Byte>) { exists b <- line :: b != 9 && b != 10 && b != 12 && b != 13 && b != 32 }

  /** One more line adds its record at the end if it is one, counts as malformed if it is written
    * but no record, and else changes nothing. */
  lemma RecordsMore<Record>(parse: Parser<Record>, lines: seq<seq<Byte>>, line: seq<Byte>)
    ensures Records(parse, lines + [line])
         == Records(parse, lines) + (if Written(line) && parse(line).Some? then [parse(line).value] else [])
    ensures CountMalformed(parse, lines + [line])
         == CountMalformed(parse, lines) + (if Written(line) && parse(line).None? then 1 else 0)
  {
    RecordsConcat(parse, lines, [line]);
    assert Records(parse, [line][1..]) == [] && CountMalformed(parse, [line][1..]) == 0;
    assert Blank(line) <==> !Written(line);
  }

  /** Every nonblank line is accounted for once. */
  lemma {:induction false} EveryLineCounted<Record>(parse: Parser<Record>, lines: seq<seq<Byte>>)
    ensures |Records(parse, lines)| + CountMalformed(parse, lines) == CountNonblank(lines)
  {
    if lines != [] {
      EveryLineCounted(parse, lines[1..]);
    }
  }

  function CountNonblank(lines: seq<seq<Byte>>): nat {
    if lines == [] then 0 else (if Blank(lines[0]) then 0 else 1) + CountNonblank(lines[1..])
  }

  // ---- Polling ----

  type Inode = nat

  /** What the tail can see: the inode its path names now, and file contents (an
    * open file stays readable after its name is gone). */
  datatype FileSystem = FileSystem(path: Option<Inode>, files: map<Inode, seq<Byte>>)
  {
    predicate Valid() { path.Some? ==> path.value in files }
  }

  datatype Follower = Follower(file: Option<Inode>, offset: nat, partial: seq<Byte>, malformed: nat)
  datatype Appended<Record> = Appended(records: seq<Record>, restarted: bool)

  predicate CanPoll(f: Follower, fs: FileSystem) {
    fs.Valid() && (f.file.Some? ==> f.file.value in fs.files)
  }

  function Opened(f: Follower, inode: Inode): Follower {
    f.(file := Some(inode), offset := 0, partial := [])
  }

  /** Which file a poll reads, from where, and whether it noticed a restart. */
  function Reopen(f: Follower, fs: FileSystem): (Follower, bool)
    requires CanPoll(f, fs)
  {
    var replaced := f.file.Some? && fs.path.Some? && fs.path != f.file;
    var g := if (replaced || f.file.None?) && fs.path.Some? then Opened(f, fs.path.value) else f;
    if g.file.Some? && |fs.files[g.file.value]| < g.offset then (g.(offset := 0, partial := []), true)
    else (g, replaced)
  }

  function Poll<Record>(parse: Parser<Record>, f: Follower, fs: FileSystem): (Follower, Appended<Record>)
    requires CanPoll(f, fs)
  {
    var (g, restarted) := Reopen(f, fs);
    if g.file.None? then (g, Appended([], false))
    else
      var contents := fs.files[g.file.value];
      var buffer := g.partial + contents[g.offset..];
      (g.(offset := |contents|, partial := Rest(buffer), malformed := g.malformed + CountMalformed(parse, Lines(buffer))),
       Appended(Records(parse, Lines(buffer)), restarted))
  }

  class Tail<Record> {
    var file: Option<Inode>
    var offset: nat
    var partial: seq<Byte>
    var malformed: nat
    const parse: Parser<Record>

    function View(): Follower
      reads this
    {
      Follower(file, offset, partial, malformed)
    }

    constructor (parse: Parser<Record>)
      ensures View() == Follower(None, 0, [], 0) && this.parse == parse
    {
      this.parse := parse;
      file, offset, partial, malformed := None, 0, [], 0;
    }

    method PollOnce(fs: FileSystem) returns (appended: Appended<Record>)
      requires CanPoll(View(), fs)
      modifies this
      ensures View() == Poll(parse, old(View()), fs).0
      ensures appended == Poll(parse, old(View()), fs).1
    {
      var restarted := false;
      if file.Some? && fs.path.Some? && fs.path != file {
        file, offset, partial, restarted := fs.path, 0, [], true;
      }
      if file.None? {
        if fs.path.None? {
          return Appended([], false);
        }
        file, offset, partial := fs.path, 0, [];
      }
      var contents := fs.files[file.value];
      ghost var reopened := Reopen(old(View()), fs);
      if |contents| < offset {
        offset, partial, restarted := 0, [], true;
      }
      assert (View(), restarted) == reopened;
      var unread := contents[offset..];
      offset := offset + |unread|;
      partial := partial + unread;
      assert View() == reopened.0.(offset := |contents|, partial := reopened.0.partial + contents[reopened.0.offset..]);

      ghost var buffer := partial;
      var records := DrainLines();
      assert records == Records(parse, Lines(buffer));
      appended := Appended(records, restarted);
    }

    /** Parse and remove the finished lines of the buffer. */
    method DrainLines() returns (records: seq<Record>)
      modifies this
      ensures View() == old(View()).(partial := Rest(old(partial)),
                                     malformed := old(malformed) + CountMalformed(parse, Lines(old(partial))))
      ensures records == Records(parse, Lines(old(partial)))
    {
      records := [];
      ghost var (text, before) := (partial, malformed);
      ghost var (all, rest) := (Lines(text), Rest(text));
      ghost var (todo, suffix) := (all, text);
      var consumed: nat := 0;
      assert text[0..] == text;
      var index := FirstNewline(partial);
      while index < |partial| - consumed
        invariant partial == text && file == old(file) && offset == old(offset)
        invariant consumed <= |text| && suffix == text[consumed..] && index == FirstNewline(suffix)
        invariant todo == Lines(suffix) && Rest(suffix) == rest
        invariant before <= malformed && Drained(parse, all, todo, records, malformed - before)
        decreases |text| - consumed
      {
        var line := partial[consumed..consumed + index];
        ghost var (lines, done, count) := (todo, records, malformed - before);
        SliceOfSlice(text, consumed, index);
        todo, suffix := CutNext(suffix, index, line, text[consumed + index + 1..]);
        consumed := consumed + index + 1;
        index := FirstNewline(partial[consumed..]);
        if !Blank(line) {
          match parse(line) {
            case Some(record) => records := records + [record];
            case None => malformed := malformed + 1;
          }
        }
        DrainLine(parse, all, lines, line, todo, done, records, count, malformed - before);
      }
      NoLine(suffix);
      partial := partial[consumed..];
    }
  }

  lemma CutNext(suffix: seq<Byte>, index: nat, line: seq<Byte>, after: seq<Byte>) returns (more: seq<seq<Byte>>, next: seq<Byte>)
    requires index == FirstNewline(suffix) < |suffix| && line == suffix[..index] && after == suffix[index + 1..]
    ensures next == after && more == Lines(next) && Lines(suffix) == [line] + more && Rest(suffix) == Rest(next)
  {
    more, next := Lines(after), after;
    CutFirst(suffix, index, line, after, more);
    CutRest(suffix, index, after);
  }

  lemma NoLine(bytes: seq<Byte>)
    requires FirstNewline(bytes) == |bytes|
    ensures Lines(bytes) == [] && Rest(bytes) == bytes
  {
  }

  /** The lines not in `todo` are parsed or counted. */
  predicate Drained<Record(==)>(parse: Parser<Record>, all: seq<seq<Byte>>, todo: seq<seq<Byte>>, records: seq<Record>, count: nat) {
    && records + Records(parse, todo) == Records(parse, all)
    && count + CountMalformed(parse, todo) == CountMalformed(parse, all)
  }

  lemma DrainLine<Record>(parse: Parser<Record>, all: seq<seq<Byte>>, lines: seq<seq<Byte>>, line: seq<Byte>, more: seq<seq<Byte>>,
                          records: seq<Record>, records': seq<Record>, count: nat, count': nat)
    requires Drained(parse, all, lines, records, count) && lines == [line] + more
    requires records' == if Blank(line) || parse(line).None? then records else records + [parse(line).value]
    requires count' == if Blank(line) || parse(line).Some? then count else count + 1
    ensures Drained(parse, all, more, records', count')
  {
    LineCounted(parse, line, more);
  }

  lemma CutLine(bytes: seq<Byte>, i: nat)
    requires i == FirstNewline(bytes) < |bytes|
    ensures Lines(bytes) == [bytes[..i]] + Lines(bytes[i + 1..]) && Rest(bytes) == Rest(bytes[i + 1..])
  {
    CutFirst(bytes, i, bytes[..i], bytes[i + 1..], Lines(bytes[i + 1..]));
    CutRest(bytes, i, bytes[i + 1..]);
  }

  lemma CutFirst(bytes: seq<Byte>, i: nat, line: seq<Byte>, after: seq<Byte>, more: seq<seq<Byte>>)
    requires i == FirstNewline(bytes) < |bytes| && line == bytes[..i] && after == bytes[i + 1..] && more == Lines(after)
    ensures Lines(bytes) == [line] + more
  {
  }

  lemma CutRest(bytes: seq<Byte>, i: nat, after: seq<Byte>)
    requires i == FirstNewline(bytes) < |bytes| && after == bytes[i + 1..]
    ensures Rest(bytes) == Rest(after)
  {
  }

  lemma SliceOfSlice(text: seq<Byte>, from: nat, i: nat)
    requires from + i < |text|
    ensures text[from..][..i] == text[from..from + i] && text[from..][i + 1..] == text[from + i + 1..]
  {
  }

  lemma LineCounted<Record>(parse: Parser<Record>, line: seq<Byte>, more: seq<seq<Byte>>)
    ensures Records(parse, [line] + more)
         == (if Blank(line) || parse(line).None? then [] else [parse(line).value]) + Records(parse, more)
    ensures CountMalformed(parse, [line] + more)
         == (if !Blank(line) && parse(line).None? then 1 else 0) + CountMalformed(parse, more)
  {
    assert ([line] + more)[1..] == more;
  }

  // ---- Runs of the tail ----

  /** The tail holds exactly the bytes of `read`: it has emitted `emitted` and
    * counted `bad` malformed lines from them. */
  predicate Follows<Record(==)>(parse: Parser<Record>, f: Follower, read: seq<Byte>, emitted: seq<Record>, bad: nat) {
    && f.file.Some?
    && f.offset == |read|
    && f.partial == Rest(read)
    && emitted == Records(parse, Lines(read))
    && bad == CountMalformed(parse, Lines(read))
  }

  /** The file the tail reads in `fs`. */
  function Contents(f: Follower, fs: FileSystem): seq<Byte>
    requires CanPoll(f, fs)
  {
    var (g, _) := Reopen(f, fs);
    if g.file.Some? then fs.files[g.file.value] else []
  }

  lemma ContinuesExactly(read: seq<Byte>, contents: seq<Byte>)
    requires |read| <= |contents|
    ensures read + contents[|read|..] == contents <==> read <= contents
  {
    assert (read + contents[|read|..])[..|read|] == read;
  }

  /** A poll which noticed no restart reads on exactly where it stopped ... */
  lemma PollContinues<Record>(parse: Parser<Record>, f: Follower, fs: FileSystem, read: seq<Byte>, emitted: seq<Record>, bad: nat)
    requires CanPoll(f, fs) && Follows(parse, f, read, emitted, bad) && !Poll(parse, f, fs).1.restarted
    ensures |read| <= |Contents(f, fs)|
    ensures var (g, appended) := Poll(parse, f, fs);
            Follows(parse, g, read + Contents(f, fs)[|read|..], emitted + appended.records, bad + (g.malformed - f.malformed))
  {
    var more := Contents(f, fs)[|read|..];
    LinesAppend(read, more);
    RecordsConcat(parse, Lines(read), Lines(Rest(read) + more));
  }

  /** ... so that it has read the whole file if that was only appended to. */
  lemma PollReadsOn<Record>(parse: Parser<Record>, f: Follower, fs: FileSystem, read: seq<Byte>, emitted: seq<Record>, bad: nat)
    requires CanPoll(f, fs) && Follows(parse, f, read, emitted, bad)
    requires read <= Contents(f, fs) && !Poll(parse, f, fs).1.restarted
    ensures var (g, appended) := Poll(parse, f, fs);
            Follows(parse, g, Contents(f, fs), emitted + appended.records, bad + (g.malformed - f.malformed))
  {
    PollContinues(parse, f, fs, read, emitted, bad);
    ContinuesExactly(read, Contents(f, fs));
  }

  /** A poll which noticed a restart, or opened the file, starts over on its contents.
    * The malformed count is the one thing it does not reset. */
  lemma PollStartsOver<Record>(parse: Parser<Record>, f: Follower, fs: FileSystem)
    requires CanPoll(f, fs) && (f.file.None? ==> fs.path.Some?)
    requires f.file.None? || Poll(parse, f, fs).1.restarted
    ensures var (g, appended) := Poll(parse, f, fs);
            Follows(parse, g, Contents(f, fs), appended.records, g.malformed - f.malformed)
  {
    var contents := Contents(f, fs);
    assert [] + contents[0..] == contents;
  }

  /** A restart is noticed exactly if the path names another file or the file is
    * shorter than what was read. */
  lemma RestartNoticed<Record>(parse: Parser<Record>, f: Follower, fs: FileSystem)
    requires CanPoll(f, fs) && f.file.Some?
    ensures Poll(parse, f, fs).1.restarted
       <==> (fs.path.Some? && fs.path != f.file) || |fs.files[f.file.value]| < f.offset
  {
  }

  /** The bytes a tail stands for after a poll: what it had read and what the file has from
    * there on, or after a restart it noticed the whole file. */
  function Followed<Record>(parse: Parser<Record>, f: Follower, fs: FileSystem, read: seq<Byte>): seq<Byte>
    requires CanPoll(f, fs) && (Poll(parse, f, fs).1.restarted || |read| <= |Contents(f, fs)|)
  {
    if Poll(parse, f, fs).1.restarted then Contents(f, fs) else read + Contents(f, fs)[|read|..]
  }

  /** After any poll the tail stands for those bytes, and they are the file's contents if
    * and only if it noticed a restart or what it had read is still there. */
  lemma FollowsExactly<Record>(parse: Parser<Record>, f: Follower, fs: FileSystem, read: seq<Byte>, emitted: seq<Record>, bad: nat)
    requires CanPoll(f, fs) && Follows(parse, f, read, emitted, bad)
    ensures Poll(parse, f, fs).1.restarted || |read| <= |Contents(f, fs)|
    ensures var (g, appended) := Poll(parse, f, fs);
            && Follows(parse, g, Followed(parse, f, fs, read),
                       (if appended.restarted then [] else emitted) + appended.records,
                       (if appended.restarted then 0 else bad) + (g.malformed - f.malformed))
            && (Followed(parse, f, fs, read) == Contents(f, fs) <==> appended.restarted || read <= Contents(f, fs))
  {
    if Poll(parse, f, fs).1.restarted {
      PollStartsOver(parse, f, fs);
      assert [] + Poll(parse, f, fs).1.records == Poll(parse, f, fs).1.records;
    } else {
      PollContinues(parse, f, fs, read, emitted, bad);
      ContinuesExactly(read, Contents(f, fs));
    }
  }

  /** A regrown file does break the correspondence: having read `ab`, the tail of
    * `xy` and a newline is taken for a blank line. */
  lemma RegrownFileMisread<Record>(parse: Parser<Record>) returns (f: Follower, fs: FileSystem)
    requires parse([120, 121]).Some?
    ensures CanPoll(f, fs) && Follows(parse, f, [97, 98, NEWLINE], Records(parse, Lines([97, 98, NEWLINE])), CountMalformed(parse, Lines([97, 98, NEWLINE])))
    ensures Contents(f, fs) == [120, 121, NEWLINE, NEWLINE] && |Records(parse, Lines(Contents(f, fs)))| == 1
    ensures Poll(parse, f, fs).1 == Appended([], false)
  {
    var before, after := [97, 98, NEWLINE], [120, 121, NEWLINE, NEWLINE];
    f := Follower(Some(0), 3, [], 0);
    fs := FileSystem(Some(0), map[0 := after]);
    OneLine([97, 98]);
    assert [97, 98] + [NEWLINE] == before;
    OneLine([]);
    assert [] + [NEWLINE] == [] + after[3..] == [NEWLINE];
    assert Records(parse, [[]]) == [] && CountMalformed(parse, [[]]) == 0;
    TwoLines(parse, after);
  }

  lemma OneLine(line: seq<Byte>)
    requires NEWLINE !in line
    ensures Lines(line + [NEWLINE]) == [line] && Rest(line + [NEWLINE]) == []
  {
    FirstLine(line, []);
    assert line + [NEWLINE] + [] == line + [NEWLINE] && Lines([]) == [] && Rest([]) == [];
  }

  lemma TwoLines<Record>(parse: Parser<Record>, after: seq<Byte>)
    requires after == [120, 121, NEWLINE, NEWLINE] && parse([120, 121]).Some?
    ensures |Records(parse, Lines(after))| == 1
  {
    OneLine([]);
    assert [] + [NEWLINE] == [NEWLINE];
    FirstLine([120, 121], [NEWLINE]);
    assert [120, 121] + [NEWLINE] + [NEWLINE] == after;
    assert 120 in [120, 121] && !IsAsciiWhitespace(120);
    LineCounted(parse, [120, 121], [[]]);
    assert Records(parse, [[]]) == [];
  }

  // ---- A file that only grows ----

  datatype Event = Append(bytes: seq<Byte>) | PollNow

  datatype Session<Record> = Session(follower: Follower, contents: seq<Byte>, emitted: seq<Record>)

  function OneFile(contents: seq<Byte>): FileSystem { FileSystem(Some(0), map[0 := contents]) }

  predicate Sane<Record>(s: Session<Record>) { s.follower.file.Some? ==> s.follower.file == Some(0) }

  function StepSession<Record>(parse: Parser<Record>, s: Session<Record>, e: Event): (r: Session<Record>)
    requires Sane(s)
    ensures Sane(r)
  {
    match e
    case Append(bytes) => s.(contents := s.contents + bytes)
    case PollNow =>
      var (g, appended) := Poll(parse, s.follower, OneFile(s.contents));
      Session(g, s.contents, s.emitted + appended.records)
  }

  function RunSession<Record>(parse: Parser<Record>, s: Session<Record>, events: seq<Event>): (r: Session<Record>)
    requires Sane(s)
    ensures Sane(r)
    decreases |events|
  {
    if events == [] then s
    else StepSession(parse, RunSession(parse, s, events[..|events| - 1]), events[|events| - 1])
  }

  /** Any run of appends and polls: what was emitted, what was counted malformed and
    * what is held back are those of one read of a prefix of the file, and of the
    * whole file right after a poll. */
  lemma {:induction false} TailEqualsFullRead<Record>(parse: Parser<Record>, contents: seq<Byte>, events: seq<Event>)
    returns (read: seq<Byte>)
    ensures var s := RunSession(parse, Session(Follower(None, 0, [], 0), contents, []), events);
            && read <= s.contents
            && s.emitted == Records(parse, Lines(read))
            && s.follower.malformed == CountMalformed(parse, Lines(read))
            && s.follower.partial == Rest(read) && s.follower.offset == |read|
            && (events != [] && events[|events| - 1].PollNow? ==> read == s.contents && s.follower.file.Some?)
            && (s.follower.file.None? ==> read == [])
    decreases |events|
  {
    var start := Session(Follower(None, 0, [], 0), contents, []);
    if events == [] {
      read := [];
      assert FirstNewline([]) == 0;
    } else {
      read := TailEqualsFullRead(parse, contents, events[..|events| - 1]);
      var s := RunSession(parse, start, events[..|events| - 1]);
      if events[|events| - 1].PollNow? {
        var fs := OneFile(s.contents);
        if s.follower.file.None? {
          PollStartsOver(parse, s.follower, fs);
          assert s.emitted + Poll(parse, s.follower, fs).1.records == Poll(parse, s.follower, fs).1.records;
        } else {
          RestartNoticed(parse, s.follower, fs);
          PollReadsOn(parse, s.follower, fs, read, s.emitted, s.follower.malformed);
        }
        read := s.contents;
      }
    }
  }
}
