/** The persisted log of each service: two files, of which the newer is rotated onto the older when it
 *  would grow past the limit, and once when the sink first touches it.
 *
 *  A service has a file of its own; renames and appends succeed. */
module LogSinks {
  import opened Options

  type Name = string

  /** A line with its timestamp, and the bytes it takes in the file. */
  datatype Entry = Entry(line: string, bytes: nat)

  type File = seq<Entry>

  datatype Disk = Disk(logs: map<Name, File>, prevs: map<Name, File>)

  /** What the sink remembers of the services it has written for. */
  datatype Memory = Memory(streams: set<Name>, seen: set<Name>, bytesWritten: map<Name, nat>)

  datatype Sink = Sink(maxLogBytes: nat, rotateOnStart: bool, closed: bool, memory: Memory, disk: Disk)

  function Size(file: File): nat {
    if file == [] then 0 else Size(file[..|file| - 1]) + file[|file| - 1].bytes
  }

  function LogOf(d: Disk, n: Name): File {
    if n in d.logs then d.logs[n] else []
  }

  function PrevOf(d: Disk, n: Name): File {
    if n in d.prevs then d.prevs[n] else []
  }

  /** The `.log` file, if it exists, becomes the `.prev` file. */
  function Renamed(d: Disk, n: Name): Disk {
    if n in d.logs then Disk(d.logs - {n}, d.prevs[n := d.logs[n]]) else d
  }

  function Appended(d: Disk, n: Name, e: Entry): Disk {
    d.(logs := d.logs[n := LogOf(d, n) + [e]])
  }

  /** rotateFile. */
  function Rotate(s: Sink, n: Name): Sink {
    s.(memory := s.memory.(streams := s.memory.streams - {n}, bytesWritten := s.memory.bytesWritten[n := 0]),
       disk := Renamed(s.disk, n))
  }

  /** streamFor: the file is open afterwards, and rotated if this sink had not seen it yet. */
  function StreamFor(s: Sink, n: Name): Sink {
    if n in s.memory.streams then s
    else
      var d := if s.rotateOnStart && n !in s.memory.seen then Renamed(s.disk, n) else s.disk;
      s.(memory := s.memory.(streams := s.memory.streams + {n}, seen := s.memory.seen + {n}),
         disk := d.(logs := d.logs[n := LogOf(d, n)]))
  }

  function CurrentSize(s: Sink, n: Name): nat {
    if n in s.memory.bytesWritten then s.memory.bytesWritten[n] else Size(LogOf(s.disk, n))
  }

  function AfterWrite(s: Sink, n: Name, e: Entry): Sink {
    if s.closed then s
    else
      var s1 := StreamFor(if CurrentSize(s, n) + e.bytes > s.maxLogBytes then Rotate(s, n) else s, n);
      var counted := if n in s1.memory.bytesWritten then s1.memory.bytesWritten[n] else 0;
      s1.(disk := Appended(s1.disk, n, e),
          memory := s1.memory.(bytesWritten := s1.memory.bytesWritten[n := counted + e.bytes]))
  }

  function AfterClose(s: Sink): Sink {
    s.(closed := true, memory := Memory({}, {}, map[]))
  }

  /** One entry for one service. */
  datatype Note = Note(name: Name, entry: Entry)

  function WriteAll(s: Sink, notes: seq<Note>): Sink {
    if notes == [] then s
    else AfterWrite(WriteAll(s, notes[..|notes| - 1]), notes[|notes| - 1].name, notes[|notes| - 1].entry)
  }

  /** What the notes say for one service, in order. */
  function For(notes: seq<Note>, n: Name): File {
    if notes == [] then []
    else For(notes[..|notes| - 1], n) + if notes[|notes| - 1].name == n then [notes[|notes| - 1].entry] else []
  }

  // ---------------------------------------------------------------- what a sink keeps

  /** A sink that has just been constructed over whatever earlier sessions left on disk. */
  predicate New(s: Sink) {
    !s.closed && s.memory == Memory({}, {}, map[])
  }

  predicate EndsWith(whole: File, part: File) {
    |part| <= |whole| && whole[|whole| - |part|..] == part
  }

  lemma EndOfEnd(whole: File, part: File, e: Entry)
    requires EndsWith(whole, part)
    ensures EndsWith(whole + [e], part + [e])
  {
    var w := whole + [e];
    assert w[|w| - |part + [e]|..] == whole[|whole| - |part|..] + [e];
  }

  lemma EndOfSum(whole: File, a: File, b: File)
    requires EndsWith(whole, a + b)
    ensures EndsWith(whole, b)
  {
    var k := |whole| - |a + b|;
    assert whole[|whole| - |b|..] == whole[k..][|a|..];
    assert (a + b)[|a|..] == b;
  }

  lemma SizeAppend(f: File, e: Entry)
    ensures Size(f + [e]) == Size(f) + e.bytes
  {
    assert (f + [e])[..|f|] == f;
  }

  /** The sink remembers a service once it has written for it; then its counter is the size of the
   *  current file, and that size is within the limit unless the file is one entry. */
  ghost predicate Counted(s: Sink, n: Name) {
    && (n in s.memory.streams <==> n in s.memory.seen)
    && (n in s.memory.bytesWritten <==> n in s.memory.seen)
    && (n in s.memory.seen ==>
          && n in s.disk.logs && s.memory.bytesWritten[n] == Size(s.disk.logs[n])
          && |s.disk.logs[n]| > 0
          && (Size(s.disk.logs[n]) <= s.maxLogBytes || |s.disk.logs[n]| == 1))
  }

  /** `history` is everything ever written for the service; the two files hold the end of it. */
  ghost predicate HoldsTheEnd(s: Sink, n: Name, history: File) {
    EndsWith(history, PrevOf(s.disk, n) + LogOf(s.disk, n))
  }

  /** A write for another service does not touch this one. */
  lemma WriteElsewhere(s: Sink, m: Name, e: Entry, n: Name)
    requires m != n
    ensures var s' := AfterWrite(s, m, e);
            && LogOf(s'.disk, n) == LogOf(s.disk, n) && PrevOf(s'.disk, n) == PrevOf(s.disk, n)
            && (n in s'.disk.logs <==> n in s.disk.logs)
            && (n in s'.memory.seen <==> n in s.memory.seen) && (n in s'.memory.streams <==> n in s.memory.streams)
            && (n in s'.memory.bytesWritten <==> n in s.memory.bytesWritten)
            && (n in s.memory.bytesWritten ==> s'.memory.bytesWritten[n] == s.memory.bytesWritten[n])
  {}

  /** Whether the entry goes into the file that is there. */
  predicate Fits(s: Sink, n: Name, e: Entry) {
    n in s.memory.seen && Size(LogOf(s.disk, n)) + e.bytes <= s.maxLogBytes
  }

  lemma WriteHere(s: Sink, n: Name, e: Entry)
    requires !s.closed && s.rotateOnStart && Counted(s, n)
    ensures var s' := AfterWrite(s, n, e);
            && n in s'.memory.seen && n in s'.memory.streams && n in s'.memory.bytesWritten && n in s'.disk.logs
            && (Fits(s, n, e) ==>
                  && LogOf(s'.disk, n) == LogOf(s.disk, n) + [e] && PrevOf(s'.disk, n) == PrevOf(s.disk, n)
                  && s'.memory.bytesWritten[n] == s.memory.bytesWritten[n] + e.bytes)
            && (!Fits(s, n, e) ==>
                  && LogOf(s'.disk, n) == [e] && s'.memory.bytesWritten[n] == e.bytes
                  && PrevOf(s'.disk, n) == if n in s.disk.logs then LogOf(s.disk, n) else PrevOf(s.disk, n))
  {
    assert [] + [e] == [e];
  }

  lemma WriteKeepsCount(s: Sink, m: Name, e: Entry, n: Name)
    requires !s.closed && s.rotateOnStart && Counted(s, n)
    ensures Counted(AfterWrite(s, m, e), n)
  {
    if m == n {
      WriteHere(s, n, e);
      hide AfterWrite;
      SizeAppend(LogOf(s.disk, n), e);
      SizeAppend([], e);
      assert [] + [e] == [e];
    } else {
      WriteElsewhere(s, m, e, n);
      hide AfterWrite;
    }
  }

  lemma EndWhenItFits(history: File, prev: File, log: File, e: Entry)
    requires EndsWith(history, prev + log)
    ensures EndsWith(history + [e], prev + (log + [e]))
  {
    EndOfEnd(history, prev + log, e);
    assert prev + log + [e] == prev + (log + [e]);
  }

  lemma EndWhenRotated(history: File, prev: File, log: File, e: Entry)
    requires EndsWith(history, prev + log)
    ensures EndsWith(history + [e], log + [e])
  {
    EndOfSum(history, prev, log);
    EndOfEnd(history, log, e);
  }

  /** Where the files of the service go: the entry is behind them, or behind the one that was current. */
  predicate GoesBehind(d: Disk, d': Disk, n: Name, e: Entry) {
    || (LogOf(d', n) == LogOf(d, n) + [e] && PrevOf(d', n) == PrevOf(d, n))
    || (LogOf(d', n) == [e] && PrevOf(d', n) == if n in d.logs then LogOf(d, n) else PrevOf(d, n))
  }

  lemma AnyWriteGoesBehind(s: Sink, n: Name, e: Entry)
    requires !s.closed
    ensures GoesBehind(s.disk, AfterWrite(s, n, e).disk, n, e)
  {
    assert [] + [e] == [e];
    hide Size;
  }

  lemma WriteKeepsEnd(s: Sink, m: Name, e: Entry, n: Name, history: File)
    requires !s.closed && HoldsTheEnd(s, n, history)
    ensures HoldsTheEnd(AfterWrite(s, m, e), n, if m == n then history + [e] else history)
  {
    var prev, log := PrevOf(s.disk, n), LogOf(s.disk, n);
    if m == n {
      AnyWriteGoesBehind(s, n, e);
      EndWhenItFits(history, prev, log, e);
      EndWhenRotated(history, prev, log, e);
      if n !in s.disk.logs { assert prev + (log + [e]) == prev + [e]; }
    } else {
      WriteElsewhere(s, m, e, n);
    }
    hide AfterWrite, EndsWith, LogOf, PrevOf, Size;
  }

  lemma WriteKeepsSettings(s: Sink, m: Name, e: Entry)
    ensures var s' := AfterWrite(s, m, e);
            s'.closed == s.closed && s'.rotateOnStart == s.rotateOnStart && s'.maxLogBytes == s.maxLogBytes
  {}

  lemma {:induction false} WriteAllKeepsCount(s: Sink, notes: seq<Note>, n: Name)
    requires New(s) && s.rotateOnStart
    ensures var f := WriteAll(s, notes);
            !f.closed && f.rotateOnStart && f.maxLogBytes == s.maxLogBytes && Counted(f, n)
  {
    if notes != [] {
      var init, last := notes[..|notes| - 1], notes[|notes| - 1];
      hide AfterWrite, Counted;
      WriteAllKeepsCount(s, init, n);
      WriteKeepsSettings(WriteAll(s, init), last.name, last.entry);
      WriteKeepsCount(WriteAll(s, init), last.name, last.entry, n);
    }
  }

  lemma ForOneMore(before: File, notes: seq<Note>, n: Name)
    requires notes != []
    ensures var init, last := notes[..|notes| - 1], notes[|notes| - 1];
            before + For(notes, n)
            == if last.name == n then before + For(init, n) + [last.entry] else before + For(init, n)
  {}

  lemma {:induction false} WriteAllKeepsEnd(s: Sink, notes: seq<Note>, n: Name, before: File)
    requires New(s) && HoldsTheEnd(s, n, before)
    ensures HoldsTheEnd(WriteAll(s, notes), n, before + For(notes, n)) && !WriteAll(s, notes).closed
  {
    if notes == [] {
      assert before + [] == before;
    } else {
      var init, last := notes[..|notes| - 1], notes[|notes| - 1];
      WriteAllKeepsEnd(s, init, n, before);
      var f := WriteAll(s, init);
      ForOneMore(before, notes, n);
      hide HoldsTheEnd, AfterWrite, For;
      WriteKeepsSettings(f, last.name, last.entry);
      WriteKeepsEnd(f, last.name, last.entry, n, before + For(init, n));
    }
  }

  /** Whatever is written through a sink, rotating at its start or not: `.prev` followed by `.log` is a contiguous
   *  end of everything ever written for the service.  If it does rotate at its start, the byte counter is the size
   *  of the current file, and that size is at most the limit or, if larger, that of its last entry. */
  lemma FilesHoldTheEnd(s: Sink, notes: seq<Note>, n: Name)
    requires New(s)
    ensures var f := WriteAll(s, notes);
            && EndsWith(PrevOf(s.disk, n) + LogOf(s.disk, n) + For(notes, n), PrevOf(f.disk, n) + LogOf(f.disk, n))
            && (s.rotateOnStart && For(notes, n) != [] ==>
                  && n in f.memory.bytesWritten && n in f.disk.logs && f.disk.logs[n] != []
                  && f.memory.bytesWritten[n] == Size(f.disk.logs[n])
                  && var last := f.disk.logs[n][|f.disk.logs[n]| - 1];
                     Size(f.disk.logs[n]) <= if last.bytes > s.maxLogBytes then last.bytes else s.maxLogBytes)
  {
    WriteAllKeepsEnd(s, notes, n, PrevOf(s.disk, n) + LogOf(s.disk, n));
    var f := WriteAll(s, notes);
    if s.rotateOnStart && For(notes, n) != [] {
      WriteAllKeepsCount(s, notes, n);
      WrittenIsSeen(s, notes, n);
      assert |f.disk.logs[n]| == 1 ==> Size(f.disk.logs[n]) == f.disk.logs[n][0].bytes by {
        if |f.disk.logs[n]| == 1 { assert f.disk.logs[n][..0] == []; }
      }
    }
  }

  lemma {:induction false} WrittenIsSeen(s: Sink, notes: seq<Note>, n: Name)
    requires New(s) && s.rotateOnStart
    ensures n in WriteAll(s, notes).memory.seen <==> For(notes, n) != []
  {
    if notes != [] {
      var init, last := notes[..|notes| - 1], notes[|notes| - 1];
      WrittenIsSeen(s, init, n);
      WriteAllKeepsCount(s, init, n);
      WriteAllKeepsCount(s, init, last.name);
    }
  }

  /** A write that did not fit opened a new file: what the old file held is then in `.prev`. */
  lemma RotationKeepsTheFile(s: Sink, n: Name, e: Entry)
    requires !s.closed && s.rotateOnStart && Counted(s, n) && n in s.memory.seen
    ensures var s' := AfterWrite(s, n, e);
            if Size(LogOf(s.disk, n)) + e.bytes > s.maxLogBytes
            then PrevOf(s'.disk, n) == LogOf(s.disk, n) && LogOf(s'.disk, n) == [e]
            else PrevOf(s'.disk, n) == PrevOf(s.disk, n) && LogOf(s'.disk, n) == LogOf(s.disk, n) + [e]
  {
    assert [] + [e] == [e];
  }

  /** After `close` nothing that is still written reaches a file. */
  lemma {:induction false} NothingAfterClose(s: Sink, notes: seq<Note>)
    ensures WriteAll(AfterClose(s), notes) == AfterClose(s)
  {
    if notes != [] { NothingAfterClose(s, notes[..|notes| - 1]); }
  }

  /** Without rotation at the start the sink forgets the size of the file it appends to: after the
   *  first write the counter is right exactly when that file was empty or did not fit. */
  lemma StartSizeForgotten(s: Sink, n: Name, e: Entry)
    requires New(s) && !s.rotateOnStart
    ensures var s' := AfterWrite(s, n, e);
            && n in s'.memory.bytesWritten
            && (s'.memory.bytesWritten[n] == Size(LogOf(s'.disk, n))
                <==> Size(LogOf(s.disk, n)) == 0 || Size(LogOf(s.disk, n)) + e.bytes > s.maxLogBytes)
  {
    SizeAppend(LogOf(s.disk, n), e);
    SizeAppend([], e);
  }

  // ---------------------------------------------------------------- the sink as it is written

  class LogSink {
    const maxLogBytes: nat
    const rotateOnStart: bool
    var closed: bool
    var streams: set<Name>
    var seen: set<Name>
    var bytesWritten: map<Name, nat>
    var logs: map<Name, File>
    var prevs: map<Name, File>

    constructor (maxLogBytes: nat, rotateOnStart: bool, disk: Disk)
      ensures New(View()) && View().disk == disk && View().maxLogBytes == maxLogBytes
              && View().rotateOnStart == rotateOnStart
    {
      this.maxLogBytes, this.rotateOnStart := maxLogBytes, rotateOnStart;
      closed, streams, seen, bytesWritten := false, {}, {}, map[];
      logs, prevs := disk.logs, disk.prevs;
    }

    function View(): Sink
      reads this
    {
      Sink(maxLogBytes, rotateOnStart, closed, Memory(streams, seen, bytesWritten), Disk(logs, prevs))
    }

    method RenameToPrev(name: Name)
      modifies `logs, `prevs
      ensures Disk(logs, prevs) == Renamed(old(View()).disk, name)
    {
      if name in logs {
        prevs := prevs[name := logs[name]];
        logs := logs - {name};
      }
    }

    method EstimateCurrentSize(name: Name) returns (size: nat)
      ensures size == Size(LogOf(View().disk, name))
    {
      if name !in logs { return 0; }
      var file := logs[name];
      size := 0;
      for i := 0 to |file|
        invariant size == Size(file[..i])
      {
        assert file[..i + 1][..i] == file[..i];
        size := size + file[i].bytes;
      }
      assert file[..|file|] == file;
    }

    method RotateFile(name: Name)
      modifies `streams, `logs, `prevs, `bytesWritten
      ensures View() == Rotate(old(View()), name)
    {
      streams := streams - {name};
      RenameToPrev(name);
      bytesWritten := bytesWritten[name := 0];
    }

    method OpenStream(name: Name)
      modifies `streams, `seen, `logs, `prevs
      ensures View() == StreamFor(old(View()), name)
    {
      if name in streams { return; }
      if rotateOnStart && name !in seen { RenameToPrev(name); }
      seen := seen + {name};
      if name !in logs { logs := logs[name := []]; }
      else { assert logs[name := logs[name]] == logs; }
      streams := streams + {name};
    }

    method Write(name: Name, entry: Entry)
      modifies this
      ensures View() == AfterWrite(old(View()), name, entry)
    {
      if closed { return; }
      var current: nat;
      if name in bytesWritten { current := bytesWritten[name]; } else { current := EstimateCurrentSize(name); }
      if current + entry.bytes > maxLogBytes { RotateFile(name); }
      OpenStream(name);
      logs := logs[name := (if name in logs then logs[name] else []) + [entry]];
      bytesWritten := bytesWritten[name := (if name in bytesWritten then bytesWritten[name] else 0) + entry.bytes];
    }

    method Close()
      modifies `closed, `streams, `seen, `bytesWritten
      ensures View() == AfterClose(old(View()))
    {
      closed, streams, seen, bytesWritten := true, {}, {}, map[];
    }

    /** Any notes, in order. */
    method WriteNotes(notes: seq<Note>)
      modifies this
      ensures View() == WriteAll(old(View()), notes)
    {
      ghost var was := View();
      hide View, AfterWrite;
      for i := 0 to |notes|
        invariant View() == WriteAll(was, notes[..i])
      {
        assert notes[..i + 1][..i] == notes[..i];
        Write(notes[i].name, notes[i].entry);
      }
      assert notes[..|notes|] == notes;
    }

    /** A whole session over whatever earlier ones left: the two files of a service are the end of all
     *  ever written for it, and with rotation at the start the current one is within its limit unless it is
     *  one entry. */
    method Session(notes: seq<Note>, name: Name)
      requires New(View())
      modifies this
      ensures EndsWith(PrevOf(old(View()).disk, name) + LogOf(old(View()).disk, name) + For(notes, name),
                       PrevOf(View().disk, name) + LogOf(View().disk, name))
      ensures rotateOnStart && For(notes, name) != [] ==>
                && name in bytesWritten && name in logs && logs[name] != [] && bytesWritten[name] == Size(logs[name])
                && var last := logs[name][|logs[name]| - 1].bytes;
                   Size(logs[name]) <= if last > maxLogBytes then last else maxLogBytes
    {
      FilesHoldTheEnd(View(), notes, name);
      hide WriteAll, Size, For;
      WriteNotes(notes);
    }
  }
}
