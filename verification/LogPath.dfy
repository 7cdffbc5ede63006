/** The whole log path: what is written through the sink is what a window reads back. */
module LogPath {
  import opened Options
  import opened LineBuffers
  import opened LogReaders
  import LogSinks

  /** The lines of a file as the reader sees them; `stampOf` finds the time at the head of a line. */
  function Parsed(file: LogSinks.File, stampOf: string -> Option<int>): (lines: seq<Line>)
    ensures |lines| == |file|
  {
    seq(|file|, i requires 0 <= i < |file| => Line(file[i].line, stampOf(file[i].line)))
  }

  lemma ParsedSum(a: LogSinks.File, b: LogSinks.File, stampOf: string -> Option<int>)
    ensures Parsed(a + b, stampOf) == Parsed(a, stampOf) + Parsed(b, stampOf)
  {}

  predicate Dated(file: seq<Line>) {
    forall i :: 0 <= i < |file| ==> file[i].stamp.Some?
  }

  lemma {:induction false} MatchingOfSum(a: seq<Line>, b: seq<Line>, since: Option<int>)
    requires Dated(b)
    ensures Matching(a + b, since) == Matching(a, since) + Matching(b, since)
  {
    if b == [] {
      assert a + b == a;
    } else {
      var init := b[..|b| - 1];
      MatchingOfSum(a, init, since);
      assert (a + b)[..|a + b| - 1] == a + init;
      assert LastSeen(a + b) == LastSeen(b);
    }
  }

  /** Lines in front of a file whose oldest time lies before the window are not in the window. */
  lemma LostIsOlder(lost: seq<Line>, kept: seq<Line>, since: int)
    requires Dated(lost) && InOrder(lost + kept)
    requires Oldest(kept).Some? && Oldest(kept).value < since
    ensures Matching(lost, Some(since)) == []
  {
    OldestIsThere(kept);
    var k :| 0 <= k < |kept| && kept[k].stamp == Oldest(kept);
    assert (lost + kept)[|lost| + k] == kept[k];
    forall i | 0 <= i < |lost| ensures lost[i].stamp.value < since {
      assert (lost + kept)[i] == lost[i];
    }
    NothingMatches(lost, since);
  }

  /** The oldest time retained is that of the files that were read. */
  lemma {:induction false} OldestOfSum(a: seq<Line>, b: seq<Line>)
    ensures Oldest(a + b) == if Oldest(a).Some? then Oldest(a) else Oldest(b)
  {
    if b == [] {
      assert a + b == a;
    } else {
      OldestOfSum(a, b[..|b| - 1]);
      assert (a + b)[..|a + b| - 1] == a + b[..|b| - 1];
    }
  }

  lemma Parts(lost: seq<Line>, prev: seq<Line>, current: seq<Line>)
    requires Dated(lost + (prev + current)) && InOrder(lost + (prev + current))
    ensures Dated(lost) && Dated(prev) && Dated(current) && Dated(prev + current) && InOrder(prev + current)
    ensures lost + prev + current == lost + (prev + current)
  {
    var all := lost + (prev + current);
    forall i | 0 <= i < |lost| ensures lost[i] == all[i] {}
    forall i | 0 <= i < |prev| ensures prev[i] == all[|lost| + i] {}
    forall i | 0 <= i < |current| ensures current[i] == all[|lost| + |prev| + i] {}
    forall i | 0 <= i < |prev + current| ensures (prev + current)[i] == all[|lost| + i] {}
  }

  /** What lies in front of the files read, the rotated one included if it was not read, is not in a
   *  window that starts after the oldest time retained. */
  lemma NothingMissed(lost: seq<Line>, current: seq<Line>, prev: seq<Line>, since: int)
    requires Dated(lost + (prev + current)) && InOrder(lost + (prev + current))
    requires var o := OldestRetained(current, prev, Some(since)); o.Some? && o.value < since
    ensures Matching(lost, Some(since)) == []
    ensures NeedsPrev(current, Some(since)) || Matching(prev, Some(since)) == []
  {
    Parts(lost, prev, current);
    OldestOfSum(prev, current);
    if NeedsPrev(current, Some(since)) {
      LostIsOlder(lost, prev + current, since);
    } else {
      LostIsOlder(prev, current, since);
      assert lost + prev + current == lost + (prev + current);
      DatedSum(lost, prev);
      LostIsOlder(lost + prev, current, since);
      MatchingOfSum(lost, prev, Some(since));
    }
  }

  lemma DatedSum(a: seq<Line>, b: seq<Line>)
    requires Dated(a) && Dated(b)
    ensures Dated(a + b)
  {}

  /** A window over the two retained files is the window over everything there ever was, as soon as
   *  the oldest time retained lies before the window. */
  lemma WindowOverHistory(w: LogWindow, lost: seq<Line>, current: seq<Line>, prev: seq<Line>, cap: nat, since: int)
    requires IsWindow(w, current, prev, cap, Some(since))
             && w.oldestRetained == OldestRetained(current, prev, Some(since))
    requires Seam(EarlierLines(prev, current, cap, Some(since)), LastN(Matching(current, Some(since)), cap)) == 0
    requires Dated(lost + (prev + current)) && InOrder(lost + (prev + current))
    requires w.oldestRetained.Some? && w.oldestRetained.value < since
    ensures var all := Matching(lost + (prev + current), Some(since));
            w.lines == LastN(all, cap) && (w.truncated <==> |all| > cap)
  {
    hide *;
    Parts(lost, prev, current);
    NothingMissed(lost, current, prev, since);
    MatchingOfSum(lost, prev + current, Some(since));
    MatchingOfSum(prev, current, Some(since));
    WindowIsTheLastLines(w, current, prev, cap, Some(since));
    assert forall m: seq<Line> :: [] + m == m;
  }

  /** Whatever was written through a sink, over whatever was there before: with time going forward and no
   *  seam, a window whose oldest retained time lies before its start is the last lines of all ever written
   *  for the service in that time, and says exactly when there were more. */
  lemma WindowReadsBackWhatWasWritten(s: LogSinks.Sink, notes: seq<LogSinks.Note>, n: LogSinks.Name,
                                      stampOf: string -> Option<int>, written: seq<Line>,
                                      current: seq<Line>, prev: seq<Line>, w: LogWindow, cap: nat, since: int)
    requires LogSinks.New(s)
    requires written == Parsed(LogSinks.PrevOf(s.disk, n) + LogSinks.LogOf(s.disk, n) + LogSinks.For(notes, n), stampOf)
    requires current == Parsed(LogSinks.LogOf(LogSinks.WriteAll(s, notes).disk, n), stampOf)
    requires prev == Parsed(LogSinks.PrevOf(LogSinks.WriteAll(s, notes).disk, n), stampOf)
    requires Dated(written) && InOrder(written)
    requires IsWindow(w, current, prev, cap, Some(since))
             && w.oldestRetained == OldestRetained(current, prev, Some(since))
    requires Seam(EarlierLines(prev, current, cap, Some(since)), LastN(Matching(current, Some(since)), cap)) == 0
    requires w.oldestRetained.Some? && w.oldestRetained.value < since
    ensures var all := Matching(written, Some(since));
            w.lines == LastN(all, cap) && (w.truncated <==> |all| > cap)
  {
    LogSinks.FilesHoldTheEnd(s, notes, n);
    var d := LogSinks.WriteAll(s, notes).disk;
    var log, rotated := LogSinks.LogOf(d, n), LogSinks.PrevOf(d, n);
    var whole := LogSinks.PrevOf(s.disk, n) + LogSinks.LogOf(s.disk, n) + LogSinks.For(notes, n);
    hide *;
    SplitOff(whole, rotated, log, stampOf);
    WindowOverHistory(w, Parsed(whole[..|whole| - |rotated + log|], stampOf), current, prev, cap, since);
  }

  lemma SplitOff(whole: LogSinks.File, prev: LogSinks.File, log: LogSinks.File, stampOf: string -> Option<int>)
    requires LogSinks.EndsWith(whole, prev + log)
    ensures |prev + log| <= |whole|
    ensures Parsed(whole, stampOf)
            == Parsed(whole[..|whole| - |prev + log|], stampOf) + (Parsed(prev, stampOf) + Parsed(log, stampOf))
  {
    var k := |whole| - |prev + log|;
    assert whole == whole[..k] + (prev + log);
    ParsedSum(whole[..k], prev + log, stampOf);
    ParsedSum(prev, log, stampOf);
  }
}
