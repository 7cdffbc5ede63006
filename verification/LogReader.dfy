/** Reading a window out of a service's two log files.
 *
 *  A line comes with the timestamp found at its head, if there is one. */
module LogReaders {
  import opened Options
  import opened LineBuffers

  datatype Line = Line(text: string, stamp: Option<int>)

  datatype OneFile = OneFile(lines: seq<Line>, oldest: Option<int>, truncated: bool)

  datatype LogWindow = LogWindow(lines: seq<Line>, oldestRetained: Option<int>, truncated: bool)

  // ---------------------------------------------------------------- what a window should hold

  /** The time of the last line: its own, or inherited from the last one that had one. */
  function LastSeen(file: seq<Line>): Option<int> {
    if file == [] then None
    else if file[|file| - 1].stamp.Some? then file[|file| - 1].stamp
    else LastSeen(file[..|file| - 1])
  }

  predicate InWindow(time: Option<int>, since: Option<int>) {
    since.Some? ==> time.Some? && since.value <= time.value
  }

  /** The lines written at or after `since`, undated ones dated by the line before them. */
  function Matching(file: seq<Line>, since: Option<int>): seq<Line> {
    if file == [] then []
    else Matching(file[..|file| - 1], since) + if InWindow(LastSeen(file), since) then [file[|file| - 1]] else []
  }

  function Oldest(file: seq<Line>): Option<int> {
    if file == [] then None
    else if Oldest(file[..|file| - 1]).Some? then Oldest(file[..|file| - 1])
    else file[|file| - 1].stamp
  }

  // ---------------------------------------------------------------- one file

  method ReadOneFile(file: seq<Line>, cap: nat, since: Option<int>) returns (r: OneFile)
    ensures r.lines == LastN(Matching(file, since), cap)
    ensures r.oldest == Oldest(file)
    ensures r.truncated <==> |Matching(file, since)| > cap
  {
    var lines: seq<Line> := [];
    var oldest: Option<int>, lastSeen: Option<int> := None, None;
    var truncated := false;
    for i := 0 to |file|
      invariant lines == LastN(Matching(file[..i], since), cap)
      invariant oldest == Oldest(file[..i]) && lastSeen == LastSeen(file[..i])
      invariant truncated <==> |Matching(file[..i], since)| > cap
    {
      var line := file[i];
      assert file[..i + 1][..i] == file[..i];
      var ts := if line.stamp.Some? then line.stamp else lastSeen;
      if ts.Some? {
        lastSeen := ts;
        if oldest.None? {
          oldest := ts;
          if line.stamp.None? { SeenIsOldest(file[..i]); }
        }
      }
      if since.Some? && (ts.None? || ts.value < since.value) { continue; }
      LastNPush(Matching(file[..i], since), line, cap);
      lines := lines + [line];
      if |lines| > cap { lines, truncated := lines[1..], true; }
    }
    assert file[..|file|] == file;
    return OneFile(lines, oldest, truncated);
  }

  lemma {:induction false} SeenIsOldest(file: seq<Line>)
    ensures LastSeen(file).Some? <==> Oldest(file).Some?
  {
    if file != [] { SeenIsOldest(file[..|file| - 1]); }
  }

  lemma LastNPush<T>(s: seq<T>, x: T, n: nat)
    ensures var t := LastN(s, n) + [x];
            LastN(s + [x], n) == if |t| > n then t[1..] else t
  {}

  // ---------------------------------------------------------------- the seam

  predicate Overlaps(earlier: seq<Line>, later: seq<Line>, n: nat) {
    n <= |earlier| && n <= |later| && earlier[|earlier| - n..] == later[..n]
  }

  /** The longest overlap no longer than `most`. */
  function OverlapWithin(earlier: seq<Line>, later: seq<Line>, most: nat): (n: nat)
    ensures n <= most && Overlaps(earlier, later, n)
    ensures forall m: nat :: m <= most && Overlaps(earlier, later, m) ==> m <= n
  {
    if most == 0 || Overlaps(earlier, later, most) then most else OverlapWithin(earlier, later, most - 1)
  }

  /** How long the longest end of `earlier` is that is also the beginning of `later`. */
  function Seam(earlier: seq<Line>, later: seq<Line>): (n: nat)
    ensures Overlaps(earlier, later, n)
    ensures forall m: nat :: Overlaps(earlier, later, m) ==> m <= n
  {
    OverlapWithin(earlier, later, |later|)
  }

  method TrimOverlap(earlier: seq<Line>, later: seq<Line>) returns (kept: seq<Line>)
    ensures kept == earlier[..|earlier| - Seam(earlier, later)]
  {
    var n := if |earlier| < |later| then |earlier| else |later|;
    while n > 0
      invariant n <= |earlier| && n <= |later|
      invariant Seam(earlier, later) <= n
    {
      var same := true;
      var i := 0;
      while i < n && same
        invariant i <= n
        invariant same ==> forall j :: 0 <= j < i ==> earlier[|earlier| - n + j] == later[j]
        invariant !same ==> !Overlaps(earlier, later, n)
      {
        if earlier[|earlier| - n + i] != later[i] {
          assert earlier[|earlier| - n..][i] != later[..n][i];
          same := false;
        }
        i := i + 1;
      }
      if same {
        assert Overlaps(earlier, later, n);
        return earlier[..|earlier| - n];
      }
      n := n - 1;
    }
    return earlier;
  }

  // ---------------------------------------------------------------- the window

  /** Whether the rotated file is looked at: it may still hold part of the window. */
  predicate NeedsPrev(current: seq<Line>, since: Option<int>) {
    since.Some? && (Oldest(current).None? || Oldest(current).value > since.value)
  }

  /** What the two reads contribute. */
  function EarlierLines(prev: seq<Line>, current: seq<Line>, cap: nat, since: Option<int>): seq<Line> {
    if NeedsPrev(current, since) then LastN(Matching(prev, since), cap) else []
  }

  /** The oldest time in what was read, when a window was asked for. */
  function OldestRetained(current: seq<Line>, prev: seq<Line>, since: Option<int>): Option<int> {
    if since.None? then None
    else if NeedsPrev(current, since) && Oldest(prev).Some? then Oldest(prev)
    else Oldest(current)
  }

  /** What is left of the earlier lines in front of the later ones. */
  function Joined(earlier: seq<Line>, later: seq<Line>): seq<Line> {
    earlier[..|earlier| - Seam(earlier, later)] + later
  }

  /** What `readLogWindow` returns, from what it reads. */
  predicate IsWindow(w: LogWindow, current: seq<Line>, prev: seq<Line>, cap: nat, since: Option<int>) {
    var joined := Joined(EarlierLines(prev, current, cap, since), LastN(Matching(current, since), cap));
    && w.lines == LastN(joined, cap)
    && (w.truncated <==>
          || |joined| > cap
          || |Matching(current, since)| > cap
          || (NeedsPrev(current, since) && |Matching(prev, since)| > cap))
  }

  /** The two reads put together, without what they have in common at the seam. */
  method Combine(before: OneFile, now: OneFile, cap: nat) returns (lines: seq<Line>, truncated: bool)
    ensures lines == LastN(Joined(before.lines, now.lines), cap)
    ensures truncated <==> |Joined(before.lines, now.lines)| > cap || now.truncated || before.truncated
  {
    var earlier := TrimOverlap(before.lines, now.lines);
    var combined := earlier + now.lines;
    truncated := |combined| > cap || now.truncated || before.truncated;
    lines := if |combined| > cap then combined[|combined| - cap..] else combined;
  }

  /** `current` is what the current file held when it was read, `prev` what the rotated one held then. */
  method ReadLogWindow(current: seq<Line>, prev: seq<Line>, cap: nat, since: Option<int>) returns (w: LogWindow)
    ensures IsWindow(w, current, prev, cap, since)
    ensures w.oldestRetained == OldestRetained(current, prev, since)
  {
    var now := ReadOneFile(current, cap, since);
    var needPrev := since.Some? && (now.oldest.None? || now.oldest.value > since.value);
    assert needPrev <==> NeedsPrev(current, since);
    hide NeedsPrev, Matching, Joined, LastN, Oldest;
    var before := ReadPrevIf(needPrev, prev, cap, since);
    var lines, truncated := Combine(before, now, cap);
    w := LogWindow(lines, if since.None? then None else if before.oldest.Some? then before.oldest
                          else now.oldest, truncated);
    assert before.lines == EarlierLines(prev, current, cap, since);
  }

  method ReadPrevIf(needed: bool, prev: seq<Line>, cap: nat, since: Option<int>) returns (r: OneFile)
    ensures r.lines == if needed then LastN(Matching(prev, since), cap) else []
    ensures r.oldest == if needed then Oldest(prev) else None
    ensures r.truncated <==> needed && |Matching(prev, since)| > cap
  {
    if needed { r := ReadOneFile(prev, cap, since); } else { r := OneFile([], None, false); }
  }

  lemma LastNOfSum<T>(a: seq<T>, b: seq<T>, n: nat)
    ensures LastN(LastN(a, n) + LastN(b, n), n) == LastN(a + b, n)
    ensures |a + b| > n <==> |LastN(a, n) + LastN(b, n)| > n || |a| > n || |b| > n
  {
    if |b| >= n {
      LastNOfLong(a, b, n);
      LastNOfLong(LastN(a, n), LastN(b, n), n);
    } else if |a| > n {
      var cut := |a| - n;
      assert a == a[..cut] + LastN(a, n);
      assert a + b == a[..cut] + (LastN(a, n) + b);
      LastNOfLong(a[..cut], LastN(a, n) + b, n);
    }
  }

  /** Enough lines at the end make the rest irrelevant. */
  lemma LastNOfLong<T>(a: seq<T>, b: seq<T>, n: nat)
    requires |b| >= n
    ensures LastN(a + b, n) == LastN(b, n)
  {
    assert (a + b)[|a + b| - n..] == b[|b| - n..];
  }

  lemma JoinedWithoutSeam(earlier: seq<Line>, later: seq<Line>)
    requires Seam(earlier, later) == 0
    ensures Joined(earlier, later) == earlier + later
  {
    assert earlier[..|earlier|] == earlier;
  }

  /** A window that looked at both files, which share no seam, is the last lines of those that match
   *  in the rotated file and then the current one, and says exactly when some were dropped. */
  lemma WindowIsTheLastLines(w: LogWindow, current: seq<Line>, prev: seq<Line>, cap: nat, since: Option<int>)
    requires IsWindow(w, current, prev, cap, since)
    requires Seam(EarlierLines(prev, current, cap, since), LastN(Matching(current, since), cap)) == 0
    requires since.Some? && (NeedsPrev(current, since) || Matching(prev, since) == [])
    ensures var all := Matching(prev, since) + Matching(current, since);
            w.lines == LastN(all, cap) && (w.truncated <==> |all| > cap)
  {
    var a, b := Matching(prev, since), Matching(current, since);
    JoinedWithoutSeam(EarlierLines(prev, current, cap, since), LastN(b, cap));
    hide Matching, Joined, Seam;
    LastNOfSum(a, b, cap);
    if !NeedsPrev(current, since) {
      assert a + b == b && [] + LastN(b, cap) == LastN(b, cap);
    }
  }

  // ---------------------------------------------------------------- leaving the rotated file unread

  /** The dated lines are in order of time. */
  predicate InOrder(file: seq<Line>) {
    forall i, j :: 0 <= i < j < |file| && file[i].stamp.Some? && file[j].stamp.Some? ==>
      file[i].stamp.value <= file[j].stamp.value
  }

  predicate StampedAt(file: seq<Line>, time: int) {
    exists i :: 0 <= i < |file| && file[i].stamp == Some(time)
  }

  lemma {:induction false} OldestIsThere(file: seq<Line>)
    requires Oldest(file).Some?
    ensures exists i :: 0 <= i < |file| && file[i].stamp == Oldest(file)
  {
    var init := file[..|file| - 1];
    if Oldest(init).Some? {
      OldestIsThere(init);
      var i :| 0 <= i < |init| && init[i].stamp == Oldest(init);
      assert file[i].stamp == Oldest(file);
    } else {
      assert file[|file| - 1].stamp == Oldest(file);
    }
  }

  lemma {:induction false} SeenIsThere(file: seq<Line>)
    requires LastSeen(file).Some?
    ensures exists i :: 0 <= i < |file| && file[i].stamp == LastSeen(file)
  {
    var init := file[..|file| - 1];
    if file[|file| - 1].stamp.None? {
      SeenIsThere(init);
      var i :| 0 <= i < |init| && init[i].stamp == LastSeen(init);
      assert file[i].stamp == LastSeen(file);
    }
  }

  lemma {:induction false} NothingMatches(file: seq<Line>, since: int)
    requires forall i :: 0 <= i < |file| && file[i].stamp.Some? ==> file[i].stamp.value < since
    ensures Matching(file, Some(since)) == []
  {
    if file != [] {
      NothingMatches(file[..|file| - 1], since);
      if LastSeen(file).Some? { SeenIsThere(file); }
    }
  }

  lemma {:induction false} StampedMatches(file: seq<Line>, since: int, i: nat)
    requires i < |file| && file[i].stamp == Some(since)
    ensures Matching(file, Some(since)) != []
  {
    if i < |file| - 1 { StampedMatches(file[..|file| - 1], since, i); }
  }

  /** When the current file starts at or before the window, the rotated file is not read, and with
   *  time going forward that loses nothing exactly when no line of it is stamped at the very moment
   *  the window starts. */
  lemma SkippingPrevLosesNothing(prev: seq<Line>, current: seq<Line>, since: int)
    requires InOrder(prev + current) && Oldest(current).Some? && !NeedsPrev(current, Some(since))
    ensures Matching(prev, Some(since)) == [] <==> !StampedAt(prev, since)
  {
    OldestIsThere(current);
    var o :| 0 <= o < |current| && current[o].stamp == Oldest(current);
    assert (prev + current)[|prev| + o] == current[o];
    forall i | 0 <= i < |prev| && prev[i].stamp.Some?
      ensures prev[i].stamp.value <= since
    {
      assert (prev + current)[i] == prev[i];
    }
    if StampedAt(prev, since) {
      var i :| 0 <= i < |prev| && prev[i].stamp == Some(since);
      StampedMatches(prev, since, i);
    } else {
      forall i | 0 <= i < |prev| && prev[i].stamp.Some? ensures prev[i].stamp.value < since {
        assert prev[i].stamp == Some(prev[i].stamp.value);
      }
      NothingMatches(prev, since);
    }
  }

  /** With time going forward, no seam, and nothing in the rotated file stamped at the very start of
   *  the window, the window is complete: the last lines of all that match, and it says exactly when
   *  some were dropped. */
  lemma WindowIsComplete(w: LogWindow, current: seq<Line>, prev: seq<Line>, cap: nat, since: int)
    requires IsWindow(w, current, prev, cap, Some(since))
    requires Seam(EarlierLines(prev, current, cap, Some(since)), LastN(Matching(current, Some(since)), cap)) == 0
    requires InOrder(prev + current) && !StampedAt(prev, since)
    ensures var all := Matching(prev, Some(since)) + Matching(current, Some(since));
            w.lines == LastN(all, cap) && (w.truncated <==> |all| > cap)
  {
    if !NeedsPrev(current, Some(since)) { SkippingPrevLosesNothing(prev, current, since); }
    hide Matching, IsWindow, LastN;
    WindowIsTheLastLines(w, current, prev, cap, Some(since));
  }

  // ---------------------------------------------------------------- a rotation between the two reads

  lemma WholeOverlap(lines: seq<Line>)
    ensures Joined(lines, lines) == lines
  {
    assert lines[|lines| - |lines|..] == lines[..|lines|];
    assert Overlaps(lines, lines, |lines|);
    assert lines[..0] + lines == lines;
  }

  /** What is written later leaves what matched before as it is. */
  lemma {:induction false} MatchingGrows(file: seq<Line>, late: seq<Line>, since: Option<int>)
    ensures Matching(file, since) <= Matching(file + late, since)
    decreases |late|
  {
    if late == [] {
      assert file + late == file;
    } else {
      var whole := file + late;
      assert whole[..|whole| - 1] == file + late[..|late| - 1];
      MatchingGrows(file, late[..|late| - 1], since);
    }
  }

  /** What rotation between the two reads does, exactly.  `late` was written to the file after it was read
   *  and before it was rotated.  The window is that of the file as it was read, each line once, if and
   *  only if that fills it or nothing in the window was written late; and it says truly whether more
   *  lines match than fit if and only if they do not fit anyway, or what is left of them at the seam
   *  does. */
  lemma RotationExactly(w: LogWindow, current: seq<Line>, late: seq<Line>, cap: nat, since: Option<int>)
    requires NeedsPrev(current, since) && IsWindow(w, current, current + late, cap, since)
    ensures var m, all := Matching(current, since), Matching(current + late, since);
            && m <= all
            && (w.lines == LastN(m, cap) <==> |m| >= cap || all == m)
            && ((w.truncated <==> |all| > cap) <==> |all| > cap || |all| - Seam(all, m) + |m| <= cap)
  {
    var m, all := Matching(current, since), Matching(current + late, since);
    MatchingGrows(current, late, since);
    var earlier, later := LastN(all, cap), LastN(m, cap);
    assert earlier == EarlierLines(current + late, current, cap, since);
    hide Matching;
    if |m| >= cap {
      LastNOfLong(earlier[..|earlier| - Seam(earlier, later)], later, cap);
      assert LastN(later, cap) == later;
    } else if all == m {
      WholeOverlap(m);
    }
  }

  lemma MatchingOfOne(a: Line, since: int)
    requires a.stamp.Some? && since <= a.stamp.value
    ensures Matching([a], Some(since)) == [a] && Oldest([a]) == a.stamp
  {
    assert [a][..0] == [];
  }

  lemma MatchingOfTwo(a: Line, b: Line, since: int)
    requires a.stamp.Some? && since <= a.stamp.value && b.stamp.Some? && since <= b.stamp.value
    ensures Matching([a, b], Some(since)) == [a, b]
  {
    MatchingOfOne(a, since);
    assert [a, b][..1] == [a];
  }

  lemma NoOverlap(a: Line, b: Line)
    requires a != b
    ensures Joined([a, b], [a]) == [a, b, a]
  {
    assert [a, b][1..][0] == b && [a][..1][0] == a;
    assert Seam([a, b], [a]) == 0;
    assert [a, b][..2] + [a] == [a, b, a];
  }

  /** A line written between the read and the rotation breaks the seam: the window then repeats what
   *  it already has, out of order, and claims that lines were dropped. */
  lemma LateLineIsNotSeamless(w: LogWindow, a: Line, b: Line)
    requires a.stamp == Some(5) && b.stamp == Some(6)
    requires IsWindow(w, [a], [a, b], 2, Some(1))
    ensures w.lines == [b, a] && w.truncated
    ensures Matching([a, b], Some(1)) == [a, b]
  {
    MatchingOfOne(a, 1);
    MatchingOfTwo(a, b, 1);
    hide Matching, Oldest, Joined;
    NoOverlap(a, b);
    assert LastN([a, b, a], 2) == [b, a];
  }
}
