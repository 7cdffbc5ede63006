/** Passing arguments through cmd.exe to a batch shim: what `escapeArgument` writes, and what the two
 *  readers on the way make of it.
 *
 *  The first reader is cmd.exe, which removes carets (twice, because a batch file is parsed again);
 *  the second is the program, which splits its command line by the documented rules of
 *  CommandLineToArgvW. */
module Quoting {
  // ---------------------------------------------------------------- writing

  function Slashes(n: nat): (s: string)
    ensures |s| == n && forall i :: 0 <= i < n ==> s[i] == '\\'
  {
    if n == 0 then [] else ['\\'] + Slashes(n - 1)
  }

  /** Backslashes before a quote are doubled and the quote is escaped; `k` of them are still pending. */
  function QuotesEscaped(arg: string, k: nat): string
    decreases |arg|
  {
    if arg == [] then Slashes(k)
    else if arg[0] == '\\' then QuotesEscaped(arg[1..], k + 1)
    else if arg[0] == '"' then Slashes(2 * k + 1) + ['"'] + QuotesEscaped(arg[1..], 0)
    else Slashes(k) + [arg[0]] + QuotesEscaped(arg[1..], 0)
  }

  function TrailingSlashes(s: string): nat {
    if s != [] && s[|s| - 1] == '\\' then 1 + TrailingSlashes(s[..|s| - 1]) else 0
  }

  /** The argument between its quotes: backslashes that would meet the closing quote are doubled too. */
  function Quoted(arg: string): string {
    var out := QuotesEscaped(arg, 0);
    ['"'] + out + Slashes(TrailingSlashes(out)) + ['"']
  }

  predicate IsMeta(c: char) {
    c in {'(', ')', ']', '[', '%', '!', '^', '"', '`', '<', '>', '&', '|', ';', ',', ' ', '*', '?'}
  }

  /** Every character that means something to cmd.exe gets a caret. */
  function Careted(s: string): string {
    if s == [] then []
    else (if IsMeta(s[0]) then ['^', s[0]] else [s[0]]) + Careted(s[1..])
  }

  function EscapeArgument(arg: string, doubleEscape: bool): string {
    var out := Careted(Quoted(arg));
    if doubleEscape then Careted(out) else out
  }

  function Joined(parts: seq<string>): string {
    if parts == [] then []
    else if |parts| == 1 then parts[0]
    else parts[0] + [' '] + Joined(parts[1..])
  }

  function EscapedAll(args: seq<string>): seq<string> {
    if args == [] then [] else [EscapeArgument(args[0], true)] + EscapedAll(args[1..])
  }

  // ---------------------------------------------------------------- reading

  /** One pass of cmd.exe: a caret outside quotes takes the next character literally and goes away.
   *  A quote that is not taken literally opens or closes a quoted stretch, where carets stay. */
  function RemoveCarets(s: string, inQuotes: bool): string
    decreases |s|
  {
    if s == [] then []
    else if s[0] == '^' && !inQuotes then
      if |s| == 1 then [] else [s[1]] + RemoveCarets(s[2..], false)
    else [s[0]] + RemoveCarets(s[1..], if s[0] == '"' then !inQuotes else inQuotes)
  }

  predicate IsBlank(c: char) {
    c == ' ' || c == '\t'
  }

  /** The rules of CommandLineToArgvW.  `cur` is what the argument begun has so far, `k` the number of
   *  backslashes read since, and `begun` says that there is one. */
  function Split(line: string, cur: string, k: nat, inQuotes: bool, begun: bool): seq<string>
    decreases |line|
  {
    if line == [] then (if begun then [cur + Slashes(k)] else [])
    else if line[0] == '\\' then Split(line[1..], cur, k + 1, inQuotes, true)
    else if line[0] == '"' then
      if k % 2 == 0 then Split(line[1..], cur + Slashes(k / 2), 0, !inQuotes, true)
      else Split(line[1..], cur + Slashes(k / 2) + ['"'], 0, inQuotes, true)
    else if IsBlank(line[0]) && !inQuotes then
      (if begun then [cur + Slashes(k)] else []) + Split(line[1..], [], 0, false, false)
    else Split(line[1..], cur + Slashes(k) + [line[0]], 0, inQuotes, true)
  }

  function Arguments(line: string): seq<string> {
    Split(line, [], 0, false, false)
  }

  // ---------------------------------------------------------------- carets

  lemma OneComesOff(s: string, rest: string)
    requires s != []
    ensures RemoveCarets(Careted(s) + rest, false) == [s[0]] + RemoveCarets(Careted(s[1..]) + rest, false)
  {
    var t := Careted(s[1..]) + rest;
    if IsMeta(s[0]) {
      assert Careted(s) + rest == ['^', s[0]] + t;
      assert (['^', s[0]] + t)[2..] == t;
    } else {
      assert Careted(s) + rest == [s[0]] + t;
      assert ([s[0]] + t)[1..] == t;
    }
  }

  /** Reading back careted text gives the text, and leaves cmd.exe outside quotes. */
  lemma {:induction false} CaretsComeOff(s: string, rest: string)
    ensures RemoveCarets(Careted(s) + rest, false) == s + RemoveCarets(rest, false)
    decreases |s|
  {
    if s == [] {
      assert Careted(s) + rest == rest && s + RemoveCarets(rest, false) == RemoveCarets(rest, false);
    } else {
      hide RemoveCarets, Careted;
      CaretsComeOff(s[1..], rest);
      OneComesOff(s, rest);
      assert s + RemoveCarets(rest, false) == [s[0]] + (s[1..] + RemoveCarets(rest, false));
    }
  }

  function CaretedAll(parts: seq<string>): seq<string> {
    if parts == [] then [] else [Careted(parts[0])] + CaretedAll(parts[1..])
  }

  function QuotedAll(args: seq<string>): seq<string> {
    if args == [] then [] else [Quoted(args[0])] + QuotedAll(args[1..])
  }

  /** The blanks between the parts are not careted and come through. */
  lemma {:induction false} CaretsComeOffAll(parts: seq<string>)
    ensures RemoveCarets(Joined(CaretedAll(parts)), false) == Joined(parts)
  {
    if |parts| == 1 {
      CaretsComeOff(parts[0], []);
      assert Careted(parts[0]) + [] == Careted(parts[0]) && parts[0] + [] == parts[0];
      assert CaretedAll(parts) == [Careted(parts[0])];
    } else if |parts| > 1 {
      var rest := parts[1..];
      CaretsComeOffAll(rest);
      var tail := [' '] + Joined(CaretedAll(rest));
      assert CaretedAll(parts)[1..] == CaretedAll(rest) && |CaretedAll(rest)| > 0;
      assert Joined(CaretedAll(parts)) == Careted(parts[0]) + tail;
      CaretsComeOff(parts[0], tail);
      assert tail[1..] == Joined(CaretedAll(rest));
      assert RemoveCarets(tail, false) == [' '] + Joined(rest);
      assert parts[0] + ([' '] + Joined(rest)) == parts[0] + [' '] + Joined(rest);
    }
  }

  lemma {:induction false} EscapedTwice(args: seq<string>)
    ensures EscapedAll(args) == CaretedAll(CaretedAll(QuotedAll(args)))
  {
    if args != [] {
      EscapedTwice(args[1..]);
      assert QuotedAll(args)[1..] == QuotedAll(args[1..]);
      assert CaretedAll(QuotedAll(args))[1..] == CaretedAll(QuotedAll(args[1..]));
    }
  }

  /** What one pass of cmd.exe sees bare: outside quotes and with no caret before it. */
  function Bare(s: string, inQuotes: bool): set<char>
    decreases |s|
  {
    if s == [] then {}
    else if s[0] == '^' && !inQuotes then (if |s| == 1 then {'^'} else Bare(s[2..], false))
    else (if inQuotes then {} else {s[0]}) + Bare(s[1..], if s[0] == '"' then !inQuotes else inQuotes)
  }

  /** Whatever cmd.exe gives a meaning: operators, groups, quotes, carets, expansions, wildcards, separators. */
  const SPECIAL: set<char> :=
    {'(', ')', ']', '[', '%', '!', '^', '"', '`', '<', '>', '&', '|', ';', ',', ' ', '*', '?'}

  lemma {:induction false} NothingBareIn(s: string, rest: string)
    ensures Bare(Careted(s) + rest, false) !! (SPECIAL - Bare(rest, false))
    decreases |s|
  {
    if s == [] {
      assert Careted(s) + rest == rest;
    } else {
      NothingBareIn(s[1..], rest);
      var t := Careted(s[1..]) + rest;
      if IsMeta(s[0]) {
        assert Careted(s) + rest == ['^', s[0]] + t;
        assert (['^', s[0]] + t)[2..] == t;
      } else {
        assert Careted(s) + rest == [s[0]] + t;
        assert ([s[0]] + t)[1..] == t;
      }
    }
  }

  lemma {:induction false} NothingBareInAll(parts: seq<string>)
    ensures Bare(Joined(CaretedAll(parts)), false) !! (SPECIAL - {' '})
  {
    if |parts| == 1 {
      NothingBareIn(parts[0], []);
      assert Careted(parts[0]) + [] == Careted(parts[0]) && CaretedAll(parts) == [Careted(parts[0])];
    } else if |parts| > 1 {
      NothingBareInAll(parts[1..]);
      var tail := [' '] + Joined(CaretedAll(parts[1..]));
      assert CaretedAll(parts)[1..] == CaretedAll(parts[1..]) && |CaretedAll(parts[1..])| > 0;
      assert Joined(CaretedAll(parts)) == Careted(parts[0]) + tail;
      assert tail[1..] == Joined(CaretedAll(parts[1..]));
      NothingBareIn(parts[0], tail);
    }
  }

  /** Nothing that an argument says means anything to cmd.exe, in its first pass or in its second: all that it
   *  sees bare of what it gives a meaning are the blanks between the arguments. */
  lemma NothingSpecialIsBare(args: seq<string>)
    ensures var line := Joined(EscapedAll(args));
            && Bare(line, false) !! (SPECIAL - {' '})
            && Bare(RemoveCarets(line, false), false) !! (SPECIAL - {' '})
  {
    EscapedTwice(args);
    NothingBareInAll(CaretedAll(QuotedAll(args)));
    CaretsComeOffAll(CaretedAll(QuotedAll(args)));
    NothingBareInAll(QuotedAll(args));
  }

  // ---------------------------------------------------------------- quotes and backslashes

  lemma {:induction false} SlashesAdd(a: nat, b: nat)
    ensures Slashes(a) + Slashes(b) == Slashes(a + b)
  {
    if a > 0 { SlashesAdd(a - 1, b); }
  }

  lemma {:induction false} TrailingOfSlashes(k: nat)
    ensures TrailingSlashes(Slashes(k)) == k
  {
    if k > 0 {
      TrailingOfSlashes(k - 1);
      assert Slashes(k)[..k - 1] == Slashes(k - 1);
    }
  }

  /** Only what follows the last other character counts. */
  lemma {:induction false} TrailingAfter(x: string, y: string)
    requires x != [] && x[|x| - 1] != '\\'
    ensures TrailingSlashes(x + y) == TrailingSlashes(y)
  {
    if y != [] {
      assert (x + y)[..|x + y| - 1] == x + y[..|y| - 1];
      TrailingAfter(x, y[..|y| - 1]);
    } else {
      assert x + y == x;
    }
  }

  /** The text between the quotes, in one pass: at the end the pending backslashes are doubled. */
  function Body(arg: string, k: nat): string
    decreases |arg|
  {
    if arg == [] then Slashes(2 * k)
    else if arg[0] == '\\' then Body(arg[1..], k + 1)
    else if arg[0] == '"' then Slashes(2 * k + 1) + ['"'] + Body(arg[1..], 0)
    else Slashes(k) + [arg[0]] + Body(arg[1..], 0)
  }

  lemma {:induction false} TwoPassesAreOne(arg: string, k: nat)
    ensures var out := QuotesEscaped(arg, k); out + Slashes(TrailingSlashes(out)) == Body(arg, k)
    decreases |arg|
  {
    if arg == [] {
      TrailingOfSlashes(k);
      SlashesAdd(k, k);
    } else if arg[0] == '\\' {
      TwoPassesAreOne(arg[1..], k + 1);
    } else {
      TwoPassesAreOne(arg[1..], 0);
      var head := if arg[0] == '"' then Slashes(2 * k + 1) + ['"'] else Slashes(k) + [arg[0]];
      var tail := QuotesEscaped(arg[1..], 0);
      TrailingAfter(head, tail);
      assert head + tail + Slashes(TrailingSlashes(tail)) == head + (tail + Slashes(TrailingSlashes(tail)));
    }
  }

  lemma {:induction false} SplitSlashes(m: nat, rest: string, cur: string, k: nat, inQuotes: bool, begun: bool)
    ensures Split(Slashes(m) + rest, cur, k, inQuotes, begun) == Split(rest, cur, k + m, inQuotes, begun || m > 0)
  {
    if m == 0 {
      assert Slashes(0) + rest == rest;
    } else {
      assert Slashes(m) + rest == ['\\'] + (Slashes(m - 1) + rest);
      SplitSlashes(m - 1, rest, cur, k + 1, inQuotes, true);
    }
  }

  /** Inside quotes the body is read back as the argument, and the closing quote closes. */
  lemma {:induction false} BodyIsRead(arg: string, k: nat, cur: string, rest: string)
    ensures Split(Body(arg, k) + ['"'] + rest, cur, 0, true, true)
              == Split(rest, cur + Slashes(k) + arg, 0, false, true)
    decreases |arg|
  {
    if arg == [] {
      assert Body(arg, k) + ['"'] + rest == Slashes(2 * k) + (['"'] + rest);
      SplitSlashes(2 * k, ['"'] + rest, cur, 0, true, true);
      assert (['"'] + rest)[1..] == rest;
      assert cur + Slashes(k) + arg == cur + Slashes(k);
    } else if arg[0] == '\\' {
      BodyIsRead(arg[1..], k + 1, cur, rest);
      SlashesAdd(k, 1);
      assert Slashes(1) == ['\\'];
      assert cur + Slashes(k + 1) + arg[1..] == cur + Slashes(k) + arg;
    } else if arg[0] == '"' {
      QuoteIsRead(arg, k, cur, rest);
    } else {
      PlainIsRead(arg, k, cur, rest);
    }
  }

  lemma {:induction false} QuoteIsRead(arg: string, k: nat, cur: string, rest: string)
    requires arg != [] && arg[0] == '"'
    ensures Split(Body(arg, k) + ['"'] + rest, cur, 0, true, true)
              == Split(rest, cur + Slashes(k) + arg, 0, false, true)
    decreases |arg|, 0
  {
    var tail := Body(arg[1..], 0) + ['"'] + rest;
    assert Body(arg, k) + ['"'] + rest == Slashes(2 * k + 1) + (['"'] + tail);
    SplitSlashes(2 * k + 1, ['"'] + tail, cur, 0, true, true);
    assert (['"'] + tail)[1..] == tail;
    assert (2 * k + 1) / 2 == k && (2 * k + 1) % 2 == 1;
    var next := cur + Slashes(k) + ['"'];
    BodyIsRead(arg[1..], 0, next, rest);
    assert next + Slashes(0) + arg[1..] == cur + Slashes(k) + arg;
  }

  lemma {:induction false} PlainIsRead(arg: string, k: nat, cur: string, rest: string)
    requires arg != [] && arg[0] != '"' && arg[0] != '\\'
    ensures Split(Body(arg, k) + ['"'] + rest, cur, 0, true, true)
              == Split(rest, cur + Slashes(k) + arg, 0, false, true)
    decreases |arg|, 0
  {
    var tail := Body(arg[1..], 0) + ['"'] + rest;
    assert Body(arg, k) + ['"'] + rest == Slashes(k) + ([arg[0]] + tail);
    SplitSlashes(k, [arg[0]] + tail, cur, 0, true, true);
    assert ([arg[0]] + tail)[1..] == tail;
    var next := cur + Slashes(k) + [arg[0]];
    BodyIsRead(arg[1..], 0, next, rest);
    assert next + Slashes(0) + arg[1..] == cur + Slashes(k) + arg;
  }

  /** A quoted argument at the head of a command line is the first argument. */
  lemma QuotedIsRead(arg: string, rest: string)
    ensures Split(Quoted(arg) + rest, [], 0, false, false) == Split(rest, arg, 0, false, true)
  {
    TwoPassesAreOne(arg, 0);
    var tail := Body(arg, 0) + ['"'] + rest;
    assert Quoted(arg) + rest == ['"'] + tail;
    assert (['"'] + tail)[1..] == tail;
    assert [] + Slashes(0) == [];
    BodyIsRead(arg, 0, [], rest);
    assert [] + Slashes(0) + arg == arg;
  }

  lemma {:induction false} QuotedAllAreRead(args: seq<string>)
    ensures Arguments(Joined(QuotedAll(args))) == args
  {
    if |args| == 1 {
      QuotedIsRead(args[0], []);
      assert Quoted(args[0]) + [] == Quoted(args[0]);
      assert args[0] + Slashes(0) == args[0];
      assert QuotedAll(args) == [Quoted(args[0])];
    } else if |args| > 1 {
      QuotedAllAreRead(args[1..]);
      var tail := [' '] + Joined(QuotedAll(args[1..]));
      assert QuotedAll(args)[1..] == QuotedAll(args[1..]) && |QuotedAll(args[1..])| > 0;
      assert Joined(QuotedAll(args)) == Quoted(args[0]) + tail;
      QuotedIsRead(args[0], tail);
      assert tail[1..] == Joined(QuotedAll(args[1..]));
      assert args[0] + Slashes(0) == args[0];
    }
  }

  /** Whatever the arguments are (empty, with quotes, with backslashes before a quote or at the end,
   *  with blanks or anything special to cmd.exe), two rounds of caret removal and the splitting rules
   *  give back exactly that list. */
  lemma ArgumentsSurvive(args: seq<string>)
    ensures var line := Joined(EscapedAll(args));
            Arguments(RemoveCarets(RemoveCarets(line, false), false)) == args
  {
    EscapedTwice(args);
    CaretsComeOffAll(CaretedAll(QuotedAll(args)));
    CaretsComeOffAll(QuotedAll(args));
    QuotedAllAreRead(args);
  }

  /** One round is enough for an argument that is escaped once. */
  lemma OneRoundForOneEscape(arg: string)
    ensures Arguments(RemoveCarets(EscapeArgument(arg, false), false)) == [arg]
  {
    CaretsComeOff(Quoted(arg), []);
    assert Careted(Quoted(arg)) + [] == Careted(Quoted(arg)) && Quoted(arg) + [] == Quoted(arg);
    QuotedAllAreRead([arg]);
    assert QuotedAll([arg]) == [Quoted(arg)];
  }

  /** The whole line that `resolveSpawnCommand` builds: the shim, escaped once, and the arguments. */
  function ShimLine(command: string, args: seq<string>): string {
    Joined([Careted(command)] + EscapedAll(args))
  }

  /** After its first round cmd.exe sees the shim as it is, followed by arguments that survive the
   *  second round and the splitting. */
  lemma ShimGetsItsArguments(command: string, args: seq<string>)
    ensures var once := Joined(CaretedAll(QuotedAll(args)));
            && RemoveCarets(ShimLine(command, args), false) == (if args == [] then command else command + [' '] + once)
            && Arguments(RemoveCarets(once, false)) == args
  {
    EscapedTwice(args);
    var parts := [command] + CaretedAll(QuotedAll(args));
    assert parts[1..] == CaretedAll(QuotedAll(args));
    assert CaretedAll(parts) == [Careted(command)] + EscapedAll(args);
    CaretsComeOffAll(parts);
    CaretsComeOffAll(QuotedAll(args));
    QuotedAllAreRead(args);
  }
}
