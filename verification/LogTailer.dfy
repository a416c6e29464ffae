/**
 The log tailer: a growing file is read in pieces, a poll at a time, each read as short as the
 system likes. The lines that come out are those of the file, as if it had been read at once.

 Opening the file, its size and how much a read returned are parameters. What a line means is not
 part of this model.
 */
module LogTailer {
  import opened Common

  const ReplayBytes: nat := 4194304
  const MaxBytesPerPoll: nat := 1048576

  /** A line with the file position of its first byte, and whether it was there at the first poll. */
  datatype Line = Line(start: nat, text: string, historical: bool)

  // ---------------------------------------------------------------------------
  // Lines of a text
  // ---------------------------------------------------------------------------

  /** Where the first newline is, or the length. */
  function Newline(text: string): (n: nat)
    ensures n <= |text| && (n < |text| ==> text[n] == '\n')
    ensures forall i :: 0 <= i < n ==> text[i] != '\n'
  {
    if text == "" || text[0] == '\n' then 0 else 1 + Newline(text[1..])
  }

  /** The newline-terminated lines, the text beginning at `base` in its file. */
  function LinesOf(text: string, base: nat, replayEnd: nat): seq<Line>
    decreases |text|
  {
    var n := Newline(text);
    if n == |text| then []
    else [Line(base, text[..n], base < replayEnd)] + LinesOf(text[n + 1..], base + n + 1, replayEnd)
  }

  /** What follows the last newline. */
  function Rest(text: string): (rest: string)
    ensures |rest| <= |text|
    decreases |text|
  {
    var n := Newline(text);
    if n == |text| then text else Rest(text[n + 1..])
  }

  function Joined(lines: seq<Line>): string {
    if lines == [] then "" else lines[0].text + "\n" + Joined(lines[1..])
  }

  /** The lines, each with its newline, and the rest are the text again. */
  lemma {:induction false} LinesRoundTrip(text: string, base: nat, replayEnd: nat)
    ensures Joined(LinesOf(text, base, replayEnd)) + Rest(text) == text
    ensures '\n' !in Rest(text)
    decreases |text|
  {
    hide LinesOf, Rest, Newline, Joined;
    OneLine(text, base, replayEnd);
    NewlineIs(text);
    var n := Newline(text);
    if n == |text| {
      assert Joined([]) == "" by { NothingJoined(); }
      assert "" + text == text;
    } else {
      var tail := text[n + 1..];
      LinesRoundTrip(tail, base + n + 1, replayEnd);
      var rest := LinesOf(tail, base + n + 1, replayEnd);
      var first := Line(base, text[..n], base < replayEnd);
      JoinedMore(first, rest);
      Rejoined(first.text, Joined(rest), Rest(tail), tail);
      assert text == text[..n] + "\n" + tail;
    }
  }

  lemma NothingJoined()
    ensures Joined([]) == ""
  {
  }

  lemma JoinedMore(first: Line, rest: seq<Line>)
    ensures Joined([first] + rest) == first.text + "\n" + Joined(rest)
  {
    assert ([first] + rest)[1..] == rest;
  }

  lemma Rejoined(a: string, b: string, c: string, tail: string)
    requires b + c == tail
    ensures (a + "\n" + b) + c == a + "\n" + tail
  {
  }

  predicate LineAt(text: string, base: nat, line: Line, replayEnd: nat) {
    && '\n' !in line.text && (line.historical <==> line.start < replayEnd)
    && base <= line.start && line.start - base + |line.text| < |text|
    && text[line.start - base..line.start - base + |line.text|] == line.text
    && text[line.start - base + |line.text|] == '\n'
  }

  /** Each line is where it says, ends in a newline and holds none. */
  lemma {:induction false} LinesAreThere(text: string, base: nat, replayEnd: nat, i: nat)
    requires i < |LinesOf(text, base, replayEnd)|
    ensures LineAt(text, base, LinesOf(text, base, replayEnd)[i], replayEnd)
    decreases i
  {
    hide LinesOf, Newline, LineAt;
    OneLine(text, base, replayEnd);
    FirstLineIsThere(text, base, replayEnd);
    var n := Newline(text);
    if i > 0 {
      var tail := text[n + 1..];
      LinesAreThere(tail, base + n + 1, replayEnd, i - 1);
      ShiftedLine(text, n + 1, base, LinesOf(tail, base + n + 1, replayEnd)[i - 1], replayEnd);
    }
  }

  lemma FirstLineIsThere(text: string, base: nat, replayEnd: nat)
    ensures var n := Newline(text); n < |text| ==> LineAt(text, base, Line(base, text[..n], base < replayEnd), replayEnd)
  {
    hide Newline;
    NewlineIs(text);
  }

  lemma ShiftedLine(text: string, skipped: nat, base: nat, line: Line, replayEnd: nat)
    requires skipped <= |text| && LineAt(text[skipped..], base + skipped, line, replayEnd)
    ensures LineAt(text, base, line, replayEnd)
  {
    var at := line.start - base - skipped;
    assert text[skipped..][at..at + |line.text|] == text[at + skipped..at + skipped + |line.text|];
  }

  lemma NewlineAppend(a: string, b: string)
    ensures Newline(a + b) == if Newline(a) < |a| then Newline(a) else |a| + Newline(b)
  {
    if a == "" {
      assert a + b == b;
    } else {
      assert (a + b)[1..] == a[1..] + b;
      if a[0] != '\n' {
        NewlineAppend(a[1..], b);
      }
    }
  }

  /** Reading on only needs the unfinished line: more text splits as the rest of before, continued. */
  lemma {:induction false} LinesAppend(a: string, b: string, base: nat, replayEnd: nat)
    ensures LinesOf(a + b, base, replayEnd) ==
            LinesOf(a, base, replayEnd) + LinesOf(Rest(a) + b, base + |a| - |Rest(a)|, replayEnd)
    ensures Rest(a + b) == Rest(Rest(a) + b)
    decreases |a|
  {
    hide LinesOf, Rest;
    var n := Newline(a);
    NewlineAppend(a, b);
    OneLine(a, base, replayEnd);
    if n < |a| {
      var tail := a[n + 1..];
      OneLine(a + b, base, replayEnd);
      assert (a + b)[..n] == a[..n];
      assert (a + b)[n + 1..] == tail + b;
      LinesAppend(tail, b, base + n + 1, replayEnd);
      assert base + n + 1 + |tail| - |Rest(tail)| == base + |a| - |Rest(a)|;
    }
  }

  lemma OneLine(text: string, base: nat, replayEnd: nat)
    ensures var n := Newline(text);
            if n == |text| then LinesOf(text, base, replayEnd) == [] && Rest(text) == text
            else LinesOf(text, base, replayEnd) ==
                 [Line(base, text[..n], base < replayEnd)] + LinesOf(text[n + 1..], base + n + 1, replayEnd)
                 && Rest(text) == Rest(text[n + 1..])
  {
  }

  method SplitLines(text: string, base: nat, replayEnd: nat) returns (lines: seq<Line>, rest: string)
    ensures lines == LinesOf(text, base, replayEnd) && rest == Rest(text)
  {
    hide LinesOf, Rest;
    lines := [];
    var lineStart := 0;
    assert text[0..] == text;
    while true
      invariant 0 <= lineStart <= |text|
      invariant LinesOf(text, base, replayEnd) == lines + LinesOf(text[lineStart..], base + lineStart, replayEnd)
      invariant Rest(text) == Rest(text[lineStart..])
      decreases |text| - lineStart
    {
      OneLine(text[lineStart..], base + lineStart, replayEnd);
      var n := Find(text, lineStart);
      if n == |text| {
        break;
      }
      assert text[lineStart..][..n - lineStart] == text[lineStart..n];
      assert text[lineStart..][n - lineStart + 1..] == text[n + 1..];
      lines := lines + [Line(base + lineStart, text[lineStart..n], base + lineStart < replayEnd)];
      lineStart := n + 1;
    }
    rest := text[lineStart..];
  }

  /** The first newline from a position on. */
  method Find(text: string, from: nat) returns (n: nat)
    requires from <= |text|
    ensures n == from + Newline(text[from..])
  {
    n := from;
    while n < |text| && text[n] != '\n'
      invariant from <= n <= |text| && from + Newline(text[from..]) == n + Newline(text[n..])
    {
      assert text[n..][1..] == text[n + 1..];
      n := n + 1;
    }
  }

  // ---------------------------------------------------------------------------
  // One read after another
  // ---------------------------------------------------------------------------

  predicate NoNewline(read: string, from: nat, to: nat)
    requires to <= |read|
  {
    forall i :: from <= i < to ==> read[i] != '\n'
  }

  /** Where the first whole line begins, a file being entered at `start`: after the line that is cut. */
  predicate IsFirstLine(read: string, start: nat, first: nat) {
    if start == 0 then first == 0
    else start < first <= |read| && read[first - 1] == '\n' && NoNewline(read, start, first - 1)
  }

  /** What a tailer keeps is what it has read: the unfinished line, and the lines it has given. */
  predicate Follows(read: string, start: nat, first: nat, replayEnd: nat, skipping: bool, partial: string,
                    given: seq<Line>)
  {
    if skipping then
      0 < start <= |read| && NoNewline(read, start, |read|) && partial == "" && given == []
    else
      && IsFirstLine(read, start, first) && first <= |read|
      && given == LinesOf(read[first..], first, replayEnd) && partial == Rest(read[first..])
  }

  /** Still inside the line the reading began in. */
  lemma SkippingOn(read: string, buf: string, start: nat, first: nat, replayEnd: nat, partial: string, given: seq<Line>)
    requires Follows(read, start, first, replayEnd, true, partial, given) && Newline(buf) == |buf|
    ensures Follows(read + buf, start, first, replayEnd, true, partial, given)
  {
  }

  /** That line ends here, and the first whole one begins. */
  lemma SkippingEnds(read: string, buf: string, tail: string, next: nat, start: nat, first: nat, replayEnd: nat,
                     partial: string, given: seq<Line>)
    requires Follows(read, start, first, replayEnd, true, partial, given)
    requires Newline(buf) < |buf| && tail == buf[Newline(buf) + 1..] && next == |read| + Newline(buf) + 1
    ensures Follows(read + buf, start, next, replayEnd, false, Rest(tail), given + LinesOf(tail, next, replayEnd))
  {
    hide LinesOf, Rest, IsFirstLine, NoNewline;
    CutLineEnds(read, buf, start);
    assert (read + buf)[next..] == tail;
    hide Newline;
    assert given + LinesOf(tail, next, replayEnd) == LinesOf(tail, next, replayEnd);
  }

  lemma NewlineIs(text: string)
    ensures Newline(text) <= |text| && (Newline(text) < |text| ==> text[Newline(text)] == '\n')
    ensures NoNewline(text, 0, Newline(text))
  {
  }

  lemma CutLineEnds(read: string, buf: string, start: nat)
    requires 0 < start <= |read| && NoNewline(read, start, |read|) && Newline(buf) < |buf|
    ensures IsFirstLine(read + buf, start, |read| + Newline(buf) + 1)
  {
    hide NoNewline, Newline;
    NewlineIs(buf);
    assert (read + buf)[|read| + Newline(buf)] == buf[Newline(buf)];
    NoneInBoth(read, buf, start, Newline(buf));
  }

  lemma NoneInBoth(read: string, buf: string, start: nat, n: nat)
    requires start <= |read| && NoNewline(read, start, |read|) && n <= |buf| && NoNewline(buf, 0, n)
    ensures NoNewline(read + buf, start, |read| + n)
  {
    forall i | start <= i < |read| + n ensures (read + buf)[i] != '\n' {
      assert (read + buf)[i] == if i < |read| then read[i] else buf[i - |read|];
    }
  }

  /** The unfinished line goes on. */
  lemma FollowingOn(read: string, buf: string, start: nat, first: nat, replayEnd: nat, partial: string, given: seq<Line>)
    requires Follows(read, start, first, replayEnd, false, partial, given)
    ensures |partial| <= |read|
    ensures Follows(read + buf, start, first, replayEnd, false, Rest(partial + buf),
                    given + LinesOf(partial + buf, |read| - |partial|, replayEnd))
  {
    assert (read + buf)[first..] == read[first..] + buf;
    LinesAppend(read[first..], buf, first, replayEnd);
    assert IsFirstLine(read + buf, start, first);
    hide LinesOf, Rest, IsFirstLine;
  }

  function Least(a: nat, b: nat): nat { if a < b then a else b }

  class Tailer {
    var partial: string
    var offset: nat
    var replayEnd: nat
    var primed: bool
    var skipToNextLine: bool
    var available: bool
    var linesSeen: nat
    var rotations: nat

    // What has been read of the file there now, where the reading and its first whole line began, and the
    // lines it gave.
    ghost var read: string
    ghost var start: nat
    ghost var first: nat
    ghost var given: seq<Line>

    ghost predicate Valid()
      reads this
    {
      primed ==> |read| == offset && Follows(read, start, first, replayEnd, skipToNextLine, partial, given)
    }

    constructor ()
      ensures Valid() && !primed && linesSeen == 0 && given == []
    {
      partial, offset, replayEnd, primed, skipToNextLine := "", 0, 0, false, false;
      available, linesSeen, rotations := false, 0, 0;
      read, start, first, given := "", 0, 0, [];
    }

    /** The file is entered: at its tail the first time, at its beginning after a rotation. */
    method Enter(at: nat, end: nat, ghost before: string)
      requires |before| == at
      modifies `partial, `offset, `replayEnd, `primed, `skipToNextLine, `read, `start, `first, `given
      ensures Valid() && primed && read == before && start == at && offset == at && replayEnd == end && given == []
    {
      primed, offset, replayEnd, skipToNextLine, partial := true, at, end, at > 0, "";
      read, start, first, given := before, at, 0, [];
    }

    /** One read's worth of bytes. */
    method Feed(buf: string) returns (out: seq<Line>)
      requires Valid() && primed
      modifies `partial, `offset, `skipToNextLine, `linesSeen, `read, `first, `given
      ensures Valid() && read == old(read) + buf && given == old(given) + out
      ensures linesSeen == old(linesSeen) + |out|
    {
      hide Follows, LinesOf, Rest, Newline;
      var consumed := offset;
      offset := offset + |buf|;
      if skipToNextLine {
        // What stands before the first newline is the tail of a line that is not wanted.
        var n := Find(buf, 0);
        assert buf[0..] == buf;
        if n == |buf| {
          SkippingOn(read, buf, start, first, replayEnd, partial, given);
          read := read + buf;
          return [];
        }
        var tail := buf[n + 1..];
        SkippingEnds(read, buf, tail, consumed + n + 1, start, first, replayEnd, partial, given);
        skipToNextLine := false;
        first := consumed + n + 1;
        out, partial := SplitLines(tail, consumed + n + 1, replayEnd);
      } else {
        FollowingOn(read, buf, start, first, replayEnd, partial, given);
        out, partial := SplitLines(partial + buf, consumed - |partial|, replayEnd);
      }
      linesSeen := linesSeen + |out|;
      read, given := read + buf, given + out;
    }

    /**
     One poll of a file of which a read returns at most `got` bytes. Of a file that only grows, all
     the polls together give its whole lines from the first one entered, once each and in order,
     however the file grew and however short the reads were.
     */
    method Poll(file: Option<string>, got: nat) returns (out: seq<Line>)
      requires Valid()
      requires primed && file.Some? && |file.value| >= offset ==> file.value[..offset] == read
      modifies this
      ensures Valid()
      ensures file.None? ==> out == [] && given == old(given) && read == old(read) && primed == old(primed)
      ensures file.Some? ==> primed && read <= file.value
      ensures file.Some? && !old(primed) ==>
                && start == (if |file.value| > ReplayBytes then |file.value| - ReplayBytes else 0)
                && replayEnd == |file.value| && given == out
                && offset == start + Least(got, Least(|file.value| - start, MaxBytesPerPoll))
      ensures file.Some? && old(primed) && |file.value| >= old(offset) ==>
                && start == old(start) && replayEnd == old(replayEnd) && given == old(given) + out
                && offset == old(offset) + Least(got, Least(|file.value| - old(offset), MaxBytesPerPoll))
      ensures file.Some? && old(primed) && |file.value| < old(offset) ==>
                && rotations == old(rotations) + 1 && start == 0 && replayEnd == 0 && given == out
                && offset == Least(got, Least(|file.value|, MaxBytesPerPoll))
    {
      hide Follows;
      out := [];
      if file.None? {
        available := false;
        return;
      }
      available := true;
      var size := |file.value|;
      if !primed {
        var at := if size > ReplayBytes then size - ReplayBytes else 0;
        Enter(at, size, file.value[..at]);
      } else if size < offset {
        Enter(0, 0, "");
        rotations := rotations + 1;
      }
      if size == offset {
        return;
      }
      var want := Least(size - offset, MaxBytesPerPoll);
      var buf := file.value[offset..offset + Least(got, want)];
      if buf == "" {
        return;
      }
      assert file.value[..offset] + buf == file.value[..offset + |buf|];
      out := Feed(buf);
    }
  }

  /** However a file was polled, once as much of it has been read the same lines were given. */
  lemma ChunkingIsInvisible(a: Tailer, b: Tailer)
    requires a.Valid() && b.Valid() && a.primed && b.primed
    requires a.read == b.read && a.start == b.start && a.replayEnd == b.replayEnd
    ensures a.given == b.given && a.partial == b.partial
  {
    if !a.skipToNextLine && !b.skipToNextLine {
      OneFirstLine(a.read, a.start, a.first, b.first);
    }
    hide LinesOf, Rest;
  }

  lemma OneFirstLine(read: string, start: nat, a: nat, b: nat)
    requires IsFirstLine(read, start, a) && IsFirstLine(read, start, b)
    ensures a == b
  {
  }
}
