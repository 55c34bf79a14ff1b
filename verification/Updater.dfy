/** SteamCMD's output, a line at a time, and its result (server-manager/src/updater.ts). */
module SteamUpdates {
  import opened Texts
  import opened Wrappers

  predicate IsBreak(c: char) {
    c == '\r' || c == '\n'
  }

  /** `split(/\r\n|\r|\n/)`: the pieces between line breaks, a CR LF being one. */
  function Split(s: string): (r: seq<string>)
    ensures r != []
    ensures forall i, j :: 0 <= i < |r| && 0 <= j < |r[i]| ==> !IsBreak(r[i][j])
  {
    if s == [] then [[]]
    else if s[0] == '\r' && |s| > 1 && s[1] == '\n' then [[]] + Split(s[2..])
    else if IsBreak(s[0]) then [[]] + Split(s[1..])
    else
      var r := Split(s[1..]);
      [[s[0]] + r[0]] + r[1..]
  }

  /** The text whose pieces and line breaks are these. */
  ghost function Rejoined(pieces: seq<string>, breaks: seq<string>): string
    requires |pieces| == |breaks| + 1
  {
    if breaks == [] then pieces[0] else pieces[0] + breaks[0] + Rejoined(pieces[1..], breaks[1..])
  }

  /** A line break that is not the first half of one. */
  ghost predicate WholeBreak(line: string, rest: string) {
    line == "\r\n" || line == "\n" || (line == "\r" && (rest == [] || rest[0] != '\n'))
  }

  /** Nothing is lost between two pieces but one line break, and a CR LF is one. */
  ghost predicate SplitAt(s: string, pieces: seq<string>, breaks: seq<string>) {
    && |pieces| == |breaks| + 1 && Rejoined(pieces, breaks) == s
    && forall i :: 0 <= i < |breaks| ==> WholeBreak(breaks[i], Rejoined(pieces[i + 1..], breaks[i + 1..]))
  }

  lemma AddBreak(s: string, pieces: seq<string>, breaks: seq<string>, line: string)
    requires SplitAt(s, pieces, breaks) && WholeBreak(line, s)
    ensures SplitAt(line + s, [[]] + pieces, [line] + breaks)
  {
    var p, b := [[]] + pieces, [line] + breaks;
    assert p[1..] == pieces && b[1..] == breaks;
    assert [] + line + s == line + s;
    forall i | 0 <= i < |b| ensures WholeBreak(b[i], Rejoined(p[i + 1..], b[i + 1..])) {
      if i > 0 {
        assert b[i] == breaks[i - 1];
        assert p[i + 1..] == pieces[i..] && b[i + 1..] == breaks[i..];
      }
    }
  }

  lemma AddChar(s: string, pieces: seq<string>, breaks: seq<string>, c: char)
    requires SplitAt(s, pieces, breaks)
    ensures SplitAt([c] + s, [[c] + pieces[0]] + pieces[1..], breaks)
  {
    var p := [[c] + pieces[0]] + pieces[1..];
    if breaks != [] {
      assert p[1..] == pieces[1..];
      var rest := Rejoined(pieces[1..], breaks[1..]);
      assert [c] + (pieces[0] + breaks[0] + rest) == [c] + pieces[0] + breaks[0] + rest;
    }
    forall i | 0 <= i < |breaks| ensures WholeBreak(breaks[i], Rejoined(p[i + 1..], breaks[i + 1..])) {
      assert p[i + 1..] == pieces[i + 1..];
    }
  }

  /** The pieces, rejoined by line breaks, are the text; each break is taken whole. */
  lemma {:induction false} SplitRejoins(s: string) returns (breaks: seq<string>)
    ensures SplitAt(s, Split(s), breaks)
  {
    hide SplitAt, WholeBreak;
    breaks := [];
    if s == [] {
      NothingSplit();
    } else if s[0] == '\r' && |s| > 1 && s[1] == '\n' {
      breaks := SplitRejoins(s[2..]);
      assert s == "\r\n" + s[2..];
      BreakIsWhole("\r\n", s[2..]);
      AddBreak(s[2..], Split(s[2..]), breaks, "\r\n");
      breaks := ["\r\n"] + breaks;
    } else if IsBreak(s[0]) {
      breaks := SplitRejoins(s[1..]);
      assert s == [s[0]] + s[1..];
      BreakIsWhole([s[0]], s[1..]);
      AddBreak(s[1..], Split(s[1..]), breaks, [s[0]]);
      breaks := [[s[0]]] + breaks;
    } else {
      breaks := SplitRejoins(s[1..]);
      assert s == [s[0]] + s[1..];
      AddChar(s[1..], Split(s[1..]), breaks, s[0]);
    }
  }

  lemma NothingSplit()
    ensures SplitAt([], [[]], [])
  {
  }

  lemma BreakIsWhole(line: string, rest: string)
    requires line == "\r\n" || (|line| == 1 && IsBreak(line[0]) && !(line[0] == '\r' && rest != [] && rest[0] == '\n'))
    ensures WholeBreak(line, rest)
  {
  }

  function NonBlank(lines: seq<string>): seq<string> {
    if lines == [] then []
    else
      var n := |lines| - 1;
      NonBlank(lines[..n]) + if Blank(lines[n]) then [] else [lines[n]]
  }

  function Init(lines: seq<string>): seq<string>
    requires lines != []
  {
    lines[..|lines| - 1]
  }

  function Last(lines: seq<string>): string
    requires lines != []
  {
    lines[|lines| - 1]
  }

  predicate CutBetween(x: string, y: string) {
    x != [] && y != [] && x[|x| - 1] == '\r' && y[0] == '\n'
  }

  lemma {:induction false} NonBlankJoin(a: seq<string>, b: seq<string>)
    ensures NonBlank(a + b) == NonBlank(a) + NonBlank(b)
  {
    hide Blank;
    if b == [] {
      assert a + b == a;
    } else {
      var n := |b| - 1;
      NonBlankJoin(a, b[..n]);
      assert (a + b)[..|a + b| - 1] == a + b[..n];
    }
  }

  lemma {:induction false} NoBreaks(s: string)
    requires forall i :: 0 <= i < |s| ==> !IsBreak(s[i])
    ensures Split(s) == [s]
  {
    if s != [] {
      NoBreaks(s[1..]);
      assert [s[0]] + s[1..] == s;
    }
  }

  lemma SplitCrLf(s: string)
    ensures Split("\r\n" + s) == [[]] + Split(s)
  {
    assert ("\r\n" + s)[2..] == s;
  }

  lemma SplitBreak(c: char, s: string)
    requires IsBreak(c) && !(c == '\r' && s != [] && s[0] == '\n')
    ensures Split([c] + s) == [[]] + Split(s)
  {
    assert ([c] + s)[1..] == s;
  }

  lemma SplitChar(c: char, s: string)
    requires !IsBreak(c)
    ensures Split([c] + s) == [[c] + Split(s)[0]] + Split(s)[1..]
  {
    assert ([c] + s)[1..] == s;
  }

  /**
   * Splitting text cut anywhere: the last piece so far goes on, but for a CR LF cut in two, which ends one line, not two.
   */
  ghost predicate Joins(x: string, y: string) {
    if CutBetween(x, y) then
      Last(Split(x)) == [] && |Split(x)| > 1 && Split(x + y) == Init(Split(x)) + Split(y[1..])
    else Split(x + y) == Init(Split(x)) + Split(Last(Split(x)) + y)
  }

  lemma {:induction false} SplitJoin(x: string, y: string)
    ensures Joins(x, y)
    decreases |x|
  {
    hide Split, Joins, IsBreak;
    if x == [] {
      JoinEmpty(y);
    } else if x[0] == '\r' && |x| > 1 && x[1] == '\n' {
      SplitJoin(x[2..], y);
      assert x == "\r\n" + x[2..];
      JoinCrLf(x[2..], y);
    } else if x == "\r" {
      JoinCr(y);
    } else if IsBreak(x[0]) {
      SplitJoin(x[1..], y);
      assert x == [x[0]] + x[1..];
      JoinBreak(x[0], x[1..], y);
    } else {
      SplitJoin(x[1..], y);
      assert x == [x[0]] + x[1..];
      JoinChar(x[0], x[1..], y);
    }
  }

  lemma JoinEmpty(y: string)
    ensures Joins([], y)
  {
    assert Split([]) == [[]] && [] + y == y;
    assert Init([[]]) + Split(y) == Split(y);
  }

  lemma JoinCrLf(x: string, y: string)
    requires Joins(x, y)
    ensures Joins("\r\n" + x, y)
  {
    hide Split;
    var r := Split(x);
    SplitCrLf(x);
    SplitCrLf(x + y);
    assert "\r\n" + x + y == "\r\n" + (x + y);
    assert Init([[]] + r) == [[]] + Init(r) && Last([[]] + r) == Last(r);
    assert CutBetween("\r\n" + x, y) <==> CutBetween(x, y);
  }

  lemma JoinCr(y: string)
    ensures Joins("\r", y)
  {
    SplitBreak('\r', []);
    assert ['\r'] + [] == "\r" && Split([]) == [[]];
    assert Init([[], []]) == [[]] && [] + y == y;
    if CutBetween("\r", y) {
      SplitCrLf(y[1..]);
      assert "\r" + y == "\r\n" + y[1..];
    } else {
      SplitBreak('\r', y);
    }
  }

  lemma JoinBreak(c: char, x: string, y: string)
    requires Joins(x, y) && IsBreak(c) && !(c == '\r' && (x == [] || x[0] == '\n'))
    ensures Joins([c] + x, y)
  {
    hide Split;
    var r := Split(x);
    SplitBreak(c, x);
    SplitBreak(c, x + y);
    assert [c] + x + y == [c] + (x + y);
    assert Init([[]] + r) == [[]] + Init(r) && Last([[]] + r) == Last(r);
    assert CutBetween([c] + x, y) <==> CutBetween(x, y);
  }

  lemma JoinChar(c: char, x: string, y: string)
    requires Joins(x, y) && !IsBreak(c)
    ensures Joins([c] + x, y)
  {
    hide Split;
    var r := Split(x);
    SplitChar(c, x);
    SplitChar(c, x + y);
    assert [c] + x + y == [c] + (x + y);
    assert CutBetween([c] + x, y) <==> CutBetween(x, y);
    if |r| == 1 {
      assert Init(r) + Split(Last(r) + y) == Split(r[0] + y);
      SplitChar(c, r[0] + y);
      assert [c] + (r[0] + y) == [c] + r[0] + y;
      assert Init([[c] + r[0]]) + Split([c] + r[0] + y) == Split([c] + r[0] + y);
    } else {
      var s := [[c] + r[0]] + r[1..];
      assert Init(s) == [[c] + r[0]] + Init(r)[1..] && Last(s) == Last(r);
    }
  }

  // ----- chunks -----

  function Concat(chunks: seq<string>): string {
    if chunks == [] then [] else Concat(chunks[..|chunks| - 1]) + chunks[|chunks| - 1]
  }

  datatype State = State(done: bool, partial: string, lines: seq<string>, code: Option<int>)

  const INITIAL: State := State(false, [], [], None)

  function Push(s: State, chunk: string): State {
    var parts := Split(s.partial + chunk);
    s.(partial := Last(parts), lines := s.lines + NonBlank(Init(parts)))
  }

  function Finish(s: State, code: int): State {
    if s.done then s
    else State(true, [], s.lines + (if Blank(s.partial) then [] else [s.partial]), Some(code))
  }

  function PushAll(s: State, chunks: seq<string>): State {
    if chunks == [] then s else Push(PushAll(s, chunks[..|chunks| - 1]), chunks[|chunks| - 1])
  }

  lemma CutLosesNothing(x: string, y: string)
    ensures NonBlank(Split(x + y)) == NonBlank(Init(Split(x))) + NonBlank(Split(Last(Split(x)) + y))
  {
    SplitJoin(x, y);
    if CutBetween(x, y) {
      SplitBreak('\n', y[1..]);
      assert ['\n'] + y[1..] == y && [] + y == y;
      hide Split, NonBlank;
      NonBlankJoin([[]], Split(y[1..]));
      NonBlankJoin(Init(Split(x)), Split(y[1..]));
      OneLine([]);
      assert [] + NonBlank(Split(y[1..])) == NonBlank(Split(y[1..]));
    } else {
      hide Split, NonBlank;
      NonBlankJoin(Init(Split(x)), Split(Last(Split(x)) + y));
    }
  }

  lemma NoLines()
    ensures NonBlank([]) == []
  {
  }

  lemma OneLine(line: string)
    ensures NonBlank([line]) == if Blank(line) then [] else [line]
  {
    assert [line][..0] == [];
  }

  /** What has been passed on, and what is still to come whatever `rest` the output goes on with. */
  lemma {:induction false} PushedSoFar(s: State, chunks: seq<string>, rest: string)
    ensures var r := PushAll(s, chunks);
            r.lines + NonBlank(Split(r.partial + rest)) == s.lines + NonBlank(Split(s.partial + Concat(chunks) + rest))
    ensures PushAll(s, chunks).done == s.done && PushAll(s, chunks).code == s.code
  {
    hide Split, NonBlank;
    if chunks == [] {
      assert s.partial + Concat(chunks) + rest == s.partial + rest;
    } else {
      var n := |chunks| - 1;
      var before, chunk := PushAll(s, chunks[..n]), chunks[n];
      PushedSoFar(s, chunks[..n], chunk + rest);
      assert s.partial + Concat(chunks[..n]) + (chunk + rest) == s.partial + Concat(chunks) + rest;
      assert before.partial + (chunk + rest) == before.partial + chunk + rest;
      PushPasses(before, chunk, rest);
    }
  }

  lemma PushPasses(s: State, chunk: string, rest: string)
    ensures var r := Push(s, chunk);
            r.lines + NonBlank(Split(r.partial + rest)) == s.lines + NonBlank(Split(s.partial + chunk + rest))
  {
    hide Split, NonBlank;
    CutLosesNothing(s.partial + chunk, rest);
  }

  lemma PartialIsOneLine(s: State, chunks: seq<string>)
    requires Split(s.partial) == [s.partial]
    ensures var partial := PushAll(s, chunks).partial; Split(partial) == [partial]
  {
    if chunks != [] {
      var before := PushAll(s, chunks[..|chunks| - 1]);
      NoBreaks(Last(Split(before.partial + chunks[|chunks| - 1])));
    }
  }

  /** What a run of chunks adds, when the last piece is taken for a line. */
  lemma PushedInAll(s: State, chunks: seq<string>)
    requires s.partial == []
    ensures var r := PushAll(s, chunks);
            && r.lines + NonBlank([r.partial]) == s.lines + NonBlank(Split(Concat(chunks)))
            && r.done == s.done && r.code == s.code
  {
    NoBreaks([]);
    PartialIsOneLine(s, chunks);
    hide Split, NonBlank, PushAll;
    PushedSoFar(s, chunks, []);
    var r := PushAll(s, chunks);
    assert r.partial + [] == r.partial;
    assert [] + Concat(chunks) + [] == Concat(chunks);
  }

  /**
   * However the output is cut into chunks, a CR and its LF in different ones included, the lines passed on by the time the
   * process ends are exactly the non-blank lines of the whole output, in order, each once.
   */
  lemma LinesOfTheWhole(chunks: seq<string>, code: int)
    ensures var r := Finish(PushAll(INITIAL, chunks), code);
            r.lines == NonBlank(Split(Concat(chunks))) && r.done && r.code == Some(code) && r.partial == []
  {
    hide Split, NonBlank, PushAll;
    PushedInAll(INITIAL, chunks);
    OneLine(PushAll(INITIAL, chunks).partial);
    assert [] + NonBlank(Split(Concat(chunks))) == NonBlank(Split(Concat(chunks)));
  }

  /** Only the first end counts. */
  lemma OneResult(s: State, first: int, second: int)
    requires !s.done
    ensures Finish(Finish(s, first), second) == Finish(s, first)
  {
  }

  // ----- a child handle that reports its end before its last output -----

  /** The last piece kept is the last piece of all the output so far. */
  lemma {:induction false} LastKept(s: State, chunks: seq<string>)
    requires s.partial == []
    ensures PushAll(s, chunks).partial == Last(Split(Concat(chunks)))
  {
    hide Split, NonBlank;
    if chunks == [] {
      NoBreaks([]);
    } else {
      var n := |chunks| - 1;
      LastKept(s, chunks[..n]);
      SameLast(Concat(chunks[..n]), chunks[n]);
    }
  }

  lemma SameLast(x: string, y: string)
    ensures Last(Split(x + y)) == Last(Split(Last(Split(x)) + y))
  {
    SplitJoin(x, y);
    if CutBetween(x, y) {
      SplitBreak('\n', y[1..]);
      assert ['\n'] + y[1..] == y && [] + y == y;
    }
    hide Split;
  }

  /** What output after the end adds: its own lines but the last piece. */
  lemma LateOutput(before: seq<string>, code: int, after: seq<string>)
    ensures var r := PushAll(Finish(PushAll(INITIAL, before), code), after);
            r.lines == NonBlank(Split(Concat(before))) + NonBlank(Init(Split(Concat(after))))
  {
    hide Split, NonBlank, PushAll;
    LinesOfTheWhole(before, code);
    var s := Finish(PushAll(INITIAL, before), code);
    PushedInAll(s, after);
    LastKept(s, after);
    var lines, pieces := PushAll(s, after).lines, Split(Concat(after));
    assert Init(pieces) + [Last(pieces)] == pieces;
    NonBlankJoin(Init(pieces), [Last(pieces)]);
    SameTail(lines, s.lines + NonBlank(Init(pieces)), NonBlank([Last(pieces)]));
  }

  lemma SameTail(a: seq<string>, b: seq<string>, tail: seq<string>)
    requires a + tail == b + tail
    ensures a == b
  {
    assert a == (a + tail)[..|a|] && b == (b + tail)[..|b|];
  }

  /** A piece with no break in it goes on into the first piece of what follows. */
  lemma {:induction false} SplitAfterPiece(p: string, y: string)
    requires forall i :: 0 <= i < |p| ==> !IsBreak(p[i])
    ensures Split(p + y) == [p + Split(y)[0]] + Split(y)[1..]
  {
    hide Split, IsBreak;
    if p == [] {
      assert p + y == y && [] + Split(y)[0] == Split(y)[0];
    } else {
      SplitAfterPiece(p[1..], y);
      SplitChar(p[0], p[1..] + y);
      assert p + y == [p[0]] + (p[1..] + y) && [p[0]] + (p[1..] + Split(y)[0]) == p + Split(y)[0];
    }
  }

  lemma BlankJoin(p: string, q: string)
    ensures Blank(p + q) <==> Blank(p) && Blank(q)
  {
    hide IsSpace;
    if Blank(p + q) {
      assert forall i :: 0 <= i < |p| ==> p[i] == (p + q)[i];
      assert forall i :: 0 <= i < |q| ==> q[i] == (p + q)[|p| + i];
    }
  }

  /** The line `p` was passed on, then `q` and `middle`, but not `last`: nothing is amiss exactly when `whole` holds. */
  lemma TornLine(p: string, q: string, middle: seq<string>, last: string)
    ensures NonBlank([p]) + (NonBlank([q]) + middle) == NonBlank([p + q]) + (middle + NonBlank([last])) <==>
            Blank(last) && (p == [] || q == [] || (Blank(p) && Blank(q)))
  {
    OneLine(p);
    OneLine(q);
    OneLine(p + q);
    OneLine(last);
    BlankJoin(p, q);
    hide NonBlank;
    assert p == [] ==> Blank(p) && p + q == q;
    assert q == [] ==> Blank(q) && p + q == p;
    hide Blank;
    var got, whole := NonBlank([p]) + (NonBlank([q]) + middle), NonBlank([p + q]) + (middle + NonBlank([last]));
    assert |got| == |NonBlank([p])| + |NonBlank([q])| + |middle|;
    assert |whole| == |NonBlank([p + q])| + |middle| + |NonBlank([last])|;
    if got == whole && got != [] && !Blank(p + q) {
      assert got[0] == whole[0] == p + q;
      assert |p + q| == |p| + |q|;
    }
  }

  /** The same when the late output has no break: it is all one piece. */
  lemma TornWord(p: string, q: string)
    ensures NonBlank([p]) == NonBlank([p + q]) <==> Blank(q) && (p == [] || q == [] || (Blank(p) && Blank(q)))
  {
    OneLine(p);
    OneLine(p + q);
    BlankJoin(p, q);
    hide NonBlank;
    assert p == [] ==> Blank(p) && p + q == q;
    assert q == [] ==> Blank(q) && p + q == p;
    assert |p + q| == |p| + |q|;
  }

  /**
   * With a handle that reports the end while output is still to come, the lines passed on are those of the whole exactly
   * when the end fell on a line boundary, or beside nothing but white space, and the last late piece is blank.
   */
  lemma LateOutputExactly(before: seq<string>, code: int, after: seq<string>)
    ensures var r := PushAll(Finish(PushAll(INITIAL, before), code), after);
            var p, late := Last(Split(Concat(before))), Split(Concat(after));
            r.lines == NonBlank(Split(Concat(before) + Concat(after))) <==>
              Blank(Last(late)) && (p == [] || late[0] == [] || (Blank(p) && Blank(late[0])))
  {
    LateOutput(before, code, after);
    hide Split, NonBlank, PushAll, Blank, Concat;
    var x, y := Concat(before), Concat(after);
    var pieces, late := Split(x), Split(y);
    var p, q := Last(pieces), late[0];
    CutLosesNothing(x, y);
    SplitAfterPiece(p, y);
    assert Init(pieces) + [p] == pieces;
    NonBlankJoin(Init(pieces), [p]);
    NonBlankJoin([p + q], late[1..]);
    var head := NonBlank(Init(pieces));
    if |late| == 1 {
      NoLines();
      assert Init(late) == [] && late[1..] == [];
      TornWord(p, q);
      SameHead(head, NonBlank([p]), NonBlank([p + q]));
      assert NonBlank([p]) + [] == NonBlank([p]) && NonBlank([p + q]) + [] == NonBlank([p + q]);
    } else {
      var middle := late[1..|late| - 1];
      assert Init(late) == [q] + middle && late[1..] == middle + [Last(late)];
      NonBlankJoin([q], middle);
      NonBlankJoin(middle, [Last(late)]);
      TornLine(p, q, NonBlank(middle), Last(late));
      SameHead(head, NonBlank([p]) + NonBlank(Init(late)), NonBlank([p + q]) + NonBlank(late[1..]));
    }
  }

  lemma SameHead(head: seq<string>, a: seq<string>, b: seq<string>)
    ensures head + a == head + b <==> a == b
  {
    if head + a == head + b { assert a == (head + a)[|head|..] && b == (head + b)[|head|..]; }
  }

  // ----- the closure's variables -----

  class SteamUpdate {
    var done: bool
    var partial: string
    var code: Option<int>
    var lines: seq<string>

    ghost function View(): State
      reads this
    {
      State(done, partial, lines, code)
    }

    constructor ()
      ensures View() == INITIAL
    {
      done, partial, code, lines := false, [], None, [];
    }

    /** `onLine`; a listener that throws changes nothing. */
    method Emit(line: string)
      modifies this`lines
      ensures lines == old(lines) + [line]
    {
      lines := lines + [line];
    }

    method OnOutput(chunk: string)
      modifies this
      ensures View() == Push(old(View()), chunk)
    {
      hide Split, NonBlank, Blank;
      var parts := Split(partial + chunk);
      var whole := parts[..|parts| - 1];
      partial := parts[|parts| - 1];
      NoLines();
      for i := 0 to |whole|
        invariant lines == old(lines) + NonBlank(whole[..i])
        invariant partial == Last(parts) && done == old(done) && code == old(code)
      {
        assert whole[..i + 1] == whole[..i] + [whole[i]];
        NonBlankJoin(whole[..i], [whole[i]]);
        OneLine(whole[i]);
        if !Blank(whole[i]) { Emit(whole[i]); }
      }
      assert whole[..|whole|] == whole;
    }

    method End(exitCode: int) returns (ok: bool)
      modifies this
      ensures View() == Finish(old(View()), exitCode)
      ensures ok <==> code == Some(0)
    {
      if !done {
        done := true;
        if !Blank(partial) { Emit(partial); }
        partial := [];
        code := Some(exitCode);
      }
      ok := code == Some(0);
    }

    /** SteamCMD could not be started, or reported an error. */
    method OnError(message: string) returns (ok: bool)
      modifies this
      ensures View() == Finish(old(View()).(lines := old(lines) + [message]), -1)
    {
      Emit(message);
      ok := End(-1);
    }
  }
}
