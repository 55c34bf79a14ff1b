/**
 * Which command line runs the configured server, and watching a process the app did not spawn
 * (server-manager/src/leftoverServer.ts). `comparable` is a path as compared, and `sameName` whether two paths have the
 * same file name; both depend on the platform.
 */
module ServerCommands {
  import opened Texts
  import opened Wrappers

  datatype Match = Ours | Maybe | Other

  datatype Platform = Platform(comparable: string -> string, sameName: (string, string) -> bool)

  datatype Token = Token(token: string, rest: string)

  function IndexOf(s: string, c: char): (r: Option<nat>)
    ensures r.Some? ==> r.value < |s| && s[r.value] == c && c !in s[..r.value]
    ensures r.None? ==> c !in s
  {
    if s == [] then None
    else if s[0] == c then Some(0)
    else
      var r := IndexOf(s[1..], c);
      assert s == [s[0]] + s[1..];
      if r.None? then None
      else
        assert s[..r.value + 1] == [s[0]] + s[1..][..r.value];
        Some(r.value + 1)
  }

  function Head(text: string, n: nat): string {
    if n <= |text| then text[..n] else text
  }

  /** The line starts with this path, whole, and goes on with a space or not at all. */
  predicate StartsWithPath(p: Platform, text: string, path: string) {
    && path != [] && (|text| <= |path| || text[|path|] == ' ')
    && p.comparable(Head(text, |path|)) == p.comparable(path)
  }

  function FirstKnown(p: Platform, text: string, known: seq<string>): (r: Option<string>)
    ensures r.Some? ==> StartsWithPath(p, text, r.value) && FirstIn(p, text, known, r.value)
    ensures r.None? ==> forall k :: k in known ==> !StartsWithPath(p, text, k)
  {
    if known == [] then None
    else if StartsWithPath(p, text, known[0]) then assert FirstIn(p, text, known, known[0]); Some(known[0])
    else
      var r := FirstKnown(p, text, known[1..]);
      assert r.Some? ==> FirstIn(p, text, known, r.value) by {
        if r.Some? {
          var i :| 0 <= i < |known| - 1 && known[1..][i] == r.value
            && forall j :: 0 <= j < i ==> !StartsWithPath(p, text, known[1..][j]);
          assert known[i + 1] == r.value;
          forall j | 0 <= j < i + 1 ensures !StartsWithPath(p, text, known[j]) {
            if j > 0 { assert known[j] == known[1..][j - 1]; }
          }
        }
      }
      r
  }

  /** `path` is a known one, and the line starts with none of those before it. */
  ghost predicate FirstIn(p: Platform, text: string, known: seq<string>, path: string) {
    exists i :: 0 <= i < |known| && known[i] == path && forall j :: 0 <= j < i ==> !StartsWithPath(p, text, known[j])
  }

  function FirstToken(p: Platform, line: string, known: seq<string>): Token {
    TokenOf(p, TrimStart(line), known)
  }

  /** The first token of a line that starts with no blank. */
  function TokenOf(p: Platform, text: string, known: seq<string>): Token {
    if text != [] && text[0] == '"' then
      var end := IndexOf(text[1..], '"');
      if end.None? then Token(text[1..], []) else Token(text[1..][..end.value], text[1..][end.value + 1..])
    else
      var k := FirstKnown(p, text, known);
      if k.Some? then
        var head := Head(text, |k.value|);
        Token(head, text[|head|..])
      else
        var space := IndexOf(text, ' ');
        if space.None? then Token(text, []) else Token(text[..space.value], text[space.value..])
  }

  function Known(serverExe: string, viaNode: Option<string>): seq<string> {
    if viaNode.None? then [serverExe] else [serverExe, viaNode.value]
  }

  /** argv[0], or argv[1] when argv[0] is the app's own Electron under the end-to-end switch. */
  function Executable(p: Platform, line: string, serverExe: string, viaNode: Option<string>): string {
    var first := FirstToken(p, line, Known(serverExe, viaNode));
    if viaNode.Some? && p.comparable(first.token) == p.comparable(viaNode.value)
      then FirstToken(p, first.rest, Known(serverExe, viaNode)).token
      else first.token
  }

  function ServerCommandMatch(p: Platform, line: string, serverExe: string, viaNode: Option<string>): Match {
    if Blank(line) || serverExe == [] then Other
    else
      var token := Executable(p, line, serverExe, viaNode);
      if token == [] then Other
      else if p.comparable(token) == p.comparable(serverExe) then Ours
      else if p.sameName(token, serverExe) then Maybe
      else Other
  }

  // ----- which lines are the server's -----

  lemma TrimStep(s: string)
    requires s != []
    ensures TrimStart(s) == if IsSpace(s[0]) then TrimStart(s[1..]) else s
  {
  }

  lemma NotBlank(lead: string, s: string)
    requires s != [] && !IsSpace(s[0])
    ensures !Blank(lead + s)
  {
    hide IsSpace;
    assert (lead + s)[|lead|] == s[0];
  }

  lemma {:induction false} Trimmed(lead: string, s: string)
    requires Blank(lead) && s != [] && !IsSpace(s[0])
    ensures TrimStart(lead + s) == s && !Blank(lead + s)
  {
    hide IsSpace, TrimStart, Blank;
    NotBlank(lead, s);
    TrimStep(lead + s);
    if lead == [] {
      assert lead + s == s;
    } else {
      BlankStep(lead);
      assert (lead + s)[1..] == lead[1..] + s && (lead + s)[0] == lead[0];
      Trimmed(lead[1..], s);
    }
  }

  lemma BlankStep(s: string)
    requires Blank(s) && s != []
    ensures IsSpace(s[0]) && Blank(s[1..])
  {
    hide IsSpace;
  }

  lemma {:induction false} IndexOfFirst(s: string, c: char, rest: string)
    requires c !in s
    ensures IndexOf(s + [c] + rest, c) == Some(|s|)
  {
    var t := s + [c] + rest;
    if s == [] {
      assert t == [c] + rest;
    } else {
      IndexOfFirst(s[1..], c, rest);
      assert t[1..] == s[1..] + [c] + rest;
    }
  }

  function Quoted(token: string): string {
    ['"'] + token + ['"']
  }

  /** A quoted token is read up to its closing quote. */
  lemma QuotedToken(p: Platform, lead: string, token: string, rest: string, known: seq<string>)
    requires Blank(lead) && '"' !in token
    ensures FirstToken(p, lead + (Quoted(token) + rest), known) == Token(token, rest)
    ensures !Blank(lead + (Quoted(token) + rest))
  {
    Trimmed(lead, Quoted(token) + rest);
    hide TrimStart, Blank, TokenOf;
    InQuotes(p, token, rest, known);
  }

  lemma InQuotes(p: Platform, token: string, rest: string, known: seq<string>)
    requires '"' !in token
    ensures TokenOf(p, Quoted(token) + rest, known) == Token(token, rest)
  {
    hide StartsWithPath, FirstKnown, IndexOf;
    var text := Quoted(token) + rest;
    assert text[1..] == token + ['"'] + rest;
    IndexOfFirst(token, '"', rest);
    assert text[1..][..|token|] == token && text[1..][|token| + 1..] == rest;
  }

  /** A quote that is never closed is read up to the end of the line. */
  lemma UnclosedToken(p: Platform, lead: string, token: string, known: seq<string>)
    requires Blank(lead) && '"' !in token
    ensures FirstToken(p, lead + (['"'] + token), known) == Token(token, [])
    ensures !Blank(lead + (['"'] + token))
  {
    Trimmed(lead, ['"'] + token);
    hide TrimStart, Blank, StartsWithPath, FirstKnown;
    assert (['"'] + token)[1..] == token;
  }

  ghost predicate Ends(arguments: string) {
    arguments == [] || arguments[0] == ' '
  }

  function FirstWord(text: string): (word: string)
    ensures word <= text && ' ' !in word && (|word| < |text| ==> text[|word|] == ' ')
  {
    var space := IndexOf(text, ' ');
    if space.None? then text else text[..space.value]
  }

  /** A line that is not blank and starts with no quote. */
  ghost predicate Unquoted(text: string) {
    text != [] && !IsSpace(text[0]) && text[0] != '"'
  }

  /** Unquoted, the token is the known path the line starts with, else its first word. */
  lemma UnquotedToken(p: Platform, lead: string, text: string, exe: string)
    requires Blank(lead) && Unquoted(text)
    ensures FirstToken(p, lead + text, [exe]).token ==
            if StartsWithPath(p, text, exe) then Head(text, |exe|) else FirstWord(text)
    ensures !Blank(lead + text)
  {
    Trimmed(lead, text);
    OneKnown(p, text, exe);
    hide TrimStart, Blank, IsSpace, FirstKnown, IndexOf, StartsWithPath;
  }

  lemma OneKnown(p: Platform, text: string, exe: string)
    ensures FirstKnown(p, text, [exe]) == if StartsWithPath(p, text, exe) then Some(exe) else None
  {
  }

  /** What is answered of a line whose executable is `token`. */
  ghost predicate Answers(p: Platform, line: string, exe: string, token: string) {
    && (ServerCommandMatch(p, line, exe, None) == Ours <==> token != [] && p.comparable(token) == p.comparable(exe))
    && (ServerCommandMatch(p, line, exe, None) == Maybe <==>
          token != [] && p.comparable(token) != p.comparable(exe) && p.sameName(token, exe))
  }

  /** A quoted path, its closing quote there or not, is the server exactly when it compares equal to the configured one. */
  lemma QuotedExactly(p: Platform, lead: string, path: string, arguments: string, exe: string)
    requires Blank(lead) && '"' !in path && exe != []
    ensures Answers(p, lead + (Quoted(path) + arguments), exe, path)
    ensures Answers(p, lead + (['"'] + path), exe, path)
  {
    hide FirstToken, Blank;
    QuotedToken(p, lead, path, arguments, [exe]);
    UnclosedToken(p, lead, path, [exe]);
  }

  /**
   * Unquoted, as `ps` prints it, exactly when the line starts with a path that compares equal to the configured one and is
   * as long, or its first word compares equal. With QuotedExactly these are all the lines that are not blank.
   */
  lemma UnquotedExactly(p: Platform, lead: string, text: string, exe: string)
    requires Blank(lead) && Unquoted(text) && exe != []
    ensures ServerCommandMatch(p, lead + text, exe, None) == Ours <==>
            StartsWithPath(p, text, exe) || p.comparable(FirstWord(text)) == p.comparable(exe)
    ensures !StartsWithPath(p, text, exe) ==> Answers(p, lead + text, exe, FirstWord(text))
  {
    UnquotedToken(p, lead, text, exe);
    WordFound(text);
    hide FirstToken, Blank, IsSpace, FirstWord, ServerCommandMatch;
    var token := if StartsWithPath(p, text, exe) then Head(text, |exe|) else FirstWord(text);
    hide StartsWithPath;
    Answered(p, lead + text, exe, token);
    if StartsWithPath(p, text, exe) { HeadFound(p, text, exe); }
  }

  lemma Answered(p: Platform, line: string, exe: string, token: string)
    requires !Blank(line) && exe != [] && FirstToken(p, line, [exe]).token == token
    ensures Answers(p, line, exe, token)
  {
    hide FirstToken, Blank;
  }

  lemma WordFound(text: string)
    requires Unquoted(text)
    ensures FirstWord(text) != []
  {
    assert IsSpace(' ');
    hide IsSpace, IndexOf;
  }

  lemma HeadFound(p: Platform, text: string, exe: string)
    requires text != [] && exe != [] && StartsWithPath(p, text, exe)
    ensures Head(text, |exe|) != [] && p.comparable(Head(text, |exe|)) == p.comparable(exe)
  {
  }

  /** Every line that is not blank is of one of these three shapes. */
  lemma EveryLine(line: string) returns (lead: string, text: string, path: string, arguments: string)
    requires !Blank(line)
    ensures Blank(lead) && line == lead + text && '"' !in path
    ensures Unquoted(text) || text == Quoted(path) + arguments || text == ['"'] + path
  {
    hide IsSpace, TrimStart, IndexOf;
    text, path, arguments := TrimStart(line), [], [];
    lead := line[..|line| - |text|];
    assert text == [] ==> lead == line;
    if !Unquoted(text) { path, arguments := OpenQuote(text); }
  }

  lemma OpenQuote(text: string) returns (path: string, arguments: string)
    requires text != [] && text[0] == '"'
    ensures '"' !in path && (text == Quoted(path) + arguments || text == ['"'] + path)
  {
    hide IndexOf;
    var rest := text[1..];
    match IndexOf(rest, '"') {
      case None => path, arguments := rest, [];
      case Some(n) => path, arguments := rest[..n], rest[n + 1..];
    }
  }

  /**
   * So the configured server, at any path that compares equal, is recognised unquoted when that path is as long as the
   * configured one or has no space; and otherwise exactly when what the line starts with compares equal.
   */
  lemma SameServerUnquoted(p: Platform, path: string, arguments: string, exe: string)
    requires Unquoted(path) && Ends(arguments) && exe != []
    requires p.comparable(path) == p.comparable(exe)
    ensures |path| == |exe| || ' ' !in path ==> ServerCommandMatch(p, path + arguments, exe, None) == Ours
    ensures ServerCommandMatch(p, path + arguments, exe, None) == Ours <==>
            StartsWithPath(p, path + arguments, exe) || p.comparable(FirstWord(path + arguments)) == p.comparable(exe)
  {
    var text := path + arguments;
    assert text[0] == path[0] && [] + text == text;
    hide ServerCommandMatch;
    UnquotedExactly(p, [], text, exe);
    if |path| == |exe| {
      assert Head(text, |exe|) == path;
      assert arguments != [] ==> text[|exe|] == arguments[0];
    } else if ' ' !in path {
      WholeWord(path, arguments);
    }
  }

  lemma WholeWord(path: string, arguments: string)
    requires ' ' !in path && Ends(arguments)
    ensures FirstWord(path + arguments) == path
  {
    hide IndexOf;
    if arguments == [] {
      assert path + arguments == path;
    } else {
      IndexOfFirst(path, ' ', arguments[1..]);
      assert path + arguments == path + [' '] + arguments[1..];
    }
  }

  /** A blank line, or no configured server, matches nothing. */
  lemma NothingToMatch(p: Platform, line: string, exe: string, viaNode: Option<string>)
    requires Blank(line) || exe == []
    ensures ServerCommandMatch(p, line, exe, viaNode) == Other
  {
    hide Blank, Executable;
  }

  /** What is answered of a line under the end-to-end switch when the executable judged is `token`. */
  ghost predicate AnswersVia(p: Platform, line: string, exe: string, node: string, token: string) {
    && (ServerCommandMatch(p, line, exe, Some(node)) == Ours <==> token != [] && p.comparable(token) == p.comparable(exe))
    && (ServerCommandMatch(p, line, exe, Some(node)) == Maybe <==>
          token != [] && p.comparable(token) != p.comparable(exe) && p.sameName(token, exe))
  }

  /**
   * Under the end-to-end switch a line that runs the app's own Electron is judged by its second token, and any other line by
   * its first.
   */
  lemma ViaNodeExactly(p: Platform, exe: string, node: string, first: string, lead: string, second: string, arguments: string)
    requires exe != [] && '"' !in first && '"' !in second && Blank(lead)
    ensures var line := Quoted(first) + (lead + (Quoted(second) + arguments));
            AnswersVia(p, line, exe, node, if p.comparable(first) == p.comparable(node) then second else first)
  {
    hide FirstToken, Blank, Quoted;
    QuotedFirst(p, first, lead + (Quoted(second) + arguments), [exe, node]);
    QuotedToken(p, lead, second, arguments, [exe, node]);
  }

  lemma QuotedFirst(p: Platform, token: string, rest: string, known: seq<string>)
    requires '"' !in token
    ensures FirstToken(p, Quoted(token) + rest, known) == Token(token, rest) && !Blank(Quoted(token) + rest)
  {
    hide FirstToken, Quoted;
    QuotedToken(p, [], token, rest, known);
    assert [] + (Quoted(token) + rest) == Quoted(token) + rest;
  }

  // ----- a server in another folder -----

  /** `posix.basename` */
  function BaseName(path: string): string {
    if path == [] then []
    else if path[|path| - 1] == '/' then []
    else BaseName(path[..|path| - 1]) + [path[|path| - 1]]
  }

  /** Where `ps` is asked, for paths that have nothing to normalise. */
  const POSIX: Platform := Platform(path => path, (a, b) => BaseName(a) == BaseName(b))

  lemma Names()
    ensures BaseName("/a") == "a" && BaseName("/a b/F") == "F" == BaseName("/c/F")
  {
    assert "/a"[..1] == "/" && "/a b/F"[..5] == "/a b/" && "/c/F"[..3] == "/c/";
    assert BaseName("/") == "" && BaseName("/a b/") == "" && BaseName("/c/") == "";
  }

  /**
   * The same server program in another folder is doubtful when it is read quoted. Read unquoted, with a space in its path,
   * it is cut at the space and taken for another program.
   */
  lemma OtherFolder()
    ensures ServerCommandMatch(POSIX, "/a b/F -log", "/a b/F", None) == Ours
    ensures ServerCommandMatch(POSIX, Quoted("/a b/F") + " -log", "/c/F", None) == Maybe
    ensures ServerCommandMatch(POSIX, "/a b/F -log", "/c/F", None) == Other
  {
    hide ServerCommandMatch;
    OwnFolder();
    QuotedElsewhere();
    UnquotedElsewhere();
  }

  lemma OwnFolder()
    ensures ServerCommandMatch(POSIX, "/a b/F -log", "/a b/F", None) == Ours
  {
    hide ServerCommandMatch, StartsWithPath, FirstWord;
    SameServerUnquoted(POSIX, "/a b/F", " -log", "/a b/F");
    assert "/a b/F" + " -log" == "/a b/F -log";
  }

  lemma QuotedElsewhere()
    ensures ServerCommandMatch(POSIX, Quoted("/a b/F") + " -log", "/c/F", None) == Maybe
  {
    hide ServerCommandMatch, BaseName, Quoted;
    Names();
    QuotedExactly(POSIX, [], "/a b/F", " -log", "/c/F");
    assert [] + (Quoted("/a b/F") + " -log") == Quoted("/a b/F") + " -log";
  }

  lemma UnquotedElsewhere()
    ensures ServerCommandMatch(POSIX, "/a b/F -log", "/c/F", None) == Other
  {
    var line := "/a b/F -log";
    assert [] + line == line && "/a" + " b/F -log" == line;
    assert line[4] == '/' && !StartsWithPath(POSIX, line, "/c/F");
    hide ServerCommandMatch, BaseName, StartsWithPath, FirstWord;
    Names();
    WholeWord("/a", " b/F -log");
    UnquotedExactly(POSIX, [], line, "/c/F");
  }
}

/** `watchPid`: a handle on an adopted process, polled until it is gone. Callbacks are numbered as they register. */
module PidWatches {
  datatype Answer = StillOurs | NotOurs | CheckFailed

  datatype Watch = Watch(
    checked: bool,      // made with `stillOurs`
    ended: bool,
    polling: bool,
    callbacks: nat,
    checks: nat,        // `stillOurs` calls not yet answered
    told: seq<nat>,     // the callbacks called, in order
    kills: nat)

  function Initial(checked: bool): Watch {
    Watch(checked, false, true, 0, 0, [], 0)
  }

  function End(w: Watch): Watch {
    if w.ended then w
    else w.(ended := true, polling := false, told := w.told + seq(w.callbacks, i => i))
  }

  datatype Event =
    | OnExit
    | Poll(alive: bool)
    | Kill
    | Checked(answer: Answer)

  function Step(w: Watch, e: Event): Watch {
    match e
    case OnExit => w.(callbacks := w.callbacks + 1)
    case Poll(alive) => if w.polling && !alive then End(w) else w
    case Kill =>
      if w.ended then w
      else if w.checked then w.(checks := w.checks + 1)
      else w.(kills := w.kills + 1)
    case Checked(answer) =>
      if w.checks == 0 then w
      else
        var w1 := w.(checks := w.checks - 1);
        match answer
        case StillOurs => w1.(kills := w1.kills + 1)
        case NotOurs => End(w1)
        case CheckFailed => w1
  }

  function Run(checked: bool, events: seq<Event>): Watch {
    if events == [] then Initial(checked) else Step(Run(checked, events[..|events| - 1]), events[|events| - 1])
  }

  function Registered(events: seq<Event>): nat {
    if events == [] then 0
    else Registered(events[..|events| - 1]) + if events[|events| - 1].OnExit? then 1 else 0
  }

  ghost predicate ToldInOrder(w: Watch) {
    && w.polling == !w.ended && |w.told| <= w.callbacks
    && (forall i :: 0 <= i < |w.told| ==> w.told[i] == i)
    && (!w.ended ==> w.told == [])
  }

  lemma StepTells(w: Watch, e: Event)
    requires ToldInOrder(w)
    ensures ToldInOrder(Step(w, e)) && Step(w, e).callbacks == w.callbacks + if e.OnExit? then 1 else 0
  {
  }

  /** Each callback registered before the end is called once, in order; one registered after it is never called. */
  lemma {:induction false} EndIsToldOnce(checked: bool, events: seq<Event>)
    ensures var w := Run(checked, events); w.callbacks == Registered(events) && ToldInOrder(w)
  {
    hide ToldInOrder;
    if events != [] {
      EndIsToldOnce(checked, events[..|events| - 1]);
      StepTells(Run(checked, events[..|events| - 1]), events[|events| - 1]);
    } else {
      assert ToldInOrder(Initial(checked)) by { NothingTold(checked); }
    }
  }

  lemma NothingTold(checked: bool)
    ensures ToldInOrder(Initial(checked))
  {
  }

  /** The end reaches every callback registered so far, at the moment it is found, and nobody after that. */
  lemma FoundGoneIsTold(checked: bool, events: seq<Event>, e: Event)
    ensures var w, r := Run(checked, events), Run(checked, events + [e]);
            && (w.ended ==> r.ended && r.told == w.told)
            && (!w.ended && r.ended ==>
                  |r.told| == Registered(events) && (e == Poll(false) || e == Checked(NotOurs)))
  {
    EndIsToldOnce(checked, events);
    assert (events + [e])[..|events|] == events;
  }

  function Answered(events: seq<Event>): nat {
    if events == [] then 0
    else Answered(events[..|events| - 1]) + if events[|events| - 1] == Checked(StillOurs) then 1 else 0
  }

  /** With a check, a process is killed only on an answer that it is still the server, and a failed check changes nothing. */
  lemma {:induction false} KilledOnlyWhenOurs(events: seq<Event>)
    ensures Run(true, events).kills <= Answered(events) && Run(true, events).checked
    ensures var w := Run(true, events);
            w.checks > 0 ==> Step(w, Checked(CheckFailed)) == w.(checks := w.checks - 1)
  {
    if events != [] { KilledOnlyWhenOurs(events[..|events| - 1]); }
  }

  // ----- exactly when -----

  /** The process was found gone, by a poll or by the answer to a check still awaited. */
  ghost predicate FoundGone(checked: bool, events: seq<Event>) {
    events != [] &&
    var before, last := events[..|events| - 1], events[|events| - 1];
    || FoundGone(checked, before)
    || last == Poll(false)
    || (last == Checked(NotOurs) && Awaiting(checked, before) > 0)
  }

  /** How many checks are asked and not answered: with a check, one for each `kill` of a process not known gone. */
  ghost function Awaiting(checked: bool, events: seq<Event>): nat {
    if events == [] then 0
    else
      var before, last := events[..|events| - 1], events[|events| - 1];
      var n := Awaiting(checked, before);
      if last.Kill? && checked && !FoundGone(checked, before) then n + 1
      else if last.Checked? && n > 0 then n - 1
      else n
  }

  /** How often the process was killed: without a check at once, with one on each answer that it is still the server. */
  ghost function Killed(checked: bool, events: seq<Event>): nat {
    if events == [] then 0
    else
      var before, last := events[..|events| - 1], events[|events| - 1];
      Killed(checked, before)
        + (if last.Kill? && !checked && !FoundGone(checked, before) then 1 else 0)
        + (if last == Checked(StillOurs) && Awaiting(checked, before) > 0 then 1 else 0)
  }

  lemma StepWatches(w: Watch, e: Event)
    requires w.polling == !w.ended
    ensures var r := Step(w, e);
            && r.checked == w.checked && r.polling == !r.ended
            && (r.ended <==> w.ended || e == Poll(false) || (e == Checked(NotOurs) && w.checks > 0))
            && r.checks == (if e.Kill? && w.checked && !w.ended then w.checks + 1
                            else if e.Checked? && w.checks > 0 then w.checks - 1
                            else w.checks)
            && r.kills == w.kills + (if e.Kill? && !w.checked && !w.ended then 1 else 0)
                            + (if e == Checked(StillOurs) && w.checks > 0 then 1 else 0)
  {
  }

  /** The handle ends, asks and kills exactly then. */
  lemma {:induction false} WatchesExactly(checked: bool, events: seq<Event>)
    ensures var w := Run(checked, events);
            && w.checked == checked && w.polling == !w.ended && (w.ended <==> FoundGone(checked, events))
            && w.checks == Awaiting(checked, events) && w.kills == Killed(checked, events)
  {
    if events != [] {
      hide Step;
      WatchesExactly(checked, events[..|events| - 1]);
      StepWatches(Run(checked, events[..|events| - 1]), events[|events| - 1]);
    }
  }

  class PidWatch {
    const checked: bool
    var ended: bool
    var polling: bool
    var exitCbs: nat
    ghost var checks: nat
    ghost var told: seq<nat>
    ghost var kills: nat

    ghost function View(): Watch
      reads this
    {
      Watch(checked, ended, polling, exitCbs, checks, told, kills)
    }

    constructor (checked: bool)
      ensures View() == Initial(checked)
    {
      this.checked := checked;
      ended, polling, exitCbs := false, true, 0;
      checks, told, kills := 0, [], 0;
    }

    method FoundGone()
      modifies this
      ensures View() == End(old(View()))
    {
      if ended { return; }
      ended := true;
      polling := false;
      ghost var before := told;
      for i := 0 to exitCbs
        invariant told == before + seq(i, k => k)
        invariant ended && !polling && exitCbs == old(exitCbs) && checks == old(checks)
        invariant kills == old(kills)
      {
        told := told + [i];
      }
    }

    method Register()
      modifies this
      ensures View() == Step(old(View()), OnExit)
    {
      exitCbs := exitCbs + 1;
    }

    method Tick(alive: bool)
      modifies this
      ensures View() == Step(old(View()), Poll(alive))
    {
      if polling && !alive { FoundGone(); }
    }

    method KillNow()
      modifies this
      ensures View() == old(View()).(kills := old(kills) + 1)
    {
      kills := kills + 1;
    }

    method AskKill()
      modifies this
      ensures View() == Step(old(View()), Kill)
    {
      if ended { return; }
      if checked { checks := checks + 1; } else { KillNow(); }
    }

    method OnChecked(answer: Answer)
      requires checks > 0
      modifies this
      ensures View() == Step(old(View()), Checked(answer))
    {
      checks := checks - 1;
      match answer {
        case StillOurs => KillNow();
        case NotOurs => FoundGone();
        case CheckFailed =>
      }
    }
  }
}
