// The two goroutines of the app-server mediator, interleaved at every step that touches
// the shared tables (cmd/slimference/codex_desktop_app_server_shim.go).
module MediatorRuns {
  import opened Basics
  import opened TextLines
  import opened JsonLines
  import opened AppServerRewrites
  import opened StreamImage
  import opened Mediator

  datatype Who = Stdin | Stdout

  // A goroutine reads a line, goes through its two locked sections and writes; a failed
  // write ends it.
  datatype Phase = Idle | Held | Noted | Looked | Stopped

  // found is the method taken for the line at hand.
  datatype Side = Side(lines: seq<string>, next: nat, phase: Phase, found: string, out: string)

  datatype State = State(
    stdin: Side, stdout: Side, requests: Table, serverRequests: Table, log: seq<Record>, crashed: bool)

  // Which goroutine moves, and whether a write succeeds.
  datatype Choice = Choice(who: Who, writeOk: bool)

  datatype Setup = Setup(codec: Codec, provider: Provider) {
    function F(who: Who): string -> Outcome {
      if who.Stdin? then s => RewriteThreadStart(codec, s) else s => RewriteConfig(codec, provider, s)
    }
  }

  function Start(stdin: string, stdout: string): State {
    State(Side(Chunks(stdin), 0, Idle, "", ""), Side(Chunks(stdout), 0, Idle, "", ""), map[], map[], [], false)
  }

  function Of(s: State, who: Who): Side {
    if who.Stdin? then s.stdin else s.stdout
  }

  function With(s: State, who: Who, side: Side): State {
    if who.Stdin? then s.(stdin := side) else s.(stdout := side)
  }

  // The first locked section notes the line's method, the second takes one for its id.
  function First(u: Setup, s: State, who: Who, content: string): State {
    if who.Stdin? then s.(requests := Remembered(u.codec, content, s.requests))
    else s.(serverRequests := ToolCallRemembered(u.codec, content, s.serverRequests),
            log := s.log + ToolRequestLog(u.codec, content))
  }

  function Second(u: Setup, s: State, who: Who, content: string): State {
    if who.Stdin? then
      s.(serverRequests := Taken(u.codec, content, s.serverRequests),
         log := s.log + ToolResponseLog(Found(u, s, who, content)))
    else s.(requests := Taken(u.codec, content, s.requests))
  }

  function Found(u: Setup, s: State, who: Who, content: string): string {
    LookedUp(u.codec, content, if who.Stdin? then s.serverRequests else s.requests)
  }

  // What becomes of the line, given the method taken for it.
  function Answer(u: Setup, who: Who, content: string, found: string): Outcome {
    if who.Stdin? then RewriteThreadStart(u.codec, content)
    else RewriteResponseContent(u.codec, u.provider, content, found).outcome
  }

  function AnswerLog(u: Setup, who: Who, content: string, found: string): seq<Record> {
    if who.Stdin? then RequestLog(RewriteThreadStart(u.codec, content))
    else ResponseLog(RewriteResponseContent(u.codec, u.provider, content, found).kind, found)
  }

  // A goroutine that cannot move leaves the state as it is.
  predicate Stuck(g: Side) {
    g.phase.Stopped? || g.next >= |g.lines|
  }

  predicate Panics(u: Setup, who: Who, g: Side)
    requires !Stuck(g)
  {
    g.phase.Looked? && Answer(u, who, Content(g.lines[g.next]), g.found).Crash?
  }

  function Moved(u: Setup, who: Who, g: Side, found: string, writeOk: bool): Side
    requires !Stuck(g)
  {
    match g.phase
    case Idle => g.(phase := Held)
    case Held => g.(phase := Noted)
    case Noted => g.(phase := Looked, found := found)
    case Looked =>
      if writeOk then
        var chunk := g.lines[g.next];
        g.(next := g.next + 1, phase := Idle, out := g.out + Written(Answer(u, who, Content(chunk), g.found), chunk))
      else g.(phase := Stopped)
  }

  // The tables and the log after the goroutine's step.
  function Shared(u: Setup, s: State, who: Who, g: Side): State
    requires !Stuck(g)
  {
    var content := Content(g.lines[g.next]);
    match g.phase
    case Idle => s
    case Held => First(u, s, who, content)
    case Noted => Second(u, s, who, content)
    case Looked => s.(log := s.log + AnswerLog(u, who, content, g.found))
  }

  function Step(u: Setup, s: State, choice: Choice): State {
    var who, g := choice.who, Of(s, choice.who);
    if s.crashed || Stuck(g) then s
    else if Panics(u, who, g) then s.(crashed := true)
    else
      var found := Found(u, s, who, Content(g.lines[g.next]));
      With(Shared(u, s, who, g), who, Moved(u, who, g, found, choice.writeOk))
  }

  // ---- one line by itself ----

  function FourSteps(u: Setup, s: State, who: Who): State {
    var turn := Choice(who, true);
    Step(u, Step(u, Step(u, Step(u, s, turn), turn), turn), turn)
  }

  // Undisturbed, a line of standard input does to the tables, the log and the output what
  // the object does with it.
  lemma StdinLine(u: Setup, s: State, line: string)
    requires !s.crashed && s.stdin.phase.Idle? && s.stdin.next < |s.stdin.lines| && s.stdin.lines[s.stdin.next] == line
    requires !RewriteThreadStart(u.codec, Content(line)).Crash?
    ensures var t := FourSteps(u, s, Stdin); var content := Content(line);
      && t.requests == Remembered(u.codec, content, s.requests)
      && t.serverRequests == Taken(u.codec, content, s.serverRequests)
      && t.log == s.log + ToolResponseLog(LookedUp(u.codec, content, s.serverRequests))
                  + RequestLog(RewriteThreadStart(u.codec, content))
      && t.stdin.out == s.stdin.out + Emit(u.F(Stdin), line) && t.stdin.next == s.stdin.next + 1
      && t.stdin.phase.Idle? && t.stdout == s.stdout && !t.crashed
  {
    hide Remembered, Taken, LookedUp, RewriteThreadStart, Content, ToolResponseLog, RequestLog, Emit, Written;
    LineNoted(u, s, Stdin, line);
    hide Second, First, Found;
    LineWritten(u, LineFound(u, s, Stdin, line), Stdin, line);
  }

  // The state after the first three turns.
  function LineFound(u: Setup, s: State, who: Who, line: string): State {
    var noted := First(u, s, who, Content(line));
    var g := Of(s, who).(phase := Looked, found := Found(u, noted, who, Content(line)));
    With(Second(u, noted, who, Content(line)), who, g)
  }

  lemma LineNoted(u: Setup, s: State, who: Who, line: string)
    requires var g := Of(s, who); !s.crashed && g.phase.Idle? && g.next < |g.lines| && g.lines[g.next] == line
    ensures var turn := Choice(who, true);
      Step(u, Step(u, Step(u, s, turn), turn), turn) == LineFound(u, s, who, line)
  {
    hide Remembered, Taken, LookedUp, ToolCallRemembered, Content, ToolResponseLog, ToolRequestLog, AnswerLog, Answer;
    var turn, g := Choice(who, true), Of(s, who);
    var held := Step(u, s, turn);
    assert held == With(s, who, g.(phase := Held));
    var noted := Step(u, held, turn);
    assert noted == With(First(u, s, who, Content(line)), who, g.(phase := Noted));
  }

  lemma LineWritten(u: Setup, s: State, who: Who, line: string)
    requires var g := Of(s, who); !s.crashed && g.phase.Looked? && g.next < |g.lines| && g.lines[g.next] == line
    requires !u.F(who)(Content(line)).Crash?
    ensures var g := Of(s, who);
      Step(u, s, Choice(who, true)) == With(s.(log := s.log + AnswerLog(u, who, Content(line), g.found)), who,
                                            g.(next := g.next + 1, phase := Idle, out := g.out + Emit(u.F(who), line)))
  {
    hide Emit, Written, Answer, AnswerLog, Content;
    AnswerIsRewrite(u, who, line, Of(s, who).found);
  }

  // A failed write ends the goroutine without output; a panic ends both; and a goroutine
  // that has stopped or read its stream takes no more turns.
  lemma EndingSteps(u: Setup, s: State, who: Who, writeOk: bool)
    requires !s.crashed
    ensures var g := Of(s, who); var t := Step(u, s, Choice(who, writeOk));
      && (g.phase.Stopped? || g.next >= |g.lines| ==> t == s)
      && (g.phase.Looked? && g.next < |g.lines| ==>
            && (u.F(who)(Content(g.lines[g.next])).Crash? ==> t == s.(crashed := true))
            && (!u.F(who)(Content(g.lines[g.next])).Crash? && !writeOk ==>
                  Of(t, who) == g.(phase := Stopped) && t.requests == s.requests
                  && t.serverRequests == s.serverRequests && !t.crashed))
    ensures Step(u, s.(crashed := true), Choice(who, writeOk)) == s.(crashed := true)
  {
    hide Emit, Written, Answer, AnswerLog, Content, Found, First, Second;
    var g := Of(s, who);
    if g.next < |g.lines| {
      AnswerIsRewrite(u, who, g.lines[g.next], g.found);
    }
  }

  // And so for standard output.
  lemma StdoutLine(u: Setup, s: State, line: string)
    requires !s.crashed && s.stdout.phase.Idle? && s.stdout.next < |s.stdout.lines|
    requires s.stdout.lines[s.stdout.next] == line && !RewriteConfig(u.codec, u.provider, Content(line)).Crash?
    ensures var t := FourSteps(u, s, Stdout); var content := Content(line);
      var found := LookedUp(u.codec, content, s.requests);
      && t.serverRequests == ToolCallRemembered(u.codec, content, s.serverRequests)
      && t.requests == Taken(u.codec, content, s.requests)
      && t.log == s.log + ToolRequestLog(u.codec, content)
                  + ResponseLog(RewriteResponseContent(u.codec, u.provider, content, found).kind, found)
      && t.stdout.out == s.stdout.out + Emit(u.F(Stdout), line) && t.stdout.next == s.stdout.next + 1
      && t.stdout.phase.Idle? && t.stdin == s.stdin && !t.crashed
  {
    hide ToolCallRemembered, Taken, LookedUp, RewriteConfig, Content, ToolRequestLog, ResponseLog, Emit, Written;
    LineNoted(u, s, Stdout, line);
    LineWritten(u, LineFound(u, s, Stdout, line), Stdout, line);
  }

  function Run(u: Setup, s: State, choices: seq<Choice>): State {
    if choices == [] then s else Step(u, Run(u, s, choices[..|choices| - 1]), choices[|choices| - 1])
  }

  // ---- what holds after every step of every run ----

  ghost predicate SideOk(f: string -> Outcome, g: Side, input: string) {
    && g.lines == Chunks(input) && g.next <= |g.lines|
    && Safe(f, g.lines[..g.next])
    && g.out == Flatten(Emitted(f, g.lines[..g.next]))
  }

  // How many lines the goroutine has noted in its table.
  function Seen(g: Side): nat {
    if g.phase == Noted || g.phase == Looked || g.phase == Stopped then g.next + 1 else g.next
  }

  // Every entry comes from one of the first n lines.
  ghost predicate From(c: Codec, table: Table, lines: seq<string>, n: nat) {
    forall id :: id in table ==>
      exists i :: 0 <= i < n && i < |lines| && Names(c, lines[i], id, table[id])
  }

  predicate Names(c: Codec, line: string, id: string, name: string) {
    IdOf(c, Content(line)) == id && MethodIn(c, Content(line)) == name
  }

  ghost predicate Inv(u: Setup, s: State, stdin: string, stdout: string) {
    && SideOk(u.F(Stdin), s.stdin, stdin)
    && SideOk(u.F(Stdout), s.stdout, stdout)
    && From(u.codec, s.requests, s.stdin.lines, Seen(s.stdin))
    && From(u.codec, s.serverRequests, s.stdout.lines, Seen(s.stdout))
    && (forall id :: id in s.serverRequests ==> s.serverRequests[id] == TOOL_CALL)
    && (s.crashed ==> !Safe(u.F(Stdin), s.stdin.lines) || !Safe(u.F(Stdout), s.stdout.lines))
  }

  // The method taken does not matter: what is written is the image of the line.
  lemma AnswerIsRewrite(u: Setup, who: Who, chunk: string, found: string)
    ensures Answer(u, who, Content(chunk), found) == u.F(who)(Content(chunk))
    ensures Written(Answer(u, who, Content(chunk), found), chunk) == Emit(u.F(who), chunk)
  {
    hide RewriteConfig, RewriteThreadStart, Written;
    FoundUnused(u.codec, u.provider, Content(chunk), found);
  }

  lemma FromRemembered(c: Codec, table: Table, lines: seq<string>, n: nat)
    requires n < |lines| && From(c, table, lines, n)
    ensures From(c, Remembered(c, Content(lines[n]), table), lines, n + 1)
    ensures From(c, ToolCallRemembered(c, Content(lines[n]), table), lines, n + 1)
  {
    hide IdOf, MethodIn, Content;
    var content := Content(lines[n]);
    forall id | id in Remembered(c, content, table)
      ensures exists i :: 0 <= i < n + 1 && i < |lines| && Names(c, lines[i], id, Remembered(c, content, table)[id])
    {
      if id == IdOf(c, content) && MethodIn(c, content) != "" && id != "" {
        assert Names(c, lines[n], id, Remembered(c, content, table)[id]);
      } else {
        assert id in table;
        var i :| 0 <= i < n && i < |lines| && Names(c, lines[i], id, table[id]);
        assert i < n + 1;
      }
    }
    FromMore(c, table, lines, n, n + 1);
  }

  lemma FromMore(c: Codec, table: Table, lines: seq<string>, n: nat, m: nat)
    requires n <= m && From(c, table, lines, n)
    ensures From(c, table, lines, m)
  {
    hide IdOf, MethodIn, Content;
  }

  lemma FromTaken(c: Codec, content: string, table: Table, lines: seq<string>, n: nat)
    requires From(c, table, lines, n)
    ensures From(c, Taken(c, content, table), lines, n)
  {
    hide IdOf, MethodIn, Content;
  }

  lemma SideAdvances(f: string -> Outcome, g: Side, input: string)
    requires SideOk(f, g, input) && g.next < |g.lines| && !f(Content(g.lines[g.next])).Crash?
    ensures SideOk(f, g.(next := g.next + 1, phase := Idle, out := g.out + Emit(f, g.lines[g.next])), input)
  {
    hide Content, Emit, Flatten, Emitted, Chunks;
    EmitOne(f, g.lines, g.next);
  }

  lemma StepInv(u: Setup, s: State, stdin: string, stdout: string, choice: Choice)
    requires Inv(u, s, stdin, stdout)
    ensures Inv(u, Step(u, s, choice), stdin, stdout)
  {
    hide From, SideOk, Remembered, Taken, ToolCallRemembered, Emit, Written, Answer, Found, AnswerLog, Content;
    hide IdOf, MethodIn, RewriteThreadStart, RewriteConfig, ToolRequestLog, ToolResponseLog;
    var who, g := choice.who, Of(s, choice.who);
    var input := if who.Stdin? then stdin else stdout;
    SidesOk(u, s, stdin, stdout);
    if !s.crashed && !Stuck(g) {
      var content := Content(g.lines[g.next]);
      var found := Found(u, s, who, content);
      match g.phase {
        case Idle =>
          SidePhase(u.F(who), g, input, Held, g.found);
        case Held =>
          SidePhase(u.F(who), g, input, Noted, g.found);
          FromRemembered(u.codec, if who.Stdin? then s.requests else s.serverRequests, g.lines, g.next);
          OnlyToolCalls(u.codec, content, s.serverRequests);
        case Noted =>
          SidePhase(u.F(who), g, input, Looked, found);
          FromTaken(u.codec, content, s.serverRequests, s.stdout.lines, Seen(s.stdout));
          FromTaken(u.codec, content, s.requests, s.stdin.lines, Seen(s.stdin));
          TakenKeeps(u.codec, content, s.serverRequests);
        case Looked =>
          AnswerIsRewrite(u, who, g.lines[g.next], g.found);
          if !u.F(who)(content).Crash? {
            SideAdvances(u.F(who), g, input);
            SidePhase(u.F(who), g, input, Stopped, g.found);
          }
      }
    }
  }

  lemma SidesOk(u: Setup, s: State, stdin: string, stdout: string)
    requires Inv(u, s, stdin, stdout)
    ensures forall who :: SideOk(u.F(who), Of(s, who), if who.Stdin? then stdin else stdout)
  {
    hide From, SideOk;
    forall who ensures SideOk(u.F(who), Of(s, who), if who.Stdin? then stdin else stdout) {
      match who { case Stdin => case Stdout => }
    }
  }

  lemma SidePhase(f: string -> Outcome, g: Side, input: string, phase: Phase, found: string)
    requires SideOk(f, g, input)
    ensures SideOk(f, g.(phase := phase, found := found), input)
  {
  }

  lemma OnlyToolCalls(c: Codec, content: string, table: Table)
    requires forall id :: id in table ==> table[id] == TOOL_CALL
    ensures var next := ToolCallRemembered(c, content, table); forall id :: id in next ==> next[id] == TOOL_CALL
  {
  }

  lemma TakenKeeps(c: Codec, content: string, table: Table)
    ensures forall id :: id in Taken(c, content, table) ==> id in table && Taken(c, content, table)[id] == table[id]
  {
  }

  lemma {:induction false} RunInv(u: Setup, stdin: string, stdout: string, choices: seq<Choice>)
    ensures Inv(u, Run(u, Start(stdin, stdout), choices), stdin, stdout)
  {
    hide Step, From;
    if choices == [] {
      NothingEmitted(u.F(Stdin));
      NothingEmitted(u.F(Stdout));
      assert From(u.codec, map[], Chunks(stdin), 0) && From(u.codec, map[], Chunks(stdout), 0) by {
        EmptyFrom(u.codec, Chunks(stdin));
        EmptyFrom(u.codec, Chunks(stdout));
      }
    } else {
      RunInv(u, stdin, stdout, choices[..|choices| - 1]);
      StepInv(u, Run(u, Start(stdin, stdout), choices[..|choices| - 1]), stdin, stdout, choices[|choices| - 1]);
    }
  }

  lemma EmptyFrom(c: Codec, lines: seq<string>)
    ensures From(c, map[], lines, 0)
  {
  }

  // ---- the outputs ----

  // Whatever the interleaving, a stream read to its end has been written as its image.
  lemma OutputIsImage(u: Setup, stdin: string, stdout: string, choices: seq<Choice>, who: Who)
    ensures var g := Of(Run(u, Start(stdin, stdout), choices), who);
      g.next == |g.lines| ==> g.out == Image(u.F(who), if who.Stdin? then stdin else stdout)
  {
    hide Run, Step, Emitted, Flatten, From;
    RunInv(u, stdin, stdout, choices);
    var s := Run(u, Start(stdin, stdout), choices);
    SidesOk(u, s, stdin, stdout);
    var g := Of(s, who);
    assert SideOk(u.F(who), g, if who.Stdin? then stdin else stdout);
    assert g.lines[..|g.lines|] == g.lines;
  }

  // The same but for the tables, the log, and the methods taken from the tables.
  ghost predicate SameBut(s: State, t: State) {
    s.stdin.(found := "") == t.stdin.(found := "") && s.stdout.(found := "") == t.stdout.(found := "")
    && s.crashed == t.crashed
  }

  // The tables never reach the outputs: runs that start with other tables write the same,
  // though they log differently.
  lemma {:induction false} TablesUnused(u: Setup, s: State, t: State, choices: seq<Choice>)
    requires SameBut(s, t)
    ensures SameBut(Run(u, s, choices), Run(u, t, choices))
  {
    hide Step, SameBut;
    if choices != [] {
      var n := |choices| - 1;
      TablesUnused(u, s, t, choices[..n]);
      StepBlind(u, Run(u, s, choices[..n]), Run(u, t, choices[..n]), choices[n]);
    }
  }

  lemma MovedBlind(u: Setup, who: Who, g: Side, h: Side, x: string, y: string, writeOk: bool)
    requires !Stuck(g) && g.(found := "") == h.(found := "")
    ensures Moved(u, who, g, x, writeOk).(found := "") == Moved(u, who, h, y, writeOk).(found := "")
    ensures Panics(u, who, g) == Panics(u, who, h)
  {
    hide Answer, Written, Content;
    assert g.lines == h.lines && g.next == h.next && g.phase == h.phase && g.out == h.out;
    AnswerIsRewrite(u, who, g.lines[g.next], g.found);
    AnswerIsRewrite(u, who, h.lines[h.next], h.found);
  }

  lemma StepBlind(u: Setup, s: State, t: State, choice: Choice)
    requires SameBut(s, t)
    ensures SameBut(Step(u, s, choice), Step(u, t, choice))
  {
    hide Shared, Moved, Panics, Found, Content;
    var who := choice.who;
    var g, h := Of(s, who), Of(t, who);
    assert g.(found := "") == h.(found := "") && g.lines == h.lines && g.next == h.next && g.phase == h.phase;
    if !s.crashed && !Stuck(g) {
      SharedKeeps(u, s, who, g);
      SharedKeeps(u, t, who, h);
      MovedBlind(u, who, g, h, Found(u, s, who, Content(g.lines[g.next])), Found(u, t, who, Content(h.lines[h.next])),
                 choice.writeOk);
    }
  }

  lemma SharedKeeps(u: Setup, s: State, who: Who, g: Side)
    requires !Stuck(g)
    ensures var t := Shared(u, s, who, g); t.stdin == s.stdin && t.stdout == s.stdout && t.crashed == s.crashed
  {
    hide Remembered, ToolCallRemembered, Taken, Content, Found, AnswerLog;
  }

  // ---- progress ----

  function Turns(choices: seq<Choice>, who: Who): nat {
    if choices == [] then 0
    else Turns(choices[..|choices| - 1], who) + if choices[|choices| - 1].who == who then 1 else 0
  }

  predicate WritesOk(choices: seq<Choice>) {
    forall i :: 0 <= i < |choices| ==> choices[i].writeOk
  }

  function Done(g: Side): nat {
    4 * g.next + match g.phase case Idle => 0 case Held => 1 case Noted => 2 case _ => 3
  }

  ghost predicate Going(g: Side) {
    g.next <= |g.lines| && !g.phase.Stopped? && (g.next == |g.lines| ==> g.phase == Idle)
  }

  lemma MovedDone(u: Setup, who: Who, g: Side, found: string)
    requires !Stuck(g)
    ensures var m := Moved(u, who, g, found, true);
      m.lines == g.lines && Done(m) == Done(g) + 1 <= 4 * |g.lines| && Going(m)
  {
    hide Written, Answer, Content;
  }

  lemma AtEnd(g: Side)
    requires Going(g)
    ensures Done(g) <= 4 * |g.lines| && (Done(g) == 4 * |g.lines| <==> Stuck(g))
  {
  }

  lemma StepDone(u: Setup, s: State, choice: Choice, who: Who)
    requires choice.writeOk && !Step(u, s, choice).crashed && Going(Of(s, who))
    ensures !s.crashed && Going(Of(Step(u, s, choice), who))
    ensures var n := 4 * |Of(s, who).lines|;
      Of(Step(u, s, choice), who).lines == Of(s, who).lines
      && Done(Of(Step(u, s, choice), who)) == Min(Done(Of(s, who)) + if choice.who == who then 1 else 0, n)
  {
    hide Shared, Moved, Panics, Done, Found, Content;
    var g := Of(s, choice.who);
    if !s.crashed && !Stuck(g) && !Panics(u, choice.who, g) {
      SharedKeeps(u, s, choice.who, g);
      MovedDone(u, choice.who, g, Found(u, s, choice.who, Content(g.lines[g.next])));
    }
    AtEnd(Of(s, who));
  }

  // With writes that succeed and no panic, a goroutine is done after four turns a line,
  // however they are interleaved with the other's.
  lemma {:induction false} Progress(u: Setup, stdin: string, stdout: string, choices: seq<Choice>, who: Who)
    requires WritesOk(choices) && !Run(u, Start(stdin, stdout), choices).crashed
    ensures var g := Of(Run(u, Start(stdin, stdout), choices), who);
      && Going(g) && g.lines == Chunks(if who.Stdin? then stdin else stdout)
      && Done(g) == Min(Turns(choices, who), 4 * |g.lines|)
  {
    hide Step, Chunks;
    if choices != [] {
      var rest, last := choices[..|choices| - 1], choices[|choices| - 1];
      var s := Run(u, Start(stdin, stdout), rest);
      NoCrashBefore(u, s, last);
      Progress(u, stdin, stdout, rest, who);
      StepDone(u, s, last, who);
    }
  }

  lemma NoCrashBefore(u: Setup, s: State, choice: Choice)
    ensures s.crashed ==> Step(u, s, choice).crashed
  {
  }

  // ---- the panic ----

  function Solo(who: Who, n: nat): seq<Choice> {
    seq(n, _ => Choice(who, true))
  }

  lemma {:induction false} SoloTurns(who: Who, n: nat)
    ensures Turns(Solo(who, n), who) == n
  {
    if n > 0 {
      SoloTurns(who, n - 1);
      assert Solo(who, n)[..n - 1] == Solo(who, n - 1);
    }
  }

  lemma UnsafeCrashes(u: Setup, stdin: string, stdout: string, who: Who)
    requires !Safe(u.F(who), Chunks(if who.Stdin? then stdin else stdout))
    ensures exists choices :: Run(u, Start(stdin, stdout), choices).crashed
  {
    hide Run, Step, Chunks, From, Emitted, Flatten, Safe, SideOk;
    var lines := Chunks(if who.Stdin? then stdin else stdout);
    var n := 4 * |lines|;
    var choices := Solo(who, n);
    SoloTurns(who, n);
    var s := Run(u, Start(stdin, stdout), choices);
    if !s.crashed {
      Progress(u, stdin, stdout, choices, who);
      RunInv(u, stdin, stdout, choices);
      SidesOk(u, s, stdin, stdout);
      FinishedIsSafe(u.F(who), Of(s, who), if who.Stdin? then stdin else stdout);
    }
  }

  lemma FinishedIsSafe(f: string -> Outcome, g: Side, input: string)
    requires SideOk(f, g, input) && g.next == |g.lines|
    ensures Safe(f, Chunks(input))
  {
    assert g.lines[..g.next] == g.lines;
  }

  // No interleaving panics exactly when neither stream holds a line that the rewrite
  // panics on.
  lemma NeverCrashesIff(u: Setup, stdin: string, stdout: string)
    ensures (forall choices :: !Run(u, Start(stdin, stdout), choices).crashed)
       <==> Safe(u.F(Stdin), Chunks(stdin)) && Safe(u.F(Stdout), Chunks(stdout))
  {
    hide Run, Step, Chunks, From, Safe;
    if Safe(u.F(Stdin), Chunks(stdin)) && Safe(u.F(Stdout), Chunks(stdout)) {
      forall choices ensures !Run(u, Start(stdin, stdout), choices).crashed {
        RunInv(u, stdin, stdout, choices);
      }
    } else if !Safe(u.F(Stdin), Chunks(stdin)) {
      UnsafeCrashes(u, stdin, stdout, Stdin);
    } else {
      UnsafeCrashes(u, stdin, stdout, Stdout);
    }
  }

  // Such lines: a thread/start request with null parameters, a response with a null config.
  lemma CrashingLines(c: Codec, p: Provider)
    requires c.Lawful()
    ensures var request := c.print_(Object(map["method" := Str("thread/start"), "params" := Null]));
      OneLine(request) && RewriteThreadStart(c, request) == Crash
    ensures var response := c.print_(Object(map["result" := Object(map["config" := Null])]));
      OneLine(response) && RewriteConfig(c, p, response) == Crash
  {
    PrintedReads(c, map["method" := Str("thread/start"), "params" := Null]);
    PrintedReads(c, map["result" := Object(map["config" := Null])]);
  }
}
