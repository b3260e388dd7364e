// The app-server mediator run one stream at a time
// (cmd/slimference/codex_desktop_app_server_shim.go).
module Mediator {
  import opened Basics
  import opened Strs
  import opened JsonLines
  import opened AppServerRewrites
  import opened StreamImage

  type Table = map<string, string>

  const TOOL_CALL := "item/tool/call"

  // ---- the tables ----

  function IdOf(c: Codec, content: string): string {
    match c.ReadObject(content)
    case None => ""
    case Some(msg) => if "id" !in msg || msg["id"].Null? then "" else c.print_(msg["id"])
  }

  function MethodIn(c: Codec, content: string): string {
    match c.ReadObject(content)
    case None => ""
    case Some(msg) => if IdOf(c, content) == "" then "" else MethodOf(msg)
  }

  function Remembered(c: Codec, content: string, table: Table): Table {
    if IdOf(c, content) == "" || MethodIn(c, content) == "" then table
    else table[IdOf(c, content) := MethodIn(c, content)]
  }

  function ToolCallRemembered(c: Codec, content: string, table: Table): Table {
    if MethodIn(c, content) == TOOL_CALL then Remembered(c, content, table) else table
  }

  function LookedUp(c: Codec, content: string, table: Table): string {
    if IdOf(c, content) != "" && IdOf(c, content) in table then table[IdOf(c, content)] else ""
  }

  function Taken(c: Codec, content: string, table: Table): Table {
    if IdOf(c, content) == "" then table else table - {IdOf(c, content)}
  }

  // ---- what the tables are for ----

  // A message with this id, which is not null.
  predicate HasId(c: Codec, content: string, id: Json) {
    var msg := c.ReadObject(content);
    msg.Some? && "id" in msg.value && msg.value["id"] == id != Null
  }

  predicate Calls(c: Codec, content: string, name: string) {
    c.ReadObject(content).Some? && HasMethod(c.ReadObject(content).value, name)
  }

  lemma IdIsPrinted(c: Codec, content: string, id: Json)
    requires c.Lawful() && HasId(c, content, id)
    ensures IdOf(c, content) == c.print_(id) != "" && c.parse(IdOf(c, content)) == Some(id)
  {
    hide TrimSpace;
    ReadIsMessage(c, content);
    IdIsWellFormed(c.ReadObject(content).value);
    assert c.Printed(id);
  }

  lemma IdIsWellFormed(msg: Members)
    requires IsMessage(msg) && "id" in msg
    ensures WellFormed(msg["id"], MAX_DEPTH)
  {
    hide WellFormed;
    Member(msg, "id", MAX_DEPTH);
    Deeper(msg["id"], MAX_DEPTH - 1, MAX_DEPTH);
  }

  // A response finds the method of the request with its id, and forgets it.
  lemma ResponseFindsRequest(c: Codec, request: string, response: string, id: Json, name: string, table: Table)
    requires c.Lawful() && HasId(c, request, id) && Calls(c, request, name) && name != "" && HasId(c, response, id)
    ensures var noted := Remembered(c, request, table);
      && LookedUp(c, response, noted) == name
      && LookedUp(c, response, Taken(c, response, noted)) == ""
    ensures LookedUp(c, response, ToolCallRemembered(c, request, map[]))
         == if name == "item/tool/call" then name else ""
  {
    hide TrimSpace, WellFormed;
    IdIsPrinted(c, request, id);
    IdIsPrinted(c, response, id);
  }

  // A response with another id finds what it found before.
  lemma OthersUntouched(c: Codec, line: string, response: string, id: Json, other: Json, table: Table)
    requires c.Lawful() && HasId(c, line, id) && HasId(c, response, other) && id != other
    ensures LookedUp(c, response, Remembered(c, line, table)) == LookedUp(c, response, table)
    ensures LookedUp(c, response, ToolCallRemembered(c, line, table)) == LookedUp(c, response, table)
    ensures LookedUp(c, response, Taken(c, line, table)) == LookedUp(c, response, table)
  {
    hide TrimSpace, WellFormed;
    IdIsPrinted(c, line, id);
    IdIsPrinted(c, response, other);
  }

  // A message without an id, or with a null one, or without a method, is not noted; and
  // one without an id finds nothing and takes nothing.
  lemma NothingNoted(c: Codec, content: string, table: Table)
    ensures !(exists id :: HasId(c, content, id)) ==>
      Remembered(c, content, table) == ToolCallRemembered(c, content, table) == Taken(c, content, table) == table
      && LookedUp(c, content, table) == ""
    ensures !(exists name :: name != "" && Calls(c, content, name)) ==>
      Remembered(c, content, table) == ToolCallRemembered(c, content, table) == table
  {
    hide TrimSpace;
    var msg := c.ReadObject(content);
    if msg.Some? && "id" in msg.value && !msg.value["id"].Null? {
      assert HasId(c, content, msg.value["id"]);
    }
    if msg.Some? && MethodOf(msg.value) != "" {
      assert Calls(c, content, MethodOf(msg.value));
    }
  }

  // ---- the rewrite of a response ----

  const MODEL_LIST := "model/list"
  const REWRITTEN := "config_read_rewrite"

  // What becomes of a response, and what the rewrite is called in the log, given the
  // method found for its id.
  datatype Response = Response(outcome: Outcome, kind: string)

  function RewriteResponseContent(c: Codec, p: Provider, content: string, found: string): Response {
    var o := RewriteConfig(c, p, content);
    if o != Keep then Response(o, REWRITTEN)
    else if found != MODEL_LIST then Response(Keep, "")
    else Response(Keep, "")
  }

  // The method does not matter: the outcome is that of the rewrite alone.
  lemma FoundUnused(c: Codec, p: Provider, content: string, found: string)
    ensures RewriteResponseContent(c, p, content, found).outcome == RewriteConfig(c, p, content)
  {
  }

  // ---- the log ----

  datatype Record = Record(event: string, name: string)

  // The method found decides what is logged about a response.
  function ResponseLog(kind: string, found: string): seq<Record> {
    if kind != "" then [Record(kind, found)]
    else if found == MODEL_LIST then [Record("model_list_seen", found)]
    else if found == "config/read" then [Record("config_read_seen_unmatched", found)]
    else []
  }

  function ToolResponseLog(found: string): seq<Record> {
    if found == TOOL_CALL then [Record("tool_facade_response_observed", found)] else []
  }

  function ToolRequestLog(c: Codec, content: string): seq<Record> {
    if IdOf(c, content) != "" && MethodIn(c, content) == TOOL_CALL then
      [Record("tool_facade_request_observed", TOOL_CALL)]
    else []
  }

  function RequestLog(o: Outcome): seq<Record> {
    if o.Change? then [Record("thread_start_rewrite", "")] else []
  }

  // What each line leaves in the log.
  lemma LogReads(c: Codec, o: Outcome, found: string, kind: string)
    ensures kind != "" ==> ResponseLog(kind, found) == [Record(kind, found)]
    ensures ResponseLog("", "model/list") == [Record("model_list_seen", "model/list")]
    ensures ResponseLog("", "config/read") == [Record("config_read_seen_unmatched", "config/read")]
    ensures found != "model/list" && found != "config/read" ==> ResponseLog("", found) == []
    ensures o.Change? ==> RequestLog(o) == [Record("thread_start_rewrite", "")]
    ensures !o.Change? ==> RequestLog(o) == []
  {
  }

  // The rewrite is named if there is one, and only then.
  lemma KindReads(c: Codec, p: Provider, content: string, found: string)
    ensures RewriteResponseContent(c, p, content, found).kind ==
      if RewriteConfig(c, p, content) == Keep then "" else "config_read_rewrite"
  {
  }

  // ---- the object ----

  class Mediator {
    const codec: Codec
    const provider: Provider
    var requestMethods: Table
    var serverRequestMethods: Table
    var log: seq<Record>

    constructor (codec: Codec, provider: Provider)
      ensures this.codec == codec && this.provider == provider
      ensures requestMethods == map[] && serverRequestMethods == map[] && log == []
    {
      this.codec, this.provider, log := codec, provider, [];
      requestMethods, serverRequestMethods := map[], map[];
    }

    method RememberRequestMethod(content: string)
      modifies this`requestMethods
      ensures requestMethods == Remembered(codec, content, old(requestMethods))
    {
      var id, name := IdOf(codec, content), MethodIn(codec, content);
      if id == "" || name == "" { return; }
      requestMethods := requestMethods[id := name];
    }

    method TakeResponseMethod(content: string) returns (name: string)
      modifies this`requestMethods
      ensures requestMethods == Taken(codec, content, old(requestMethods))
      ensures name == LookedUp(codec, content, old(requestMethods))
    {
      var id := IdOf(codec, content);
      if id == "" { return ""; }
      name := if id in requestMethods then requestMethods[id] else "";
      requestMethods := requestMethods - {id};
    }

    method RememberServerRequestMethod(content: string)
      modifies this`serverRequestMethods
      ensures serverRequestMethods == ToolCallRemembered(codec, content, old(serverRequestMethods))
    {
      var id, name := IdOf(codec, content), MethodIn(codec, content);
      if id != "" && name == TOOL_CALL {
        serverRequestMethods := serverRequestMethods[id := name];
      }
    }

    method TakeServerResponseMethod(content: string) returns (name: string)
      modifies this`serverRequestMethods
      ensures serverRequestMethods == Taken(codec, content, old(serverRequestMethods))
      ensures name == LookedUp(codec, content, old(serverRequestMethods))
    {
      var id := IdOf(codec, content);
      if id == "" { return ""; }
      name := if id in serverRequestMethods then serverRequestMethods[id] else "";
      serverRequestMethods := serverRequestMethods - {id};
    }

    // None when the process panics.
    method RewriteStdinLine(line: string) returns (out: Option<string>)
      modifies this
      ensures requestMethods == Remembered(codec, Content(line), old(requestMethods))
      ensures serverRequestMethods == Taken(codec, Content(line), old(serverRequestMethods))
      ensures var o := RewriteThreadStart(codec, Content(line));
        out == if o.Crash? then None else Some(Emit(s => RewriteThreadStart(codec, s), line))
      ensures log == old(log) + ToolResponseLog(LookedUp(codec, Content(line), old(serverRequestMethods)))
    {
      var content := Content(line);
      RememberRequestMethod(content);
      var found := TakeServerResponseMethod(content);
      if found == TOOL_CALL {
        log := log + [Record("tool_facade_response_observed", found)];
      }
      match RewriteThreadStart(codec, content) {
        case Keep => return Some(line);
        case Change(rewritten) => return Some(if Ended(line) then rewritten + "\n" else rewritten);
        case Crash => return None;
      }
    }

    // Also the method found and the kind of the rewrite.
    method RewriteResponseLine(line: string) returns (out: Option<string>, found: string, kind: string)
      modifies this
      ensures serverRequestMethods == ToolCallRemembered(codec, Content(line), old(serverRequestMethods))
      ensures requestMethods == Taken(codec, Content(line), old(requestMethods))
      ensures found == LookedUp(codec, Content(line), old(requestMethods))
      ensures kind == RewriteResponseContent(codec, provider, Content(line), found).kind
      ensures var o := RewriteConfig(codec, provider, Content(line));
        out == if o.Crash? then None else Some(Emit(s => RewriteConfig(codec, provider, s), line))
      ensures log == old(log) + ToolRequestLog(codec, Content(line))
    {
      var content := Content(line);
      RememberServerRequestMethod(content);
      if IdOf(codec, content) != "" && MethodIn(codec, content) == TOOL_CALL {
        log := log + [Record("tool_facade_request_observed", TOOL_CALL)];
      }
      found := TakeResponseMethod(content);
      var r := RewriteResponseContent(codec, provider, content, found);
      FoundUnused(codec, provider, content, found);
      kind := r.kind;
      match r.outcome {
        case Keep => out := Some(line);
        case Change(rewritten) => out := Some(if Ended(line) then rewritten + "\n" else rewritten);
        case Crash => out := None;
      }
    }

    // One goroutine's loop over its stream. Without a panic the whole image is written;
    // otherwise the image of the lines before the one that panics.
    method MediateStdin(input: string) returns (out: string, crashed: bool)
      modifies this
      ensures var f := s => RewriteThreadStart(codec, s);
        && crashed == !Safe(f, Chunks(input))
        && (!crashed ==> out == Image(f, input))
        && (crashed ==> StoppedAtCrash(f, Chunks(input), out))
    {
      hide RewriteThreadStart, Chunks, Content, Emit, Emitted, Flatten, Remembered, ToolCallRemembered, Taken;
      hide LookedUp, RewriteResponseContent, ToolRequestLog, ToolResponseLog, RequestLog, ResponseLog;
      var f := s => RewriteThreadStart(codec, s);
      var lines := Chunks(input);
      out, crashed := "", false;
      NothingEmitted(f);
      for i := 0 to |lines|
        invariant !crashed && Safe(f, lines[..i])
        invariant out == Flatten(Emitted(f, lines[..i]))
      {
        var written := RewriteStdinLine(lines[i]);
        if written.None? {
          crashed := true;
          assert f(Content(lines[i])).Crash?;
          return;
        }
        log := log + RequestLog(f(Content(lines[i])));
        EmitOne(f, lines, i);
        out := out + written.value;
      }
      assert lines[..|lines|] == lines;
    }

    method MediateStdout(input: string) returns (out: string, crashed: bool)
      modifies this
      ensures var f := s => RewriteConfig(codec, provider, s);
        && crashed == !Safe(f, Chunks(input))
        && (!crashed ==> out == Image(f, input))
        && (crashed ==> StoppedAtCrash(f, Chunks(input), out))
    {
      hide RewriteConfig, Chunks, Content, Emit, Emitted, Flatten, Remembered, ToolCallRemembered, Taken;
      hide LookedUp, RewriteResponseContent, ToolRequestLog, ToolResponseLog, RequestLog, ResponseLog;
      var f := s => RewriteConfig(codec, provider, s);
      var lines := Chunks(input);
      out, crashed := "", false;
      NothingEmitted(f);
      for i := 0 to |lines|
        invariant !crashed && Safe(f, lines[..i])
        invariant out == Flatten(Emitted(f, lines[..i]))
      {
        var written, found, kind := RewriteResponseLine(lines[i]);
        if written.None? {
          crashed := true;
          assert f(Content(lines[i])).Crash?;
          return;
        }
        log := log + ResponseLog(kind, found);
        EmitOne(f, lines, i);
        out := out + written.value;
      }
      assert lines[..|lines|] == lines;
    }
  }

  // The image of the lines before one that panics.
  ghost predicate StoppedAtCrash(f: string -> Outcome, chunks: seq<string>, out: string) {
    exists n :: 0 <= n < |chunks| && f(Content(chunks[n])).Crash? && out == Flatten(Emitted(f, chunks[..n]))
  }

  lemma NothingEmitted(f: string -> Outcome)
    ensures Flatten(Emitted(f, [])) == ""
  {
  }

  lemma {:induction false} FlattenLast(chunks: seq<string>, last: string)
    ensures Flatten(chunks + [last]) == Flatten(chunks) + last
  {
    if chunks == [] {
      assert [] + [last] == [last] && last + "" == last;
    } else {
      assert (chunks + [last])[1..] == chunks[1..] + [last];
      FlattenLast(chunks[1..], last);
    }
  }

  lemma EmitOne(f: string -> Outcome, chunks: seq<string>, i: nat)
    requires i < |chunks|
    ensures Flatten(Emitted(f, chunks[..i + 1])) == Flatten(Emitted(f, chunks[..i])) + Emit(f, chunks[i])
  {
    hide Emit, Flatten;
    FlattenLast(Emitted(f, chunks[..i]), Emit(f, chunks[i]));
    assert Emitted(f, chunks[..i + 1]) == Emitted(f, chunks[..i]) + [Emit(f, chunks[i])];
  }
}
