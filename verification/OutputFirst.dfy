// One run of the command-output-first shim (cmd/slimference/command_output_first.go),
// for any compactors.
module OutputFirst {
  import opened Strs
  import opened TextLines
  import opened ContentArchive

  const SPACE := "command_output_first"

  datatype Stream = Stdout | Stderr

  // What the compactors make of a text; the one for repeated output sees the session.
  datatype Compactors = Compactors(
    diagnostic: string -> Option<string>,
    regular: string -> Option<string>,
    repeated: string -> Option<string>)

  datatype Compaction = Compaction(
    stream: Stream,
    raw: string,
    compacted: string,
    passStdout: string,
    passStderr: string,
    accountingRaw: string)

  // ---- token estimates ----

  function EstimateTokens(n: nat): nat {
    if n == 0 then 0 else if n / 4 == 0 then 1 else n / 4
  }

  lemma FewerTokensFewerBytes(a: nat, b: nat)
    requires EstimateTokens(a) < EstimateTokens(b)
    ensures a < b
  {
  }

  predicate Positive(compacted: string, raw: string) {
    EstimateTokens(|compacted|) < EstimateTokens(|raw|)
  }

  // ---- choosing a stream ----

  function CompactStdout(c: Compactors, stdout: string, code: int): Option<string> {
    if code != 0 then c.diagnostic(stdout) else c.regular(stdout)
  }

  function Mixed(stream: Stream, stdout: string, stderr: string, compacted: string): Option<Compaction> {
    var accountingRaw := stdout + stderr;
    match stream
    case Stdout =>
      if !Positive(compacted + stderr, accountingRaw) then None
      else Some(Compaction(Stdout, stdout, compacted, "", stderr, accountingRaw))
    case Stderr =>
      if !Positive(stdout + compacted, accountingRaw) then None
      else Some(Compaction(Stderr, stderr, compacted, stdout, "", accountingRaw))
  }

  function CompactStreams(c: Compactors, stdout: string, stderr: string, code: int): Option<Compaction> {
    var diagnosed := if code != 0 && stderr != "" then c.diagnostic(stderr) else None;
    if stdout == "" && diagnosed.Some? then Some(Compaction(Stderr, stderr, diagnosed.value, "", "", ""))
    else if stdout != "" && stderr != "" && CompactStdout(c, stdout, code).Some? then
      Mixed(Stdout, stdout, stderr, CompactStdout(c, stdout, code).value)
    else if stdout != "" && stderr != "" && diagnosed.Some? then Mixed(Stderr, stdout, stderr, diagnosed.value)
    else if code == 0 && stdout != "" && stderr == "" && c.repeated(stdout).Some? then
      Some(Compaction(Stdout, stdout, c.repeated(stdout).value, "", "", ""))
    else if stderr != "" || CompactStdout(c, stdout, code).None? then None
    else Some(Compaction(Stdout, stdout, CompactStdout(c, stdout, code).value, "", "", ""))
  }

  // Whatever branch is taken, one stream is replaced and the other passes untouched.
  lemma OtherStreamPasses(c: Compactors, stdout: string, stderr: string, code: int)
    requires CompactStreams(c, stdout, stderr, code).Some?
    ensures var r := CompactStreams(c, stdout, stderr, code).value;
      if r.stream.Stdout? then r.raw == stdout && r.passStderr == stderr
      else r.raw == stderr && r.passStdout == stdout
    ensures var r := CompactStreams(c, stdout, stderr, code).value;
      (if r.accountingRaw != "" then r.accountingRaw else r.raw) == stdout + stderr
  {
    hide Positive;
    assert "" + stderr == stderr && stdout + "" == stdout;
  }

  // Counted in fours, with one to seven bytes as one token.
  lemma PositiveMeans(compacted: string, raw: string)
    ensures var m, n := |compacted|, |raw|; Positive(compacted, raw) <==> (m == 0 < n) || (n >= 8 && m < n - n % 4)
  {
  }

  // The form to be written of a stream, if there is one.
  predicate Chosen(r: Option<Compaction>, stream: Stream, form: Option<string>) {
    r.Some? == form.Some? && (r.Some? ==> r.value.stream == stream && r.value.compacted == form.value)
  }

  // Standard output alone: after a failure its diagnosis; otherwise the form of repeated
  // output, or else the regular one.
  lemma StdoutAlone(c: Compactors, stdout: string, code: int)
    requires stdout != ""
    ensures code != 0 ==> Chosen(CompactStreams(c, stdout, "", code), Stdout, c.diagnostic(stdout))
    ensures code == 0 && c.repeated(stdout).Some? ==>
      Chosen(CompactStreams(c, stdout, "", code), Stdout, c.repeated(stdout))
    ensures code == 0 && c.repeated(stdout).None? ==>
      Chosen(CompactStreams(c, stdout, "", code), Stdout, c.regular(stdout))
  {
  }

  // Standard error alone: after a failure its diagnosis, otherwise nothing. Without any
  // output the compactors are still asked.
  lemma StderrAlone(c: Compactors, stderr: string, code: int)
    ensures stderr != "" && code != 0 ==> Chosen(CompactStreams(c, "", stderr, code), Stderr, c.diagnostic(stderr))
    ensures stderr != "" && code == 0 ==> CompactStreams(c, "", stderr, code).None?
    ensures code != 0 ==> Chosen(CompactStreams(c, "", "", code), Stdout, c.diagnostic(""))
    ensures code == 0 ==> Chosen(CompactStreams(c, "", "", code), Stdout, c.regular(""))
  {
  }

  function IfPositive(form: string, compacted: string, raw: string): Option<string> {
    if Positive(compacted, raw) then Some(form) else None
  }

  // Of two streams, standard output first, by its diagnosis after a failure and by its
  // regular form otherwise; then, after a failure, the diagnosis of standard error. The
  // form chosen is written only if both streams together get cheaper.
  lemma BothStreams(c: Compactors, stdout: string, stderr: string, code: int)
    requires stdout != "" && stderr != ""
    ensures var r := CompactStreams(c, stdout, stderr, code);
      var form := if code == 0 then c.regular(stdout) else c.diagnostic(stdout);
      && (form.Some? ==> Chosen(r, Stdout, IfPositive(form.value, form.value + stderr, stdout + stderr)))
      && (form.None? && code == 0 ==> r.None?)
      && (form.None? && code != 0 && c.diagnostic(stderr).None? ==> r.None?)
      && (form.None? && code != 0 && c.diagnostic(stderr).Some? ==>
            var other := c.diagnostic(stderr).value;
            Chosen(r, Stderr, IfPositive(other, stdout + other, stdout + stderr)))
  {
    hide Positive;
  }

  // ---- the marker ----

  // The line of the marker, from the semicolon on.
  function Rest(stream: Stream): string {
    (if stream.Stderr? then "; stream=stderr" else "") + "; recover: slimference expand URI]"
  }

  function Marker(uri: string, stream: Stream): string {
    "\n[archive " + uri + Rest(stream) + "\n"
  }

  function TrimNewlines(s: string): (r: string)
    ensures r <= s && (r == "" || r[|r| - 1] != '\n')
    ensures forall i :: |r| <= i < |s| ==> s[i] == '\n'
  {
    if s != "" && s[|s| - 1] == '\n' then TrimNewlines(s[..|s| - 1]) else s
  }

  function WithMarker(compacted: string, uri: string, stream: Stream): string {
    TrimNewlines(compacted) + Marker(uri, stream)
  }

  // The letter of the marker, behind a body without newlines at its end.
  lemma MarkerIs(compacted: string, uri: string)
    ensures WithMarker(compacted, uri, Stdout)
         == TrimNewlines(compacted) + ("\n[archive " + uri + "; recover: slimference expand URI]" + "\n")
    ensures WithMarker(compacted, uri, Stderr) == TrimNewlines(compacted)
      + ("\n[archive " + uri + ("; stream=stderr" + "; recover: slimference expand URI]") + "\n")
  {
    hide TrimNewlines;
    assert "" + "; recover: slimference expand URI]" == "; recover: slimference expand URI]";
  }

  // The URI that the last line of an output names.
  function MarkedUri(text: string): Option<string> {
    var lines := Split(text);
    if |lines| < 2 || lines[|lines| - 1] != "" || !("[archive " <= lines[|lines| - 2]) then None
    else
      var line := lines[|lines| - 2];
      Some(line[9..Find(line, ';', 9)])
  }

  lemma {:induction false} SplitAppend(a: string, b: string)
    ensures Split(a + "\n" + b) == Split(a) + Split(b)
    decreases |a|
  {
    hide Split;
    var k := Find(a, '\n', 0);
    if k == |a| {
      SplitOne(a);
      SplitCons(a, b);
    } else {
      var first, rest := a[..k], a[k + 1..];
      assert a == first + "\n" + rest;
      SplitAppend(rest, b);
      SplitCons(first, rest);
      Regroup(first, rest, b);
      SplitCons(first, rest + "\n" + b);
    }
  }

  lemma Regroup(first: string, rest: string, b: string)
    ensures first + "\n" + rest + "\n" + b == first + "\n" + (rest + "\n" + b)
  {
  }

  predicate UriLike(uri: string) {
    OneLine(uri) && TrimSpace(uri) == uri && forall i :: 0 <= i < |uri| ==> uri[i] != ';'
  }

  lemma RestIsOneLine(stream: Stream)
    ensures OneLine(Rest(stream)) && Rest(stream) != "" && Rest(stream)[0] == ';'
  {
    hide OneLine;
    OneLineParts();
    OneLineConcat(if stream.Stderr? then "; stream=stderr" else "", "; recover: slimference expand URI]");
    assert "; stream=stderr"[0] == "; recover: slimference expand URI]"[0] == ';';
  }

  lemma OneLineParts()
    ensures OneLine("") && OneLine("; stream=stderr") && OneLine("; recover: slimference expand URI]")
  {
  }

  lemma OneLineConcat(a: string, b: string)
    requires OneLine(a) && OneLine(b)
    ensures OneLine(a + b)
  {
  }

  lemma HeadIsOneLine()
    ensures OneLine("[archive ")
  {
  }

  lemma MarkedUriReads(compacted: string, uri: string, stream: Stream)
    requires UriLike(uri)
    ensures MarkedUri(WithMarker(compacted, uri, stream)) == Some(uri)
  {
    hide TrimSpace, Split, TrimNewlines, Rest, OneLine, Find;
    var body, line := TrimNewlines(compacted), "[archive " + uri + Rest(stream);
    RestIsOneLine(stream);
    HeadIsOneLine();
    OneLineConcat("[archive ", uri);
    OneLineConcat("[archive " + uri, Rest(stream));
    LineOfMarker(uri, stream);
    assert WithMarker(compacted, uri, stream) == body + "\n" + (line + "\n" + "");
    SplitAppend(body, line + "\n" + "");
    SplitCons(line, "");
    SplitNothing();
    UriInLine(line, uri, Rest(stream));
  }

  lemma SplitNothing()
    ensures Split("") == [""]
  {
  }

  lemma LineOfMarker(uri: string, stream: Stream)
    ensures Marker(uri, stream) == "\n" + ("[archive " + uri + Rest(stream) + "\n" + "")
  {
    hide Rest;
    var line := "[archive " + uri + Rest(stream);
    assert line + "\n" + "" == line + "\n";
    assert "\n[archive " == "\n" + "[archive ";
    assert Marker(uri, stream) == "\n" + (line + "\n");
  }

  lemma UriInLine(line: string, uri: string, rest: string)
    requires line == "[archive " + uri + rest && rest != "" && rest[0] == ';'
    requires forall i :: 0 <= i < |uri| ==> uri[i] != ';'
    ensures "[archive " <= line && line[9..Find(line, ';', 9)] == uri
  {
    var k := 9 + |uri|;
    assert line[k] == ';' && forall j :: 9 <= j < k ==> line[j] == uri[j - 9];
    assert Find(line, ';', 9) == k;
    assert line[9..k] == uri;
  }

  lemma HexUri(id: string)
    requires IsHex(id)
    ensures UriLike(SCHEME + id)
  {
    var uri := SCHEME + id;
    assert forall i :: 0 <= i < |SCHEME| ==> SCHEME[i] != ';' && SCHEME[i] != '\n';
    assert forall i :: 0 <= i < |uri| ==> uri[i] == if i < |SCHEME| then SCHEME[i] else id[i - |SCHEME|];
    assert uri[|uri| - 1] == id[|id| - 1] && uri[0] == 'l';
    assert TrimLeft(uri) == uri;
  }

  // ---- one run ----

  // What is written, which stream was replaced, and the raw and compacted bytes that the
  // savings are recorded from.
  datatype Emitted = Emitted(
    code: int, stdout: string, stderr: string, replaced: Option<Stream>, recorded: (string, string))

  function Of(stream: Stream, stdout: string, stderr: string): string {
    if stream.Stdout? then stdout else stderr
  }

  function Other(stream: Stream): Stream {
    if stream.Stdout? then Stderr else Stdout
  }

  // The replaced stream has become shorter and ends in the marker of its URI, the other
  // one is untouched, and the accounting is of all that was and all that is written.
  ghost predicate Shortened(e: Emitted, stream: Stream, stdout: string, stderr: string, uri: string) {
    && Of(Other(stream), e.stdout, e.stderr) == Of(Other(stream), stdout, stderr)
    && |Of(stream, e.stdout, e.stderr)| < |Of(stream, stdout, stderr)|
    && MarkedUri(Of(stream, e.stdout, e.stderr)) == Some(uri)
    && e.recorded == (stdout + stderr, e.stdout + e.stderr)
  }

  // When the compacted form is written: it is wanted, the original is worth archiving and
  // was archived, and with its marker it is still cheaper.
  predicate Written(hash: (string, string) -> string, r: Option<Compaction>, fullPass: bool, filesOk: bool) {
    && r.Some? && !fullPass && r.value.raw != "" && r.value.compacted != "" && Eligible(r.value.raw) && filesOk
    && Positive(WithMarker(r.value.compacted, SCHEME + hash(SPACE, r.value.raw), r.value.stream), r.value.raw)
  }

  // The child's outcome, the adaptive decision, the stored size and the state of the
  // archive's files come from outside.
  method RunShim(archive: Archive, c: Compactors, stdout: string, stderr: string, code: int,
                 fullPass: bool, size: nat, filesOk: bool) returns (e: Emitted)
    requires GoodHash(archive.hash) && Sound(archive.hash, archive.entries)
    modifies archive
    ensures Sound(archive.hash, archive.entries)
    ensures e.code == code
    ensures e.replaced.Some? <==> Written(archive.hash, CompactStreams(c, stdout, stderr, code), fullPass, filesOk)
    ensures e.replaced.None? ==> e.stdout == stdout && e.stderr == stderr
    ensures e.replaced.Some? ==>
      var r := CompactStreams(c, stdout, stderr, code).value;
      && e.replaced == Some(r.stream)
      && Of(r.stream, e.stdout, e.stderr)
         == WithMarker(r.compacted, "local-archive://" + archive.hash("command_output_first", r.raw), r.stream)
    ensures e.replaced.Some? ==>
      var raw := Of(e.replaced.value, stdout, stderr);
      var id := archive.hash("command_output_first", raw);
      && Shortened(e, e.replaced.value, stdout, stderr, "local-archive://" + id)
      && (Expand(archive.entries, "local-archive://" + id) == Some(raw)
          <==> FindEntry(old(archive.entries), id).Some? || size <= MAX_BYTES)
  {
    hide Split, Find, TrimSpace, Marker, Kept, GoodHash, Sound, FindEntry, CompactStreams, Expand, Stored;
    e := Emitted(code, stdout, stderr, None, ("", ""));
    var chosen := CompactStreams(c, stdout, stderr, code);
    if chosen.None? || fullPass { return; }
    var r := chosen.value;
    OtherStreamPasses(c, stdout, stderr, code);
    if r.raw == "" || r.compacted == "" { return; }
    ghost var before := archive.entries;
    StoredIsSound(archive.hash, before, SPACE, r.raw, size);
    var uri := archive.Put(SPACE, r.raw, size, filesOk);
    ArchivedUri(archive.hash, r.raw);
    if uri.None? || TrimSpace(uri.value) == "" { return; }
    var recoverable := WithMarker(r.compacted, TrimSpace(uri.value), r.stream);
    if !Positive(recoverable, r.raw) { return; }
    FewerTokensFewerBytes(|recoverable|, |r.raw|);
    MarkedUriReads(r.compacted, uri.value, r.stream);
    StoredExpandsIff(archive.hash, before, SPACE, r.raw, size);
    var accountingRaw := r.raw;
    if r.accountingRaw != "" {
      accountingRaw := r.accountingRaw;
    }
    if r.stream.Stderr? {
      e := Emitted(code, r.passStdout, recoverable, Some(Stderr), (accountingRaw, r.passStdout + recoverable));
    } else {
      e := Emitted(code, recoverable, r.passStderr, Some(Stdout), (accountingRaw, recoverable + r.passStderr));
    }
  }

  lemma ArchivedUri(hash: (string, string) -> string, raw: string)
    requires GoodHash(hash)
    ensures UriLike(SCHEME + hash(SPACE, raw)) && SCHEME + hash(SPACE, raw) != ""
  {
    HexUri(hash(SPACE, raw));
  }
}
