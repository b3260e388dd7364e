// What a rewrite of single lines makes of a whole stream.
module StreamImage {
  import opened Basics
  import opened Strs
  import opened TextLines
  import opened JsonLines
  import opened AppServerRewrites

  // The bytes written for one line.
  function Written(o: Outcome, chunk: string): string {
    match o
    case Keep => chunk
    case Change(t) => if Ended(chunk) then t + "\n" else t
    case Crash => ""
  }

  function Emit(f: string -> Outcome, chunk: string): string {
    Written(f(Content(chunk)), chunk)
  }

  predicate Safe(f: string -> Outcome, chunks: seq<string>) {
    forall i :: 0 <= i < |chunks| ==> !f(Content(chunks[i])).Crash?
  }

  function Emitted(f: string -> Outcome, chunks: seq<string>): seq<string> {
    seq(|chunks|, i requires 0 <= i < |chunks| => Emit(f, chunks[i]))
  }

  function Image(f: string -> Outcome, input: string): string {
    Flatten(Emitted(f, Chunks(input)))
  }

  // New lines are not empty and hold no newline, and are their own image.
  ghost predicate Steady(f: string -> Outcome) {
    forall s :: f(s).Change? ==>
      OneLine(f(s).text) && f(s).text != "" && (f(f(s).text) == Keep || f(f(s).text) == f(s))
  }

  lemma EmitIsChunk(f: string -> Outcome, chunk: string)
    requires Steady(f) && IsChunk(chunk) && !f(Content(chunk)).Crash?
    ensures IsChunk(Emit(f, chunk)) && Ended(Emit(f, chunk)) == Ended(chunk)
    ensures f(Content(chunk)).Change? ==> Content(Emit(f, chunk)) == f(Content(chunk)).text
    ensures Emit(f, Emit(f, chunk)) == Emit(f, chunk) && !f(Content(Emit(f, chunk))).Crash?
  {
    hide Find;
    var o := f(Content(chunk));
    if o.Change? {
      var t, e := o.text, Emit(f, chunk);
      assert OneLine(t) && t != "";
      if Ended(chunk) {
        assert e[..|e| - 1] == t;
      } else {
        assert !Ended(t);
      }
    }
  }

  lemma EmittedAreChunks(f: string -> Outcome, chunks: seq<string>)
    requires Steady(f) && AreChunks(chunks) && Safe(f, chunks)
    ensures AreChunks(Emitted(f, chunks))
  {
    hide IsChunk, Ended, Emit, Steady;
    forall i | 0 <= i < |chunks|
      ensures IsChunk(Emitted(f, chunks)[i]) && Ended(Emitted(f, chunks)[i]) == Ended(chunks[i])
    {
      EmitIsChunk(f, chunks[i]);
    }
  }

  // The lines of the image are the images of the lines: as many, each ended as before.
  lemma ImageLines(f: string -> Outcome, input: string)
    requires Steady(f) && Safe(f, Chunks(input))
    ensures Chunks(Image(f, input)) == Emitted(f, Chunks(input))
    ensures forall i :: 0 <= i < |Chunks(input)| ==> Ended(Emitted(f, Chunks(input))[i]) == Ended(Chunks(input)[i])
  {
    hide Ended, Emit, Chunks, Flatten, Steady;
    ChunksAre(input);
    EmittedAreChunks(f, Chunks(input));
    ChunksUnique(Emitted(f, Chunks(input)));
    forall i | 0 <= i < |Chunks(input)| ensures Ended(Emitted(f, Chunks(input))[i]) == Ended(Chunks(input)[i]) {
      EmitIsChunk(f, Chunks(input)[i]);
    }
  }

  // Mediating the mediated stream changes nothing.
  lemma ImageTwice(f: string -> Outcome, input: string)
    requires Steady(f) && Safe(f, Chunks(input))
    ensures Safe(f, Chunks(Image(f, input)))
    ensures Image(f, Image(f, input)) == Image(f, input)
  {
    hide Ended, Emit, Chunks, Flatten, Steady;
    var chunks := Chunks(input);
    ChunksAre(input);
    ImageLines(f, input);
    var once := Emitted(f, chunks);
    forall i | 0 <= i < |chunks| ensures Emit(f, once[i]) == once[i] && !f(Content(once[i])).Crash? {
      EmitIsChunk(f, chunks[i]);
    }
    assert Emitted(f, once) == once;
  }

  // Both rewrites of the mediator are steady.
  lemma ThreadStartSteady(c: Codec)
    requires c.Lawful()
    ensures Steady(s => RewriteThreadStart(c, s))
  {
    forall s | RewriteThreadStart(c, s).Change?
      ensures var t := RewriteThreadStart(c, s).text; OneLine(t) && t != "" && RewriteThreadStart(c, t) == Keep
    {
      ThreadStartReads(c, s);
      ThreadStartTwice(c, s);
    }
  }

  lemma ConfigSteady(c: Codec, p: Provider)
    requires c.Lawful()
    ensures Steady(s => RewriteConfig(c, p, s))
  {
    forall s | RewriteConfig(c, p, s).Change?
      ensures var o := RewriteConfig(c, p, s); OneLine(o.text) && o.text != "" && RewriteConfig(c, p, o.text) == o
    {
      ConfigReads(c, p, s);
      ConfigTwice(c, p, s);
    }
  }
}
