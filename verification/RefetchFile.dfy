// How the sidecar file is replaced: every process writes the one temporary file beside it
// and renames that, in any interleaving
// (saveCommandOutputFirstRefetchState in cmd/slimference/command_output_first_adaptive.go).
module RefetchFile {
  import opened Basics
  import opened Strs

  // An open temporary file: which file that is, what is to be written, and how much of it
  // has been.
  datatype Handle = Handle(inode: nat, doc: string, pos: nat)

  // The two names lead to files; last is what the process that renamed last has saved.
  datatype State = State(
    files: seq<string>, temp: Option<nat>, path: Option<nat>, procs: seq<Option<Handle>>, last: Option<string>)

  // GiveUp is a crash or a failed write: the temporary file stays behind.
  datatype Action = Open(p: nat, doc: string) | Write(p: nat, n: nat) | Rename(p: nat) | GiveUp(p: nat)

  function Zeros(n: nat): string {
    seq(n, _ => '\0')
  }

  // Writing at an offset; a gap before it reads as zeros.
  function Overwrite(file: string, pos: nat, text: string): string {
    if pos <= |file| then file[..pos] + text + file[Min(pos + |text|, |file|)..]
    else file + Zeros(pos - |file|) + text
  }

  // Byte by byte: the text where it is written, the file elsewhere, zeros in a gap.
  lemma OverwriteReads(file: string, pos: nat, text: string, i: nat)
    ensures |Overwrite(file, pos, text)| == Max(|file|, pos + |text|)
    ensures var r := Overwrite(file, pos, text);
      i < |r| ==> r[i] == if pos <= i < pos + |text| then text[i - pos] else if i < |file| then file[i] else 0 as char
  {
  }

  predicate Busy(s: State, p: nat) {
    p < |s.procs| && s.procs[p].Some?
  }

  function At(s: State, p: nat, h: Option<Handle>): State
    requires p < |s.procs|
  {
    s.(procs := s.procs[p := h])
  }

  // Opening truncates the temporary file, or makes one.
  function Opened(s: State, p: nat, doc: string): State
    requires p < |s.procs|
  {
    if s.temp.Some? && s.temp.value < |s.files| then
      At(s.(files := s.files[s.temp.value := ""]), p, Some(Handle(s.temp.value, doc, 0)))
    else At(s.(files := s.files + [""], temp := Some(|s.files|)), p, Some(Handle(|s.files|, doc, 0)))
  }

  function Written(s: State, p: nat, h: Handle, n: nat): State
    requires p < |s.procs|
  {
    var next := Min(h.pos + n, |h.doc|);
    if h.inode >= |s.files| || next < h.pos then s
    else
      At(s.(files := s.files[h.inode := Overwrite(s.files[h.inode], h.pos, h.doc[h.pos..next])]), p,
         Some(h.(pos := next)))
  }

  // serial: no process opens the temporary file while another one has it open. An action
  // that its process cannot take changes nothing.
  function Step(serial: bool, s: State, a: Action): State {
    match a
    case Open(p, doc) =>
      if p >= |s.procs| || s.procs[p].Some? || doc == "" then s
      else if serial && exists q :: 0 <= q < |s.procs| && Busy(s, q) then s
      else Opened(s, p, doc)
    case Write(p, n) =>
      if !Busy(s, p) then s else Written(s, p, s.procs[p].value, n)
    case Rename(p) =>
      if !Busy(s, p) || s.procs[p].value.pos < |s.procs[p].value.doc| then s
      else if s.temp.None? then At(s, p, None)
      else At(s.(path := s.temp, temp := None, last := Some(s.procs[p].value.doc)), p, None)
    case GiveUp(p) =>
      if !Busy(s, p) then s else At(s, p, None)
  }

  // An action that its process cannot take changes nothing.
  predicate CanAct(serial: bool, s: State, a: Action) {
    a.p < |s.procs| &&
    match a
    case Open(p, doc) => s.procs[p].None? && doc != "" && (serial ==> forall q :: 0 <= q < |s.procs| ==> !Busy(s, q))
    case Write(p, n) => s.procs[p].Some?
    case Rename(p) => s.procs[p].Some? && s.procs[p].value.pos >= |s.procs[p].value.doc|
    case GiveUp(p) => s.procs[p].Some?
  }

  // Giving up leaves the files alone; so does a rename that finds nothing to rename.
  lemma FileSteps(serial: bool, s: State, p: nat)
    ensures CanAct(serial, s, GiveUp(p)) ==> Step(serial, s, GiveUp(p)) == s.(procs := s.procs[p := None])
    ensures CanAct(serial, s, Rename(p)) && s.temp.None? ==>
      Step(serial, s, Rename(p)) == s.(procs := s.procs[p := None])
    ensures CanAct(serial, s, Rename(p)) && s.temp.Some? ==>
      var t := Step(serial, s, Rename(p));
      t.path == s.temp && t.temp.None? && t.files == s.files && t.last == Some(s.procs[p].value.doc)
      && t.procs == s.procs[p := None]
  {
  }

  // Opening empties the temporary file that is there, or makes a new one.
  lemma OpenSteps(serial: bool, s: State, p: nat, doc: string)
    requires CanAct(serial, s, Open(p, doc)) && (s.temp.Some? ==> s.temp.value < |s.files|)
    ensures var t := Step(serial, s, Open(p, doc));
      && t.path == s.path && t.last == s.last && t.temp.Some? && t.temp.value < |t.files|
      && t.files[t.temp.value] == "" && t.procs == s.procs[p := Some(Handle(t.temp.value, doc, 0))]
      && (s.temp.Some? ==> t.temp == s.temp && |t.files| == |s.files|)
      && (s.temp.None? ==> t.temp == Some(|s.files|) && |t.files| == |s.files| + 1)
      && forall i :: 0 <= i < |s.files| && i != t.temp.value ==> t.files[i] == s.files[i]
  {
  }

  // Writing overwrites from where the process has come to, in the file that it opened.
  lemma WriteSteps(serial: bool, s: State, p: nat, n: nat)
    requires CanAct(serial, s, Write(p, n))
    requires var h := s.procs[p].value; h.inode < |s.files| && h.pos + n <= |h.doc|
    ensures var h := s.procs[p].value; var t := Step(serial, s, Write(p, n));
      && t.procs == s.procs[p := Some(h.(pos := h.pos + n))]
      && t.files == s.files[h.inode := Overwrite(s.files[h.inode], h.pos, h.doc[h.pos..h.pos + n])]
      && t.path == s.path && t.temp == s.temp && t.last == s.last
  {
    hide Overwrite;
  }

  lemma IdleSteps(serial: bool, s: State, a: Action)
    requires !CanAct(serial, s, a)
    ensures Step(serial, s, a) == s
  {
  }

  // n processes, and the file as it was found.
  function Start(n: nat, file: Option<string>): State {
    var procs := seq(n, _ => None);
    if file.Some? then State([file.value], None, Some(0), procs, file) else State([], None, None, procs, None)
  }

  function Run(serial: bool, n: nat, file: Option<string>, actions: seq<Action>): State {
    if actions == [] then Start(n, file)
    else Step(serial, Run(serial, n, file, actions[..|actions| - 1]), actions[|actions| - 1])
  }

  // The file holds exactly what the last completed save was to write.
  predicate Whole(s: State) {
    if s.path.None? then s.last.None?
    else s.path.value < |s.files| && s.last == Some(s.files[s.path.value])
  }

  // ---- one at a time ----

  // Whoever has the temporary file open is alone with it and has written so much of what
  // it saves; the file itself is another one.
  ghost predicate Inv(s: State) {
    && Whole(s)
    && (s.temp.Some? ==> s.temp.value < |s.files| && s.temp != s.path)
    && (forall p, q :: Busy(s, p) && Busy(s, q) ==> p == q)
    && (forall p: nat :: Busy(s, p) ==> Partly(s, s.procs[p].value))
  }

  predicate Partly(s: State, h: Handle) {
    s.temp == Some(h.inode) && h.inode < |s.files| && h.pos <= |h.doc| && s.files[h.inode] == h.doc[..h.pos]
  }

  lemma OverwriteEnd(file: string, text: string)
    ensures Overwrite(file, |file|, text) == file + text
  {
  }

  lemma StepInv(s: State, a: Action)
    requires Inv(s)
    ensures Inv(Step(true, s, a))
  {
    hide Overwrite;
    var t := Step(true, s, a);
    if a.Write? && Busy(s, a.p) {
      var h := s.procs[a.p].value;
      var next := Min(h.pos + a.n, |h.doc|);
      OverwriteEnd(h.doc[..h.pos], h.doc[h.pos..next]);
      assert h.doc[..h.pos] + h.doc[h.pos..next] == h.doc[..next];
    }
    if a.Rename? && Busy(s, a.p) {
      var h := s.procs[a.p].value;
      assert h.doc[..|h.doc|] == h.doc;
    }
    assert forall p: nat :: Busy(t, p) ==> Busy(s, p) || p == a.p;
  }

  lemma StartInv(n: nat, file: Option<string>)
    ensures Inv(Start(n, file))
  {
  }

  // If only one process at a time is between opening and renaming, the file is what the
  // last completed save was to write, after every step of every run.
  lemma {:induction false} RunWhole(n: nat, file: Option<string>, actions: seq<Action>)
    ensures Inv(Run(true, n, file, actions))
  {
    hide Step, Inv, Start;
    if actions == [] {
      StartInv(n, file);
    } else {
      RunWhole(n, file, actions[..|actions| - 1]);
      StepInv(Run(true, n, file, actions[..|actions| - 1]), actions[|actions| - 1]);
    }
  }

  // ---- overlapping saves ----

  lemma RunMore(serial: bool, n: nat, file: Option<string>, actions: seq<Action>, a: Action)
    ensures Run(serial, n, file, actions + [a]) == Step(serial, Run(serial, n, file, actions), a)
  {
    assert (actions + [a])[..|actions|] == actions;
  }

  // Two processes with the first temporary file open.
  function Both(n: nat, text: string, one: Option<Handle>, two: Option<Handle>): State
    requires n >= 2
  {
    At(At(Start(n, None).(files := [text], temp := Some(0)), 0, one), 1, two)
  }

  lemma WriteOver(file: string, text: string)
    ensures Overwrite(file, 0, text) == text + file[Min(|text|, |file|)..]
    ensures file == "" ==> Overwrite(file, 0, text) == text
  {
  }

  // One process writes all it has over what is there.
  lemma WriteAll(n: nat, text: string, one: Option<Handle>, two: Option<Handle>, p: nat, doc: string)
    requires n >= 2 && p < 2 && (if p == 0 then one else two) == Some(Handle(0, doc, 0))
    ensures var h := Some(Handle(0, doc, |doc|));
      Step(false, Both(n, text, one, two), Write(p, |doc|)) ==
      Both(n, Overwrite(text, 0, doc), if p == 0 then h else one, if p == 0 then two else h)
  {
    hide Overwrite;
    assert doc[0..|doc|] == doc;
    var s := Both(n, text, one, two);
    assert s.files[0 := Overwrite(text, 0, doc)] == [Overwrite(text, 0, doc)];
  }

  lemma FirstOpens(n: nat, doc: string)
    requires n >= 2 && doc != ""
    ensures Step(false, Start(n, None), Open(0, doc)) == Both(n, "", Some(Handle(0, doc, 0)), None)
  {
  }

  lemma SecondOpens(n: nat, text: string, one: Option<Handle>, doc: string)
    requires n >= 2 && doc != ""
    ensures Step(false, Both(n, text, one, None), Open(1, doc)) == Both(n, "", one, Some(Handle(0, doc, 0)))
  {
    var s := Both(n, text, one, None);
    assert s.files[0 := ""] == [""];
  }

  lemma Renames(n: nat, text: string, one: Option<Handle>, two: Option<Handle>, p: nat, doc: string)
    requires n >= 2 && p < 2 && (if p == 0 then one else two) == Some(Handle(0, doc, |doc|))
    ensures var t := Step(false, Both(n, text, one, two), Rename(p));
      && t == Both(n, text, if p == 0 then None else one, if p == 0 then two else None)
              .(temp := None, path := Some(0), last := Some(doc))
      && t.files == [text]
  {
  }

  // The first process has written all; the second one has just opened the same file, and
  // so emptied it; the first one renames it.
  lemma TornFile(n: nat, a: string, b: string) returns (t: seq<Action>)
    requires n >= 2 && a != "" && b != ""
    ensures var s := Run(false, n, None, t);
      s.path == Some(0) && s.files == [""] && s.last == Some(a)
  {
    hide Run, Overwrite, Step, Start, Both;
    var h := Some(Handle(0, a, 0));
    var t0: seq<Action> := [];
    RunNone(false, n, None);
    var t1 := t0 + [Open(0, a)];
    RunMore(false, n, None, t0, Open(0, a));
    FirstOpens(n, a);
    var t2 := t1 + [Write(0, |a|)];
    RunMore(false, n, None, t1, Write(0, |a|));
    WriteAll(n, "", h, None, 0, a);
    var t3 := t2 + [Open(1, b)];
    RunMore(false, n, None, t2, Open(1, b));
    SecondOpens(n, Overwrite("", 0, a), Some(Handle(0, a, |a|)), b);
    t := t3 + [Rename(0)];
    RunMore(false, n, None, t3, Rename(0));
    Renames(n, "", Some(Handle(0, a, |a|)), Some(Handle(0, b, 0)), 0, a);
  }

  // Both open the file before either writes; the shorter text is written over the longer
  // one, and the file keeps the rest of that for good.
  lemma MixedFile(n: nat, a: string, b: string) returns (t: seq<Action>)
    requires n >= 2 && 0 < |b| < |a|
    ensures var s := Run(false, n, None, t);
      s.path == Some(0) && s.files == [b + a[|b|..]] && s.last == Some(b) && forall p :: !Busy(s, p)
  {
    hide Run, Overwrite, Step, Start, Both, Busy;
    WriteOver("", a);
    WriteOver(a, b);
    var one, two := Some(Handle(0, a, 0)), Some(Handle(0, b, 0));
    var t0: seq<Action> := [];
    RunNone(false, n, None);
    var t1 := t0 + [Open(0, a)];
    RunMore(false, n, None, t0, Open(0, a));
    FirstOpens(n, a);
    var t2 := t1 + [Open(1, b)];
    RunMore(false, n, None, t1, Open(1, b));
    SecondOpens(n, "", one, b);
    var t3 := t2 + [Write(0, |a|)];
    RunMore(false, n, None, t2, Write(0, |a|));
    WriteAll(n, "", one, two, 0, a);
    var t4 := t3 + [Write(1, |b|)];
    RunMore(false, n, None, t3, Write(1, |b|));
    WriteAll(n, a, Some(Handle(0, a, |a|)), two, 1, b);
    var t5 := t4 + [Rename(1)];
    RunMore(false, n, None, t4, Rename(1));
    Renames(n, b + a[|b|..], Some(Handle(0, a, |a|)), Some(Handle(0, b, |b|)), 1, b);
    t := t5 + [Rename(0)];
    RunMore(false, n, None, t5, Rename(0));
    RenameFails(n, b + a[|b|..], Handle(0, a, |a|), b);
  }

  // The other process finds nothing left to rename.
  lemma RenameFails(n: nat, text: string, h: Handle, last: string)
    requires n >= 2 && h.pos == |h.doc|
    ensures var s := Both(n, text, Some(h), None).(temp := None, path := Some(0), last := Some(last));
      var t := Step(false, s, Rename(0));
      t.files == [text] && t.path == Some(0) && t.last == Some(last) && forall p :: !Busy(t, p)
  {
  }

  lemma RunNone(serial: bool, n: nat, file: Option<string>)
    ensures Run(serial, n, file, []) == Start(n, file)
  {
  }

  // With two processes or more, the file is whole in every run exactly if they save one at
  // a time.
  lemma WholeIff(serial: bool, n: nat)
    requires n >= 2
    ensures (forall file, actions :: Whole(Run(serial, n, file, actions))) <==> serial
  {
    hide Run;
    if serial {
      forall file, actions ensures Whole(Run(serial, n, file, actions)) {
        RunWhole(n, file, actions);
      }
    } else {
      var t := TornFile(n, "{}", "{}");
      assert !Whole(Run(serial, n, None, t));
    }
  }
}
