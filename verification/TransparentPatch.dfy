// The loops of upsertTransparentKey and the file update around them
// (cmd/slimference/install_helpers.go).
module TransparentPatch {
  import opened Strs
  import opened TextLines
  import opened TransparentToml
  import opened TransparentRead
  import opened TransparentReload

  const SNI_PEEK_MODE := "sni_peek_mode"

  lemma JoinAppend(lines: seq<string>, more: seq<string>)
    requires lines != [] && more != []
    ensures Join(lines + more, "\n") == Join(lines, "\n") + "\n" + Join(more, "\n")
  {
    if |lines| == 1 {
      assert (lines + more)[1..] == more;
    } else {
      assert (lines + more)[1..] == lines[1..] + more;
      JoinAppend(lines[1..], more);
      var a, b, c := lines[0] + "\n", Join(lines[1..], "\n"), "\n" + Join(more, "\n");
      assert a + (b + c) == (a + b) + c;
      assert Join(lines[1..], "\n") + "\n" + Join(more, "\n") == b + c;
    }
  }

  lemma LastLine(data: string)
    ensures var lines := Split(data);
      lines[|lines| - 1] == "" <==> data == "" || data[|data| - 1] == '\n'
  {
    var k := Find(data, '\n', 0);
    if k < |data| {
      LastLine(data[k + 1..]);
      var rest := Split(data[k + 1..]);
      assert Split(data) == [data[..k]] + rest;
      assert Split(data)[|Split(data)| - 1] == rest[|rest| - 1];
    }
  }

  lemma AppendText(data: string, key: string, value: string)
    requires Plan(Split(data), key).Append?
    ensures Join(Edited(Split(data), key, value), "\n")
         == data + Suffix(data) + "\n" + TABLE + "\n" + Assignment(key, value) + "\n"
  {
    hide Plan, Assignment, Split, Join;
    var lines, line := Split(data), Assignment(key, value);
    EndedText(data);
    TailText(line);
    JoinAppend(Ended(lines), [TABLE, line, ""]);
    Regroup(Join(Ended(lines), "\n"), line);
  }

  function Suffix(data: string): string {
    if data != "" && data[|data| - 1] != '\n' then "\n" else ""
  }

  lemma EndedText(data: string)
    ensures Join(Ended(Split(data)), "\n") == data + Suffix(data)
  {
    hide *;
    var lines := Split(data);
    JoinSplit(data);
    EndedCases(lines);
    if lines[|lines| - 1] == "" {
      NoSuffix(data);
    } else {
      AddSuffix(data);
      JoinAppend(lines, [""]);
      OneText("");
      Unit(data + "\n");
    }
  }

  lemma Unit(s: string)
    ensures s + "" == s
  {
  }

  lemma NoSuffix(data: string)
    requires Split(data)[|Split(data)| - 1] == ""
    ensures data + Suffix(data) == data
  {
    LastLine(data);
  }

  lemma AddSuffix(data: string)
    requires Split(data)[|Split(data)| - 1] != ""
    ensures data + Suffix(data) == data + "\n"
  {
    LastLine(data);
  }

  lemma EndedCases(lines: seq<string>)
    requires lines != []
    ensures Ended(lines) == if lines[|lines| - 1] == "" then lines else lines + [""]
  {
  }

  lemma Regroup(a: string, line: string)
    ensures a + "\n" + (TABLE + "\n" + line + "\n") == a + "\n" + TABLE + "\n" + line + "\n"
  {
    var b := a + "\n";
    assert b + (TABLE + "\n" + line + "\n") == b + (TABLE + "\n" + line) + "\n";
    assert b + (TABLE + "\n" + line) == b + (TABLE + "\n") + line;
    assert b + (TABLE + "\n") == b + TABLE + "\n";
  }

  lemma OneText(s: string)
    ensures Join([s], "\n") == s
  {
  }

  lemma TailText(line: string)
    ensures Join([TABLE, line, ""], "\n") == TABLE + "\n" + line + "\n"
  {
    var tail := [TABLE, line, ""];
    assert tail[1..] == [line, ""] && [line, ""][1..] == [""];
    assert Join([line, ""], "\n") == line + "\n" + "";
    assert TABLE + "\n" + (line + "\n" + "") == TABLE + "\n" + line + "\n";
  }

  // What the three searches of the edit have found.
  ghost predicate Searched(lines: seq<string>, key: string, h: nat, end: nat, i: nat) {
    && h < end <= |lines| && h < i <= end
    && IsTable(lines[h]) && (forall j :: 0 <= j < h ==> !IsTable(lines[j]))
    && (end < |lines| ==> IsHeader(lines[end])) && (forall j :: h < j < end ==> !IsHeader(lines[j]))
    && (i < end ==> Assigns(lines[i], key)) && (forall j :: h < j < i ==> !Assigns(lines[j], key))
  }

  lemma SearchedPlan(lines: seq<string>, key: string, h: nat, end: nat, i: nat)
    requires Searched(lines, key, h, end, i)
    ensures Plan(lines, key) == if i < end then Replace(i) else Insert(h + 1)
  {
    hide IsTable, IsHeader, Assigns;
    assert FirstTable(lines, 0) == h;
    assert FirstHeader(lines, h + 1) == end;
    assert FirstAssignment(lines, h + 1, end, key) == i;
  }

  method UpsertTransparentKey(data: string, key: string, value: string) returns (r: string)
    requires BareKey(key) && Literal(value)
    ensures r == Join(Edited(Split(data), key, value), "\n")
    ensures Split(r) == Edited(Split(data), key, value)
  {
    hide IsTable, IsHeader, Assigns, Plan, Split, Join, Assignment, Rewrite, BareKey, Literal, FirstTable, Ended;
    var lines := Split(data);
    EditedSplits(data, key, value);
    var tableIdx := 0;
    while tableIdx < |lines| && !IsTable(lines[tableIdx])
      invariant tableIdx <= |lines|
      invariant forall j :: 0 <= j < tableIdx ==> !IsTable(lines[j])
    {
      tableIdx := tableIdx + 1;
    }
    if tableIdx == |lines| {
      var suffix := "";
      if data != "" && data[|data| - 1] != '\n' {
        suffix := "\n";
      }
      NoTablePlan(lines, key);
      AppendText(data, key, value);
      return data + suffix + "\n" + TABLE + "\n" + Assignment(key, value) + "\n";
    }
    var endIdx := tableIdx + 1;
    while endIdx < |lines| && !IsHeader(lines[endIdx])
      invariant tableIdx < endIdx <= |lines|
      invariant forall j :: tableIdx < j < endIdx ==> !IsHeader(lines[j])
    {
      endIdx := endIdx + 1;
    }
    var i := tableIdx + 1;
    while i < endIdx
      invariant tableIdx < i <= endIdx
      invariant forall j :: tableIdx < j < i ==> !Assigns(lines[j], key)
    {
      if Assigns(lines[i], key) {
        SearchedPlan(lines, key, tableIdx, endIdx, i);
        lines := lines[i := Rewrite(lines[i], key, value)];
        return Join(lines, "\n");
      }
      i := i + 1;
    }
    SearchedPlan(lines, key, tableIdx, endIdx, i);
    var newLines := lines[..tableIdx + 1];
    newLines := newLines + [Assignment(key, value)];
    newLines := newLines + lines[tableIdx + 1..];
    r := Join(newLines, "\n");
  }

  lemma NoTablePlan(lines: seq<string>, key: string)
    requires forall j :: 0 <= j < |lines| ==> !IsTable(lines[j])
    ensures Plan(lines, key) == Append
  {
  }

  lemma EditedSplits(data: string, key: string, value: string)
    requires BareKey(key) && Literal(value)
    ensures Split(Join(Edited(Split(data), key, value), "\n")) == Edited(Split(data), key, value)
  {
    hide OneLine, ValueStart, Join;
    var lines := Split(data);
    var r := Edited(lines, key, value);
    SplitLines(data);
    AssignmentAssigns(key, value);
    TableMentionsNothing(key);
    if Plan(lines, key).Replace? {
      RewriteKeeps(lines[Plan(lines, key).at], key, value);
    }
    SplitJoin(r);
  }

  // Erasing the written line gives back the file, or the file with its last line ended
  // and a table header added.
  lemma EditFrames(lines: seq<string>, key: string, value: string)
    requires BareKey(key) && Literal(value)
    ensures var r, k := Edited(lines, key, value), WrittenAt(lines, key);
      k < |r| && r[..k] + r[k + 1..] ==
        match Plan(lines, key)
        case Replace(k) => lines[..k] + lines[k + 1..]
        case Insert(k) => lines
        case Append => Ended(lines) + [TABLE, ""]
  {
  }

  // What is written, to the letter.
  lemma EditedIs(lines: seq<string>, key: string, value: string)
    ensures var e := Plan(lines, key); var r := Edited(lines, key, value);
      && (e.Replace? ==> r == lines[e.at := lines[e.at][..ValueStart(lines[e.at], key).value] + value])
      && (e.Insert? ==> r == lines[..e.at] + [key + " = " + value] + lines[e.at..])
      && (e.Append? && (lines == [] || lines[|lines| - 1] == "") ==>
            r == lines + ["[transparent]", key + " = " + value, ""])
      && (e.Append? && lines != [] && lines[|lines| - 1] != "" ==>
            r == lines + ["", "[transparent]", key + " = " + value, ""])
  {
    hide ValueStart;
  }

  // Where: the first table header, then the first assignment in front of the next header.
  lemma PlanIs(lines: seq<string>, key: string, h: nat, end: nat)
    requires h < end <= |lines| && IsTable(lines[h]) && (forall i :: 0 <= i < h ==> !IsTable(lines[i]))
    requires (forall i :: h < i < end ==> !IsHeader(lines[i])) && (end < |lines| ==> IsHeader(lines[end]))
    ensures (forall i :: h < i < end ==> !Assigns(lines[i], key)) ==> Plan(lines, key) == Insert(h + 1)
    ensures forall k :: h < k < end && Assigns(lines[k], key) && (forall i :: h < i < k ==> !Assigns(lines[i], key)) ==>
      Plan(lines, key) == Replace(k)
  {
    hide IsTable, IsHeader, Assigns;
    assert FirstTable(lines, 0) == h && FirstHeader(lines, h + 1) == end;
  }

  lemma AppendIs(lines: seq<string>, key: string)
    requires forall i :: 0 <= i < |lines| ==> !IsTable(lines[i])
    ensures Plan(lines, key) == Append
  {
    hide IsTable;
  }

  predicate Changes(lines: seq<string>, value: string)
    requires Literal(value)
  {
    Edited(lines, SNI_PEEK_MODE, value) != lines
  }

  datatype PatchError = EmptyPath | MkdirFailed | ReadFailed | WriteFailed

  datatype PatchResult = Patched(file: Option<string>, wrote: bool) | PatchFailed(error: PatchError)

  // The directory, read and write outcomes come from outside. file is the content found,
  // None if there is no such file.
  method PatchSNIPeekMode(path: string, enabled: bool, mkdirOk: bool, readOk: bool, writeOk: bool, file: Option<string>)
      returns (r: PatchResult)
    ensures r.Patched? ==> r.file.Some? && r.wrote == (r.file != file)
    ensures r.Patched? ==> path != "" && mkdirOk && readOk
    ensures r.Patched? && file.Some? ==>
      Split(r.file.value) == Edited(Split(file.value), SNI_PEEK_MODE, if enabled then "true" else "false")
    ensures r.Patched? && file.None? ==> ReadBool(r.file.value, SNI_PEEK_MODE) == Some(enabled)
    ensures r.Patched? && file.Some? ==>
      ReadBool(r.file.value, SNI_PEEK_MODE)
      == OrElse(ReadBool(Above(Split(file.value), SNI_PEEK_MODE), SNI_PEEK_MODE), Some(enabled))
    ensures r.Patched? && file.None? ==>
      r.file.value == "[transparent]\nsni_peek_mode = " + (if enabled then "true" else "false") + "\n"
    ensures r == PatchFailed(EmptyPath) <==> path == ""
    ensures r == PatchFailed(MkdirFailed) <==> path != "" && !mkdirOk
    ensures r == PatchFailed(ReadFailed) <==> path != "" && mkdirOk && !readOk
    ensures r == PatchFailed(WriteFailed) <==>
      path != "" && mkdirOk && readOk && !writeOk
      && (file.None? || Changes(Split(file.value), if enabled then "true" else "false"))
  {
    hide ReadBool, Split, Join, Edited, Above, OneLine;
    if path == "" { return PatchFailed(EmptyPath); }
    if !mkdirOk { return PatchFailed(MkdirFailed); }
    if !readOk { return PatchFailed(ReadFailed); }
    var value := "false";
    if enabled {
      value := "true";
    }
    assert BareKey(SNI_PEEK_MODE);
    hide BareKey;
    if file.None? {
      var stub := TABLE + "\n" + SNI_PEEK_MODE + " = " + value + "\n";
      if !writeOk { return PatchFailed(WriteFailed); }
      StubReads(value);
      StubText(value);
      return Patched(Some(stub), true);
    }
    var newData := UpsertTransparentKey(file.value, SNI_PEEK_MODE, value);
    JoinSplit(file.value);
    SplitLines(file.value);
    ReadsBack(Split(file.value), SNI_PEEK_MODE, value);
    if newData == file.value {
      return Patched(file, false);
    }
    if !writeOk { return PatchFailed(WriteFailed); }
    r := Patched(Some(newData), true);
  }

  lemma StubText(value: string)
    ensures TABLE + "\n" + SNI_PEEK_MODE + " = " + value + "\n" == "[transparent]\nsni_peek_mode = " + value + "\n"
  {
    assert TABLE + "\n" + SNI_PEEK_MODE + " = " == "[transparent]\nsni_peek_mode = ";
  }

  lemma StubReads(value: string)
    requires Literal(value)
    ensures ReadBool(TABLE + "\n" + SNI_PEEK_MODE + " = " + value + "\n", SNI_PEEK_MODE) == Some(value == "true")
  {
    hide ReadFrom, ValueStart;
    var t, line := TABLE + "\n", Assignment(SNI_PEEK_MODE, value);
    AssignmentAssigns(SNI_PEEK_MODE, value);
    ReadWritten(t, line, "\n", 0, SNI_PEEK_MODE, value);
    TableMentionsNothing(SNI_PEEK_MODE);
    ReadsNothing([TABLE], SNI_PEEK_MODE);
    assert Before([TABLE], 1) == Before([TABLE], 0) + TABLE + "\n" == t;
    assert TABLE + "\n" + SNI_PEEK_MODE + " = " + value + "\n" == t + (line + "\n");
  }

  // A file whose first table happens to use the key.
  function TwoTables(): seq<string> {
    ["[other]", Assignment(SNI_PEEK_MODE, "true"), TABLE, Assignment(SNI_PEEK_MODE, "true")]
  }

  // Switching it off goes to the second table, and the reader still finds the first.
  lemma OtherTableWins()
    ensures Plan(TwoTables(), SNI_PEEK_MODE) == Replace(3)
    ensures ReadBool(Join(Edited(TwoTables(), SNI_PEEK_MODE, "false"), "\n"), SNI_PEEK_MODE) == Some(true)
  {
    hide ReadBool, Join, Edited, Plan, IsTable, IsHeader, ValueStart, BareKey, OneLine, Before, Mentions;
    var lines, line := TwoTables(), Assignment(SNI_PEEK_MODE, "true");
    SwitchIsBare();
    OtherIsNoTable();
    TableIsTable();
    AssignmentAssigns(SNI_PEEK_MODE, "true");
    AssignmentIsNoHeader(line, SNI_PEEK_MODE);
    PlanReplace(lines, SNI_PEEK_MODE, 2, 3);
    TableMentionsNothing(SNI_PEEK_MODE);
    ReadsBack(lines, SNI_PEEK_MODE, "false");
    FirstTableRead(line);
  }

  lemma SwitchIsBare()
    ensures BareKey(SNI_PEEK_MODE)
  {
  }

  lemma OtherIsNoTable()
    ensures !IsTable("[other]") && OneLine("[other]") && !Mentions("[other]", SNI_PEEK_MODE)
  {
    TrimStart("[other]", 0);
    TrimLeftFinds("[other]", 0);
    assert "[other]"[6] == ']' && TrimSpace("[other]") == "[other]";
    assert |"[other]"| != |TABLE|;
    SkipExact("[other]", 0, 0);
    assert |SNI_PEEK_MODE| > |"[other]"|;
  }

  lemma FirstTableRead(line: string)
    requires line == Assignment(SNI_PEEK_MODE, "true")
    ensures ReadBool(Before(TwoTables(), 3), SNI_PEEK_MODE) == Some(true)
  {
    hide ReadFrom, ValueStart, Mentions, OneLine, BareKey;
    var t, rest := "[other]\n", "\n" + TABLE + "\n";
    SwitchIsBare();
    OtherIsNoTable();
    AssignmentAssigns(SNI_PEEK_MODE, "true");
    ReadWritten(t, line, rest, 0, SNI_PEEK_MODE, "true");
    ReadsNothing(["[other]"], SNI_PEEK_MODE);
    assert Before(["[other]"], 1) == Before(["[other]"], 0) + "[other]" + "\n" == t;
    ThreeLines(line);
  }

  lemma ThreeLines(line: string)
    requires line == Assignment(SNI_PEEK_MODE, "true")
    ensures Before(TwoTables(), 3) == "[other]\n" + (line + ("\n" + TABLE + "\n"))
  {
    var lines := TwoTables();
    assert Before(lines, 1) == Before(lines, 0) + lines[0] + "\n" == "[other]\n";
    assert Before(lines, 2) == Before(lines, 1) + line + "\n";
    assert Before(lines, 3) == Before(lines, 2) + TABLE + "\n";
  }
}
