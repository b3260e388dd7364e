// What the edit of the [transparent] table does to the settings of every table
// (cmd/slimference/install_helpers.go), by a reading of the whole file.
module TransparentTables {
  import opened Strs
  import opened TransparentToml

  // The value a line gives to the key.
  function LineValues(line: string, key: string): seq<string> {
    if Assigns(line, key) then [line[ValueStart(line, key).value..]] else []
  }

  // The values given to a key inside a table, in order. A table is named by its header
  // line, the top of the file by "".
  function Values(lines: seq<string>, inside: bool, table: string, key: string): seq<string> {
    if lines == [] then []
    else if IsHeader(lines[0]) then Values(lines[1..], TrimSpace(lines[0]) == table, table, key)
    else (if inside then LineValues(lines[0], key) else []) + Values(lines[1..], inside, table, key)
  }

  function Setting(lines: seq<string>, table: string, key: string): seq<string> {
    Values(lines, table == "", table, key)
  }

  function InsideAfter(lines: seq<string>, inside: bool, table: string): bool {
    if lines == [] then inside
    else InsideAfter(lines[1..], if IsHeader(lines[0]) then TrimSpace(lines[0]) == table else inside, table)
  }

  lemma {:induction false} ValuesConcat(a: seq<string>, b: seq<string>, inside: bool, table: string, key: string)
    ensures Values(a + b, inside, table, key)
         == Values(a, inside, table, key) + Values(b, InsideAfter(a, inside, table), table, key)
  {
    hide IsHeader, LineValues;
    if a == [] {
      assert a + b == b;
    } else {
      assert (a + b)[1..] == a[1..] + b;
      ValuesConcat(a[1..], b, if IsHeader(a[0]) then TrimSpace(a[0]) == table else inside, table, key);
    }
  }

  lemma {:induction false} InsideConcat(a: seq<string>, b: seq<string>, inside: bool, table: string)
    ensures InsideAfter(a + b, inside, table) == InsideAfter(b, InsideAfter(a, inside, table), table)
  {
    hide IsHeader;
    if a == [] {
      assert a + b == b;
    } else {
      assert (a + b)[1..] == a[1..] + b;
      InsideConcat(a[1..], b, if IsHeader(a[0]) then TrimSpace(a[0]) == table else inside, table);
    }
  }

  lemma {:induction false} NoHeaders(lines: seq<string>, inside: bool, table: string)
    requires forall j :: 0 <= j < |lines| ==> !IsHeader(lines[j])
    ensures InsideAfter(lines, inside, table) == inside
  {
    hide IsHeader;
    if lines != [] {
      NoHeaders(lines[1..], inside, table);
    }
  }

  lemma {:induction false} NoAssignments(lines: seq<string>, inside: bool, table: string, key: string)
    requires forall j :: 0 <= j < |lines| ==> !IsHeader(lines[j]) && !Assigns(lines[j], key)
    ensures Values(lines, inside, table, key) == []
  {
    hide IsHeader, Assigns;
    if lines != [] {
      NoAssignments(lines[1..], inside, table, key);
    }
  }

  lemma {:induction false} NoTable(lines: seq<string>, key: string)
    requires forall j :: 0 <= j < |lines| ==> !IsTable(lines[j])
    ensures Values(lines, false, TABLE, key) == []
  {
    hide IsHeader, LineValues;
    if lines != [] {
      assert !IsTable(lines[0]);
      NoTable(lines[1..], key);
    }
  }

  lemma TableIsHeader(line: string)
    requires IsTable(line)
    ensures IsHeader(line) && TrimSpace(line) == TABLE
  {
  }

  // Below the [transparent] header and above the next one, that table is the open one.
  lemma AfterTable(lines: seq<string>, h: nat, k: nat, table: string)
    requires h < k <= |lines| && IsTable(lines[h])
    requires forall j :: h < j < k ==> !IsHeader(lines[j])
    ensures InsideAfter(lines[..k], table == "", table) == (table == TABLE)
  {
    hide IsHeader;
    var pre, mid := lines[..h], lines[h + 1..k];
    assert lines[..k] == pre + ([lines[h]] + mid);
    InsideConcat(pre, [lines[h]] + mid, table == "", table);
    assert ([lines[h]] + mid)[1..] == mid;
    TableIsHeader(lines[h]);
    NoHeaders(mid, table == TABLE, table);
  }

  // Nothing above the first assignment in the first [transparent] table sets the key there.
  lemma NothingAbove(lines: seq<string>, h: nat, k: nat, key: string)
    requires h < k <= |lines| && IsTable(lines[h])
    requires forall j :: 0 <= j < h ==> !IsTable(lines[j])
    requires forall j :: h < j < k ==> !IsHeader(lines[j]) && !Assigns(lines[j], key)
    ensures Setting(lines[..k], TABLE, key) == []
  {
    hide IsHeader, Assigns, LineValues;
    var pre, mid := lines[..h], lines[h + 1..k];
    assert lines[..k] == pre + ([lines[h]] + mid);
    ValuesConcat(pre, [lines[h]] + mid, false, TABLE, key);
    NoTable(pre, key);
    assert ([lines[h]] + mid)[1..] == mid;
    TableIsHeader(lines[h]);
    NoAssignments(mid, true, TABLE, key);
  }

  // A line assigns one key at most.
  lemma OneKey(line: string, key: string, other: string)
    requires BareKey(key) && BareKey(other) && Assigns(line, key) && Assigns(line, other)
    ensures key == other
  {
    hide IsBare, Assigns;
    KeyEnds(line, key);
    KeyEnds(line, other);
  }

  // What one line that is no header adds.
  lemma OneLineIn(pre: seq<string>, line: string, post: seq<string>, table: string, key: string)
    requires !IsHeader(line)
    ensures Setting(pre + ([line] + post), table, key)
         == Setting(pre, table, key)
            + ((if InsideAfter(pre, table == "", table) then LineValues(line, key) else [])
               + Values(post, InsideAfter(pre, table == "", table), table, key))
  {
    hide IsHeader, LineValues;
    ValuesConcat(pre, [line] + post, table == "", table, key);
    assert ([line] + post)[1..] == post;
  }

  // What the settings become: the first value of the key in the table is the written one
  // and every other value of every key in every table is as it was.
  function After(before: seq<string>, replaced: bool, value: string): seq<string>
    requires replaced ==> before != []
  {
    if replaced then before[0 := value] else [value] + before
  }

  lemma WrittenValues(line: string, key: string, value: string, other: string)
    requires BareKey(key) && BareKey(other) && !IsHeader(line)
    requires ValueStart(line, key).Some? && line[ValueStart(line, key).value..] == value
    ensures LineValues(line, other) == if other == key then [value] else []
  {
    if other != key && Assigns(line, other) {
      OneKey(line, key, other);
    }
  }

  // Swapping a line for one that adds the same values changes nothing.
  lemma SwapSame(pre: seq<string>, x: string, y: string, post: seq<string>, table: string, key: string)
    requires !IsHeader(x) && !IsHeader(y)
    requires InsideAfter(pre, table == "", table) ==> LineValues(x, key) == LineValues(y, key)
    ensures Setting(pre + ([x] + post), table, key) == Setting(pre + ([y] + post), table, key)
  {
    hide *;
    OneLineIn(pre, x, post, table, key);
    OneLineIn(pre, y, post, table, key);
  }

  lemma SwapFirst(pre: seq<string>, x: string, y: string, post: seq<string>, key: string, u: string, v: string)
    requires !IsHeader(x) && !IsHeader(y) && InsideAfter(pre, TABLE == "", TABLE) && Setting(pre, TABLE, key) == []
    requires LineValues(x, key) == [u] && LineValues(y, key) == [v]
    ensures Setting(pre + ([x] + post), TABLE, key) != []
    ensures Setting(pre + ([y] + post), TABLE, key) == Setting(pre + ([x] + post), TABLE, key)[0 := v]
  {
    hide *;
    OneLineIn(pre, x, post, TABLE, key);
    OneLineIn(pre, y, post, TABLE, key);
    var tail := Values(post, InsideAfter(pre, TABLE == "", TABLE), TABLE, key);
    assert [] + ([u] + tail) == [u] + tail && [] + ([v] + tail) == [v] + tail;
    assert ([u] + tail)[0 := v] == [v] + tail;
  }

  lemma Where(lines: seq<string>, key: string) returns (h: nat)
    requires Plan(lines, key).Replace?
    ensures h < Plan(lines, key).at && IsTable(lines[h]) && forall j :: 0 <= j < h ==> !IsTable(lines[j])
    ensures forall j :: h < j < Plan(lines, key).at ==> !IsHeader(lines[j]) && !Assigns(lines[j], key)
  {
    hide IsHeader, IsTable, Assigns;
    h := FirstTable(lines, 0);
  }

  lemma ReplaceParts(lines: seq<string>, key: string, value: string, table: string)
    requires BareKey(key) && Plan(lines, key).Replace?
    ensures var k := Plan(lines, key).at; var pre, post := lines[..k], lines[k + 1..];
      && Setting(pre, TABLE, key) == []
      && InsideAfter(pre, table == "", table) == (table == TABLE)
      && lines == pre + ([lines[k]] + post)
      && Edited(lines, key, value) == pre + ([Rewrite(lines[k], key, value)] + post)
  {
    hide IsHeader, IsTable, Assigns, Setting, InsideAfter, Rewrite, Plan, BareKey, TrimSpace, ValueStart;
    var k := Plan(lines, key).at;
    var h := Where(lines, key);
    AfterTable(lines, h, k, table);
    NothingAbove(lines, h, k, key);
  }

  lemma RewrittenValue(line: string, key: string, value: string)
    requires Assigns(line, key)
    ensures ValueStart(line, key).value <= |Rewrite(line, key, value)|
    ensures Rewrite(line, key, value)[ValueStart(line, key).value..] == value
  {
  }

  lemma ReplaceSets(lines: seq<string>, key: string, value: string, table: string, other: string)
    requires BareKey(key) && BareKey(other) && Literal(value) && Plan(lines, key).Replace?
    ensures table == TABLE && other == key ==> Setting(lines, table, other) != []
    ensures Setting(Edited(lines, key, value), table, other) ==
      if table == TABLE && other == key then After(Setting(lines, table, other), true, value)
      else Setting(lines, table, other)
  {
    hide IsHeader, LineValues, Setting, Rewrite, InsideAfter, Values, Edited, Plan, BareKey, Literal, ValueStart;
    var k := Plan(lines, key).at;
    var r := Rewrite(lines[k], key, value);
    var pre, post := lines[..k], lines[k + 1..];
    ReplaceParts(lines, key, value, table);
    RewriteKeeps(lines[k], key, value);
    AssignmentIsNoHeader(lines[k], key);
    AssignmentIsNoHeader(r, key);
    var was := lines[k][ValueStart(lines[k], key).value..];
    RewrittenValue(lines[k], key, value);
    WrittenValues(r, key, value, other);
    WrittenValues(lines[k], key, was, other);
    if table == TABLE && other == key {
      SwapFirst(pre, lines[k], r, post, key, was, value);
    } else {
      SwapSame(pre, lines[k], r, post, table, other);
    }
  }

  lemma InsertParts(lines: seq<string>, key: string, value: string, table: string)
    requires Plan(lines, key).Insert?
    ensures var k := Plan(lines, key).at; var pre, post := lines[..k], lines[k..];
      && Setting(pre, TABLE, key) == []
      && InsideAfter(pre, table == "", table) == (table == TABLE)
      && lines == pre + post
      && Edited(lines, key, value) == pre + ([Assignment(key, value)] + post)
  {
    hide IsHeader, IsTable, Assigns, Setting, InsideAfter, Assignment, Plan, TrimSpace, ValueStart;
    var k := Plan(lines, key).at;
    InsertBelow(lines, key);
    AfterTable(lines, k - 1, k, table);
    NothingAbove(lines, k - 1, k, key);
  }

  lemma InsertBelow(lines: seq<string>, key: string)
    requires Plan(lines, key).Insert?
    ensures var h := Plan(lines, key).at - 1;
      IsTable(lines[h]) && forall j :: 0 <= j < h ==> !IsTable(lines[j])
  {
    hide IsHeader, IsTable, Assigns;
  }

  lemma InsertSets(lines: seq<string>, key: string, value: string, table: string, other: string)
    requires BareKey(key) && BareKey(other) && Literal(value) && Plan(lines, key).Insert?
    ensures Setting(Edited(lines, key, value), table, other) ==
      if table == TABLE && other == key then After(Setting(lines, table, other), false, value)
      else Setting(lines, table, other)
  {
    hide IsHeader, LineValues, Setting, InsideAfter, Values, Edited, Plan, BareKey, Literal, ValueStart, Assignment;
    var k := Plan(lines, key).at;
    var pre, post := lines[..k], lines[k..];
    InsertParts(lines, key, value, table);
    SettingConcat(pre, post, table, other);
    WrittenLine(key, value, other);
    OneLineIn(pre, Assignment(key, value), post, table, other);
  }

  lemma SettingConcat(pre: seq<string>, post: seq<string>, table: string, key: string)
    ensures Setting(pre + post, table, key)
         == Setting(pre, table, key) + Values(post, InsideAfter(pre, table == "", table), table, key)
  {
    ValuesConcat(pre, post, table == "", table, key);
  }

  lemma WrittenLine(key: string, value: string, other: string)
    requires BareKey(key) && BareKey(other) && Literal(value)
    ensures !IsHeader(Assignment(key, value))
    ensures LineValues(Assignment(key, value), other) == if other == key then [value] else []
  {
    hide IsHeader, LineValues, ValueStart;
    var r := Assignment(key, value);
    AssignmentAssigns(key, value);
    AssignmentIsNoHeader(r, key);
    assert r[|key| + 3..] == value;
    WrittenValues(r, key, value, other);
  }

  lemma EmptyLine(inside: bool, table: string, key: string)
    requires BareKey(key)
    ensures Values([""], inside, table, key) == [] && InsideAfter([""], inside, table) == inside
    ensures !IsTable("")
  {
    assert TrimSpace("") == "";
  }

  lemma AppendedSets(key: string, value: string, inside: bool, table: string, other: string)
    requires BareKey(key) && BareKey(other) && Literal(value)
    ensures Values([TABLE, Assignment(key, value), ""], inside, table, other) ==
      if table == TABLE && other == key then [value] else []
  {
    hide IsHeader, LineValues, ValueStart;
    var r := Assignment(key, value);
    var all := [TABLE, r, ""];
    TableIsTable();
    TableIsHeader(TABLE);
    WrittenLine(key, value, other);
    EmptyLine(table == TABLE, table, other);
    assert all[1..] == [r, ""] && [r, ""][1..] == [""];
  }

  lemma AppendSets(lines: seq<string>, key: string, value: string, table: string, other: string)
    requires BareKey(key) && BareKey(other) && Literal(value) && Plan(lines, key).Append?
    ensures Setting(Edited(lines, key, value), table, other) ==
      if table == TABLE && other == key then After(Setting(lines, table, other), false, value)
      else Setting(lines, table, other)
  {
    hide IsHeader, LineValues, ValueStart, IsTable;
    var inside := table == "";
    var tail := [TABLE, Assignment(key, value), ""];
    EmptyLine(InsideAfter(lines, inside, table), table, other);
    ValuesConcat(lines, [""], inside, table, other);
    assert Setting(Ended(lines), table, other) == Setting(lines, table, other);
    ValuesConcat(Ended(lines), tail, inside, table, other);
    AppendedSets(key, value, InsideAfter(Ended(lines), inside, table), table, other);
    NoTable(lines, key);
  }

  lemma EditSets(lines: seq<string>, key: string, value: string, table: string, other: string)
    requires BareKey(key) && BareKey(other) && Literal(value)
    ensures Plan(lines, key).Replace? ==> Setting(lines, TABLE, key) != []
    ensures Setting(Edited(lines, key, value), table, other) ==
      if table == TABLE && other == key then After(Setting(lines, table, other), Plan(lines, key).Replace?, value)
      else Setting(lines, table, other)
  {
    hide Plan, Edited, Setting;
    match Plan(lines, key) {
      case Replace(_) =>
        ReplaceSets(lines, key, value, TABLE, key);
        ReplaceSets(lines, key, value, table, other);
      case Insert(_) => InsertSets(lines, key, value, table, other);
      case Append => AppendSets(lines, key, value, table, other);
    }
  }
}
