// The surgical edit of the [transparent] table (cmd/slimference/install_helpers.go).
module TransparentToml {
  import opened Strs
  import opened TextLines

  const TABLE := "[transparent]"

  // The white space of Go's regular expressions.
  predicate IsBlank(c: char) {
    c == '\t' || c == '\n' || c == '\U{000C}' || c == '\r' || c == ' '
  }

  predicate IsBare(c: char) {
    'A' <= c <= 'Z' || 'a' <= c <= 'z' || '0' <= c <= '9' || c == '_' || c == '-'
  }

  // A bare TOML key, as sni_peek_mode.
  predicate BareKey(key: string) {
    key != "" && forall i :: 0 <= i < |key| ==> IsBare(key[i])
  }

  predicate Literal(value: string) {
    value == "true" || value == "false"
  }

  function SkipBlank(s: string, i: nat): (k: nat)
    requires i <= |s|
    ensures i <= k <= |s|
    ensures forall j :: i <= j < k ==> IsBlank(s[j])
    ensures k < |s| ==> !IsBlank(s[k])
    decreases |s| - i
  {
    if i < |s| && IsBlank(s[i]) then SkipBlank(s, i + 1) else i
  }

  predicate At(s: string, i: nat, word: string) {
    i + |word| <= |s| && s[i..i + |word|] == word
  }

  // Where the value starts, if the line assigns the key.
  function ValueStart(line: string, key: string): (k: Option<nat>)
    ensures k.Some? ==> k.value <= |line|
  {
    var a := SkipBlank(line, 0);
    if !At(line, a, key) then None
    else
      var b := SkipBlank(line, a + |key|);
      if b == |line| || line[b] != '=' then None else Some(SkipBlank(line, b + 1))
  }

  predicate Assigns(line: string, key: string) {
    ValueStart(line, key).Some?
  }

  predicate IsTable(line: string) {
    TrimSpace(line) == TABLE
  }

  predicate IsHeader(line: string) {
    var t := TrimSpace(line);
    t != "" && t[0] == '[' && t[|t| - 1] == ']'
  }

  function FirstTable(lines: seq<string>, i: nat): (k: nat)
    requires i <= |lines|
    ensures i <= k <= |lines|
    ensures k < |lines| ==> IsTable(lines[k])
    ensures forall j :: i <= j < k ==> !IsTable(lines[j])
    decreases |lines| - i
  {
    if i == |lines| || IsTable(lines[i]) then i else FirstTable(lines, i + 1)
  }

  function FirstHeader(lines: seq<string>, i: nat): (k: nat)
    requires i <= |lines|
    ensures i <= k <= |lines|
    ensures k < |lines| ==> IsHeader(lines[k])
    ensures forall j :: i <= j < k ==> !IsHeader(lines[j])
    decreases |lines| - i
  {
    if i == |lines| || IsHeader(lines[i]) then i else FirstHeader(lines, i + 1)
  }

  function FirstAssignment(lines: seq<string>, i: nat, end: nat, key: string): (k: nat)
    requires i <= end <= |lines|
    ensures i <= k <= end
    ensures k < end ==> Assigns(lines[k], key)
    ensures forall j :: i <= j < k ==> !Assigns(lines[j], key)
    decreases end - i
  {
    if i == end || Assigns(lines[i], key) then i else FirstAssignment(lines, i + 1, end, key)
  }

  // ---- the edit, line by line ----

  function Assignment(key: string, value: string): string {
    key + " = " + value
  }

  function Rewrite(line: string, key: string, value: string): string
    requires Assigns(line, key)
  {
    line[..ValueStart(line, key).value] + value
  }

  datatype Edit =
    | Replace(at: nat)
    | Insert(at: nat)
    | Append

  function Plan(lines: seq<string>, key: string): (e: Edit)
    ensures e.Replace? ==> e.at < |lines| && Assigns(lines[e.at], key)
    ensures e.Insert? ==> 0 < e.at <= |lines|
  {
    var h := FirstTable(lines, 0);
    if h == |lines| then Append
    else
      var end := FirstHeader(lines, h + 1);
      var k := FirstAssignment(lines, h + 1, end, key);
      if k < end then Replace(k) else Insert(h + 1)
  }

  // A last line that a newline does not end is ended first.
  function Ended(lines: seq<string>): seq<string> {
    if lines == [] || lines[|lines| - 1] == "" then lines else lines + [""]
  }

  function Edited(lines: seq<string>, key: string, value: string): seq<string> {
    match Plan(lines, key)
    case Replace(k) => lines[k := Rewrite(lines[k], key, value)]
    case Insert(k) => lines[..k] + [Assignment(key, value)] + lines[k..]
    case Append => Ended(lines) + [TABLE, Assignment(key, value), ""]
  }

  // ---- facts about lines ----

  lemma SkipExact(s: string, i: nat, k: nat)
    requires i <= k <= |s| && (forall j :: i <= j < k ==> IsBlank(s[j])) && (k < |s| ==> !IsBlank(s[k]))
    ensures SkipBlank(s, i) == k
  {
  }

  predicate Blanks(s: string, i: nat, k: nat) {
    i <= k <= |s| && forall j :: i <= j < k ==> IsBlank(s[j])
  }

  // The places that the scan of an assignment stops at.
  lemma ValueStartExact(s: string, key: string, a: nat, b: nat, c: nat)
    requires BareKey(key) && Blanks(s, 0, a) && At(s, a, key)
    requires Blanks(s, a + |key|, b) && b < |s| && s[b] == '='
    requires Blanks(s, b + 1, c) && c < |s| && !IsBlank(s[c])
    ensures ValueStart(s, key) == Some(c)
  {
    assert s[a] == s[a..a + |key|][0] == key[0];
    assert IsBare(key[0]);
    SkipExact(s, 0, a);
    SkipExact(s, a + |key|, b);
    SkipExact(s, b + 1, c);
  }

  lemma BlankAndBareCodes(c: char)
    ensures IsBlank(c) <==> c as int in {9, 10, 12, 13, 32}
    ensures IsBare(c) <==>
      65 <= c as int <= 90 || 97 <= c as int <= 122 || 48 <= c as int <= 57 || c as int == 95 || c as int == 45
  {
  }

  // The line is white space, the key, white space, an equals sign and white space, then
  // the value.
  predicate AssignsAt(line: string, key: string, a: nat, b: nat, c: nat) {
    && Blanks(line, 0, a) && At(line, a, key) && Blanks(line, a + |key|, b) && b < |line| && line[b] as int == 61
    && Blanks(line, b + 1, c) && (c < |line| ==> !IsBlank(line[c]))
  }

  lemma AssignsMeans(line: string, key: string, c: nat)
    requires BareKey(key)
    ensures ValueStart(line, key) == Some(c) <==> exists a, b :: AssignsAt(line, key, a, b, c)
  {
    hide IsBlank;
    if a: nat, b: nat :| AssignsAt(line, key, a, b, c) {
      AssignedAt(line, key, a, b, c);
    }
    if ValueStart(line, key) == Some(c) {
      var a := SkipBlank(line, 0);
      assert AssignsAt(line, key, a, SkipBlank(line, a + |key|), c);
    }
  }

  lemma AssignedAt(line: string, key: string, a: nat, b: nat, c: nat)
    requires BareKey(key) && AssignsAt(line, key, a, b, c)
    ensures ValueStart(line, key) == Some(c)
  {
    hide IsBlank, At;
    EqualsIsNoBlank();
    KeyIsNoBlank(line, a, key);
    SkipExact(line, 0, a);
    SkipExact(line, a + |key|, b);
    SkipExact(line, b + 1, c);
  }

  lemma EqualsIsNoBlank()
    ensures !IsBlank('=')
  {
  }

  lemma KeyIsNoBlank(line: string, a: nat, key: string)
    requires BareKey(key) && At(line, a, key)
    ensures a < |line| && !IsBlank(line[a])
  {
    assert line[a] == line[a..a + |key|][0] && IsBare(key[0]);
  }

  // A table is its name alone on a line; any header stands in brackets.
  lemma HeadersMean(line: string)
    ensures IsTable(line) <==> TrimSpace(line) == "[transparent]"
    ensures IsHeader(line) <==> Bracketed(TrimSpace(line))
  {
    hide TrimSpace;
  }

  predicate Bracketed(t: string) {
    t != "" && t[0] as int == 91 && t[|t| - 1] as int == 93
  }

  lemma TrimStart(s: string, k: nat)
    requires k < |s| && !IsSpace(s[k]) && forall j :: 0 <= j < k ==> IsSpace(s[j])
    ensures TrimSpace(s) != "" && TrimSpace(s)[0] == s[k]
  {
    if k == 0 {
      assert TrimLeft(s) == s;
    } else {
      assert s[1..][k - 1] == s[k];
      TrimStart(s[1..], k - 1);
    }
    KeepsFirst(TrimLeft(s));
    TrimLeftFinds(s, k);
  }

  lemma TrimLeftFinds(s: string, k: nat)
    requires k < |s| && !IsSpace(s[k]) && forall j :: 0 <= j < k ==> IsSpace(s[j])
    ensures TrimLeft(s) == s[k..]
  {
    if k > 0 {
      TrimLeftFinds(s[1..], k - 1);
      assert s[1..][k - 1..] == s[k..];
    }
  }

  lemma KeepsFirst(s: string)
    requires s != "" ==> !IsSpace(s[0])
    ensures s != "" ==> TrimRight(s) != "" && TrimRight(s)[0] == s[0]
  {
  }

  lemma BareAt(line: string, a: nat, key: string)
    requires BareKey(key) && At(line, a, key)
    ensures forall j :: a <= j < a + |key| ==> IsBare(line[j])
  {
    hide IsBare;
    forall j | a <= j < a + |key| ensures IsBare(line[j]) {
      assert line[j] == line[a..a + |key|][j - a];
    }
  }

  lemma BlankIsNotBare(c: char)
    requires IsBlank(c) || c == '='
    ensures !IsBare(c)
  {
  }

  lemma AssignsScan(line: string, key: string)
    requires Assigns(line, key)
    ensures var a := SkipBlank(line, 0);
      At(line, a, key) && a + |key| < |line| && (IsBlank(line[a + |key|]) || line[a + |key|] == '=')
  {
    hide IsBlank, SkipBlank, At;
    var a := SkipBlank(line, 0);
    Inside(line, a, key);
    var b := SkipBlank(line, a + |key|);
    assert b < |line| && line[b] == '=';
    assert b == a + |key| || IsBlank(line[a + |key|]);
  }

  lemma Inside(line: string, a: nat, key: string)
    requires At(line, a, key)
    ensures a + |key| <= |line|
  {
  }

  // A bare key ends where it stops being bare.
  lemma KeyEnds(line: string, key: string)
    requires BareKey(key) && Assigns(line, key)
    ensures var a := SkipBlank(line, 0);
      At(line, a, key) && a + |key| < |line| && !IsBare(line[a + |key|])
    ensures var a := SkipBlank(line, 0); forall j :: a <= j < a + |key| ==> IsBare(line[j])
  {
    hide *;
    var a := SkipBlank(line, 0);
    AssignsScan(line, key);
    BareAt(line, a, key);
    BlankIsNotBare(line[a + |key|]);
  }

  // A line that assigns a bare key is no table header.
  lemma AssignmentIsNoHeader(line: string, key: string)
    requires BareKey(key) && Assigns(line, key)
    ensures !IsHeader(line) && !IsTable(line)
  {
    var a := SkipBlank(line, 0);
    assert line[a] == line[a..a + |key|][0] == key[0];
    assert IsBare(key[0]);
    TrimStart(line, a);
  }

  // Rewriting keeps everything up to the value.
  lemma RewriteKeeps(line: string, key: string, value: string)
    requires BareKey(key) && Literal(value) && Assigns(line, key)
    ensures ValueStart(Rewrite(line, key, value), key) == ValueStart(line, key)
    ensures OneLine(line) ==> OneLine(Rewrite(line, key, value))
  {
    hide IsBare, SkipBlank;
    var r := Rewrite(line, key, value);
    var a := SkipBlank(line, 0);
    var b := SkipBlank(line, a + |key|);
    var c := SkipBlank(line, b + 1);
    assert forall j :: 0 <= j < c ==> r[j] == line[j];
    assert At(r, a, key) by {
      assert r[a..a + |key|] == line[a..a + |key|];
    }
    assert r[c] == value[0];
    ValueStartExact(r, key, a, b, c);
  }

  lemma AssignmentAssigns(key: string, value: string)
    requires BareKey(key) && Literal(value)
    ensures ValueStart(Assignment(key, value), key) == Some(|key| + 3)
    ensures OneLine(Assignment(key, value))
  {
    var s := Assignment(key, value);
    assert s[..|key|] == key && s[|key|] == ' ' && s[|key| + 1] == '=' && s[|key| + 2] == ' ';
    assert s[|key| + 3] == value[0];
    ValueStartExact(s, key, 0, |key| + 1, |key| + 3);
    assert forall i :: 0 <= i < |key| ==> IsBare(key[i]);
  }

  lemma RewriteAssignment(key: string, value: string, next: string)
    requires BareKey(key) && Literal(value) && Literal(next)
    ensures Assigns(Assignment(key, value), key)
    ensures Rewrite(Assignment(key, value), key, next) == Assignment(key, next)
  {
    AssignmentAssigns(key, value);
    assert Assignment(key, value)[..|key| + 3] == key + " = ";
  }

  lemma TableIsTable()
    ensures IsTable(TABLE)
  {
    TrimLeftFinds(TABLE, 0);
    assert TABLE[|TABLE| - 1] == ']';
  }

  // Where the edit goes, told by the properties of the place.
  lemma PlanReplace(lines: seq<string>, key: string, h: nat, k: nat)
    requires h < k < |lines| && IsTable(lines[h]) && Assigns(lines[k], key) && BareKey(key)
    requires forall j :: 0 <= j < h ==> !IsTable(lines[j])
    requires forall j :: h < j < k ==> !IsHeader(lines[j]) && !Assigns(lines[j], key)
    ensures Plan(lines, key) == Replace(k)
  {
    AssignmentIsNoHeader(lines[k], key);
    assert FirstTable(lines, 0) == h;
    var end := FirstHeader(lines, h + 1);
    assert k < end;
    assert FirstAssignment(lines, h + 1, end, key) == k;
  }

  // ---- the last write wins ----

  lemma EditedReplace(lines: seq<string>, key: string, value: string)
    requires BareKey(key) && Literal(value) && Plan(lines, key).Replace?
    ensures Plan(Edited(lines, key, value), key) == Plan(lines, key)
  {
    var k := Plan(lines, key).at;
    RewriteKeeps(lines[k], key, value);
    PlanReplace(Edited(lines, key, value), key, FirstTable(lines, 0), k);
  }

  lemma EditedInsert(lines: seq<string>, key: string, value: string)
    requires BareKey(key) && Literal(value) && Plan(lines, key).Insert?
    ensures Plan(Edited(lines, key, value), key) == Replace(Plan(lines, key).at)
  {
    var k := Plan(lines, key).at;
    AssignmentAssigns(key, value);
    var r := Edited(lines, key, value);
    assert r[k] == Assignment(key, value);
    assert forall j :: 0 <= j < k ==> r[j] == lines[j];
    PlanReplace(r, key, k - 1, k);
  }

  lemma EditedAppend(lines: seq<string>, key: string, value: string)
    requires BareKey(key) && Literal(value) && Plan(lines, key).Append?
    ensures Plan(Edited(lines, key, value), key) == Replace(|Ended(lines)| + 1)
  {
    AssignmentAssigns(key, value);
    TableIsTable();
    var r, h := Edited(lines, key, value), |Ended(lines)|;
    assert r[h] == TABLE && r[h + 1] == Assignment(key, value);
    forall j | 0 <= j < h ensures !IsTable(r[j]) {
      if j == |lines| {
        assert r[j] == "" && TrimSpace("") == "";
      } else {
        assert r[j] == lines[j];
      }
    }
    PlanReplace(r, key, h, h + 1);
  }

  // Writing a second value is the same as writing only the second one; with equal
  // values, editing twice is editing once.
  lemma LastWriteWins(lines: seq<string>, key: string, value: string, next: string)
    requires BareKey(key) && Literal(value) && Literal(next)
    ensures Edited(Edited(lines, key, value), key, next) == Edited(lines, key, next)
  {
    hide Plan, Rewrite, Assignment, BareKey, Literal, ValueStart, Ended;
    var r := Edited(lines, key, value);
    RewriteAssignment(key, value, next);
    match Plan(lines, key) {
      case Replace(k) =>
        EditedReplace(lines, key, value);
        RewriteTwice(lines[k], key, value, next);
      case Insert(k) =>
        EditedInsert(lines, key, value);
        assert r[k] == Assignment(key, value);
      case Append =>
        EditedAppend(lines, key, value);
        assert r[|Ended(lines)| + 1] == Assignment(key, value);
    }
  }

  lemma RewriteTwice(line: string, key: string, value: string, next: string)
    requires BareKey(key) && Literal(value) && Literal(next) && Assigns(line, key)
    ensures Assigns(Rewrite(line, key, value), key)
    ensures Rewrite(Rewrite(line, key, value), key, next) == Rewrite(line, key, next)
  {
    RewriteKeeps(line, key, value);
    var c := ValueStart(line, key).value;
    assert Rewrite(line, key, value)[..c] == line[..c];
  }
}
