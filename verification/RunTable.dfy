/**
 Writing keys into the [run] table of a TOML file: lines in the table are
 rewritten, missing keys are added at its end, and an absent table is created.
 */
module RunTable {
  import opened Ordering
  import opened Tickets
  import opened Text
  import opened TomlEdit

  predicate IsRunHeader(line: string) {
    var trimmed := Trim(line);
    var bare := match Cut(trimmed, '#') case None => trimmed case Some((left, _)) => Trim(left);
    && |bare| >= 2 && bare[0] == '[' && bare[|bare| - 1] == ']'
    && Trim(bare[1..|bare| - 1]) == "run"
  }

  lemma HeaderIsTable(line: string)
    requires IsRunHeader(line)
    ensures IsTable(line)
  {
    var trimmed := Trim(line);
    TrimIsTrimmed(line);
    CutSome(trimmed, '#');
    match Cut(trimmed, '#')
    case None =>
    case Some((left, _)) =>
      if left != [] {
        TrimRightKeeps(left, 1);
      }
  }

  lemma RunIsHeader()
    ensures IsRunHeader("[run]") && IsTable("[run]") && !IsBlank("[run]")
  {
    var line := "[run]";
    TrimmedStays(line);
    CutNone(line, '#');
    assert line[1..|line| - 1] == "run";
    TrimmedStays("run");
  }

  // The bare header of the table, with white space around it and inside the brackets,
  // and perhaps a comment behind it.
  ghost predicate HeaderForm(line: string) {
    exists before, left, right, after, comment ::
      && AllSpace(before) && AllSpace(left) && AllSpace(right) && AllSpace(after)
      && (comment == [] || comment[0] == '#')
      && line == Header(before, left, right, after, comment)
  }

  function Header(before: string, left: string, right: string, after: string, comment: string): string {
    before + ("[" + left + "run" + right + "]" + after + comment)
  }

  lemma CoreIsHeader(left: string, right: string)
    requires AllSpace(left) && AllSpace(right)
    ensures
      var core := "[" + left + "run" + right + "]";
      Trimmed(core) && '#' !in core && Trim(core[1..|core| - 1]) == "run"
  {
    var core := "[" + left + "run" + right + "]";
    assert core[1..|core| - 1] == left + "run" + right;
    TrimPadding(left, "run", right);
  }

  lemma FormIsHeader(before: string, left: string, right: string, after: string, comment: string)
    requires AllSpace(before) && AllSpace(left) && AllSpace(right) && AllSpace(after)
    requires comment == [] || comment[0] == '#'
    ensures IsRunHeader(Header(before, left, right, after, comment))
  {
    hide Trim, Cut, AllSpace;
    var line := Header(before, left, right, after, comment);
    var core := "[" + left + "run" + right + "]";
    CoreIsHeader(left, right);
    if comment == [] {
      assert line == before + core + after;
      CorePadded(before, core, after);
      CutNone(core, '#');
    } else {
      var s := core + after + comment;
      assert line == before + s;
      var rest := TrimKeepsPrefix(before, s, |core| + |after| + 1);
      assert s[..|core| + |after| + 1] == core + after + ['#'];
      assert Trim(line) == (core + after) + ['#'] + rest;
      NoHash(core, after);
      CutFirst(core + after, rest, '#');
      CorePadded([], core, after);
      assert [] + core + after == core + after;
    }
  }

  lemma CorePadded(before: string, core: string, after: string)
    requires AllSpace(before) && AllSpace(after) && Trimmed(core)
    ensures Trim(before + core + after) == core
  {
    TrimPadding(before, core, after);
  }

  lemma NoHash(core: string, after: string)
    requires '#' !in core && AllSpace(after)
    ensures '#' !in core + after
  {
  }

  lemma PlainHeader(line: string)
    requires IsRunHeader(line) && Cut(Trim(line), '#').None?
    ensures HeaderForm(line)
  {
    hide Trim, Cut, AllSpace;
    var before, after := TrimParts(line);
    var left, right := HeaderParts(Trim(line));
    assert line == Header(before, left, right, after, []);
  }

  lemma CommentedHeader(line: string, text: string, note: string)
    requires IsRunHeader(line) && Cut(Trim(line), '#') == Some((text, note))
    ensures HeaderForm(line)
  {
    hide Trim, Cut, AllSpace;
    var before, after := TrimParts(line);
    CutSome(Trim(line), '#');
    var pad, behind := TrimParts(text);
    var left, right := HeaderParts(Trim(text));
    JoinedSpace(before, pad);
    assert line == before + (text + ['#'] + note) + after;
    assert text == pad + ("[" + left + "run" + right + "]") + behind;
    assert line == Header(before + pad, left, right, behind, ['#'] + note + after);
  }

  // A line is the header of the table exactly if it has that form.
  lemma HeaderIff(line: string)
    ensures IsRunHeader(line) <==> HeaderForm(line)
  {
    hide Trim, Cut, AllSpace, Header;
    if HeaderForm(line) {
      var before, left, right, after, comment :|
        && AllSpace(before) && AllSpace(left) && AllSpace(right) && AllSpace(after)
        && (comment == [] || comment[0] == '#')
        && line == Header(before, left, right, after, comment);
      FormIsHeader(before, left, right, after, comment);
    }
    if IsRunHeader(line) {
      hide IsRunHeader, HeaderForm;
      match Cut(Trim(line), '#')
      case None => PlainHeader(line);
      case Some((text, note)) => CommentedHeader(line, text, note);
    }
  }

  lemma HeaderParts(bare: string) returns (left: string, right: string)
    requires |bare| >= 2 && bare[0] == '[' && bare[|bare| - 1] == ']' && Trim(bare[1..|bare| - 1]) == "run"
    ensures AllSpace(left) && AllSpace(right) && bare == "[" + left + "run" + right + "]"
  {
    left, right := TrimParts(bare[1..|bare| - 1]);
  }

  /* The region of the table. */

  // The region as the scan sees it: the last header met before the first other
  // table line, and that line. There is no region without a header.
  datatype Region = NoRegion | Region(start: nat, end: nat)

  function Scanned(lines: seq<string>, i: nat, start: Option<nat>): Region
    requires i <= |lines|
    decreases |lines| - i
  {
    if i == |lines| then if start.Some? then Region(start.value, |lines|) else NoRegion
    else if IsRunHeader(lines[i]) then Scanned(lines, i + 1, Some(i))
    else if start.Some? && IsTable(lines[i]) then Region(start.value, i)
    else Scanned(lines, i + 1, start)
  }

  function RegionOf(lines: seq<string>): Region {
    Scanned(lines, 0, None)
  }

  // The same without a scan: from the first header on, only headers are table
  // lines up to the end, and the start is the last of them.
  ghost predicate IsRegion(lines: seq<string>, first: nat, start: nat, end: nat) {
    && first <= start < end <= |lines|
    && IsRunHeader(lines[first]) && IsRunHeader(lines[start])
    && (forall j :: 0 <= j < first ==> !IsRunHeader(lines[j]))
    && (forall j :: first <= j < end && IsTable(lines[j]) ==> IsRunHeader(lines[j]))
    && (forall j :: start < j < end ==> !IsRunHeader(lines[j]))
    && (end < |lines| ==> IsTable(lines[end]) && !IsRunHeader(lines[end]))
  }

  ghost predicate Scanning(lines: seq<string>, first: nat, start: Option<nat>, i: nat) {
    && i <= |lines|
    && (start.None? ==> forall j :: 0 <= j < i ==> !IsRunHeader(lines[j]))
    && (start.Some? ==>
          && first <= start.value < i && IsRunHeader(lines[first]) && IsRunHeader(lines[start.value])
          && (forall j :: 0 <= j < first ==> !IsRunHeader(lines[j]))
          && (forall j :: first <= j < i && IsTable(lines[j]) ==> IsRunHeader(lines[j]))
          && (forall j :: start.value < j < i ==> !IsRunHeader(lines[j])))
  }

  lemma {:induction false} ScannedIsRegion(lines: seq<string>, i: nat, first: nat, start: Option<nat>)
    returns (header: nat)
    requires Scanning(lines, first, start, i)
    ensures Scanned(lines, i, start).Region? ==>
              IsRegion(lines, header, Scanned(lines, i, start).start, Scanned(lines, i, start).end)
    ensures Scanned(lines, i, start).NoRegion? ==> forall j :: 0 <= j < |lines| ==> !IsRunHeader(lines[j])
    decreases |lines| - i
  {
    hide IsRunHeader, IsTable;
    header := first;
    if i < |lines| {
      if IsRunHeader(lines[i]) {
        header := ScannedIsRegion(lines, i + 1, if start.Some? then first else i, Some(i));
      } else if start.Some? && IsTable(lines[i]) {
      } else {
        header := ScannedIsRegion(lines, i + 1, first, start);
      }
    }
  }

  lemma RegionExists(lines: seq<string>) returns (first: nat)
    ensures RegionOf(lines).Region? ==> IsRegion(lines, first, RegionOf(lines).start, RegionOf(lines).end)
    ensures RegionOf(lines).NoRegion? <==> forall j :: 0 <= j < |lines| ==> !IsRunHeader(lines[j])
  {
    first := ScannedIsRegion(lines, 0, 0, None);
  }

  lemma OneRegion(lines: seq<string>, first: nat, start: nat, end: nat)
    requires IsRegion(lines, first, start, end)
    ensures RegionOf(lines) == Region(start, end)
  {
    hide IsRunHeader, IsTable;
    var other := RegionExists(lines);
    var r := RegionOf(lines);
    assert r.Region?;
    assert other == first;
    assert r.end == end;
  }

  /* The edit. */

  function Rewritten(line: string, keys: map<string, string>): string {
    match KeyName(line)
    case None => line
    case Some(key) => if key in keys then Written(key, keys[key]) else line
  }

  function RewrittenAll(lines: seq<string>, keys: map<string, string>): seq<string> {
    seq(|lines|, i requires 0 <= i < |lines| => Rewritten(lines[i], keys))
  }

  // The keys the lines set.
  function KeysIn(lines: seq<string>): set<string> {
    set i | 0 <= i < |lines| && KeyName(lines[i]).Some? :: KeyName(lines[i]).value
  }

  function WrittenAll(order: seq<string>, keys: map<string, string>): seq<string>
    requires forall key :: key in order ==> key in keys
  {
    seq(|order|, i requires 0 <= i < |order| => assert order[i] in order; Written(order[i], keys[order[i]]))
  }

  // The lines of the keys not yet set, in ascending order.
  ghost function Added(set0: set<string>, keys: map<string, string>): seq<string> {
    AscendingOf(keys.Keys - set0);
    WrittenAll(Ascending(keys.Keys - set0), keys)
  }

  ghost function Upserted(lines: seq<string>, start: nat, end: nat, keys: map<string, string>): seq<string>
    requires start < end <= |lines|
  {
    var body := lines[start + 1..end];
    lines[..start + 1] + RewrittenAll(body, keys) + Added(KeysIn(body), keys) + lines[end..]
  }

  function Ended(text: string): string {
    if text != [] && !EndsWith(text, '\n') then text + ['\n'] else text
  }

  ghost function Created(text: string, keys: map<string, string>): seq<string> {
    Split(Ended(text), '\n') + ["[run]"] + Added({}, keys) + [[]]
  }

  ghost function UpsertedText(text: string, keys: map<string, string>): string {
    if keys == map[] then text
    else
      var lines := Split(text, '\n');
      match RegionOf(lines)
      case Region(start, end) =>
        if start < end <= |lines| then Join(Upserted(lines, start, end, keys), '\n') else text
      case NoRegion => Join(Created(text, keys), '\n')
  }

  /* What the edit promises. */

  predicate SimpleEntries(keys: map<string, string>) {
    forall key :: key in keys ==> SimpleKey(key) && '\n' !in keys[key]
  }

  lemma RewrittenLine(line: string, keys: map<string, string>)
    requires SimpleEntries(keys)
    ensures KeyName(Rewritten(line, keys)) == KeyName(line)
    ensures IsTable(Rewritten(line, keys)) <==> IsTable(line)
    ensures '\n' !in line ==> '\n' !in Rewritten(line, keys)
  {
    hide IsTable, SimpleKey, Written;
    match KeyName(line)
    case None =>
    case Some(key) =>
      if key in keys {
        WrittenLine(key, keys[key]);
        NamedIsNoTable(line);
      }
  }

  lemma NamedIsNoTable(line: string)
    requires KeyName(line).Some?
    ensures !IsTable(line) && !IsBlank(line)
  {
  }

  lemma AddedLine(present: set<string>, keys: map<string, string>, i: nat)
    requires SimpleEntries(keys) && i < |Added(present, keys)|
    ensures
      var line := Added(present, keys)[i];
      && !IsTable(line) && '\n' !in line
      && KeyName(line).Some? && KeyName(line).value in keys && KeyName(line).value !in present
      && line == Written(KeyName(line).value, keys[KeyName(line).value])
  {
    hide IsTable, SimpleKey, Written, KeyName;
    AscendingOf(keys.Keys - present);
    var key := Ascending(keys.Keys - present)[i];
    assert key in Ascending(keys.Keys - present);
    WrittenLine(key, keys[key]);
  }

  lemma AddedHas(present: set<string>, keys: map<string, string>, key: string) returns (i: nat)
    requires SimpleEntries(keys) && key in keys && key !in present
    ensures i < |Added(present, keys)| && KeyName(Added(present, keys)[i]) == Some(key)
  {
    hide IsTable, SimpleKey, Written, KeyName;
    AscendingOf(keys.Keys - present);
    assert key in Ascending(keys.Keys - present);
    i :| 0 <= i < |Ascending(keys.Keys - present)| && Ascending(keys.Keys - present)[i] == key;
    WrittenLine(key, keys[key]);
  }

  // The body of the table says of every key exactly what was asked.
  ghost predicate Agrees(body: seq<string>, keys: map<string, string>) {
    && (forall i :: 0 <= i < |body| && KeyName(body[i]).Some? && KeyName(body[i]).value in keys ==>
                      body[i] == Written(KeyName(body[i]).value, keys[KeyName(body[i]).value]))
    && (forall key :: key in keys ==> key in KeysIn(body))
  }

  ghost predicate NoTables(lines: seq<string>) {
    forall i :: 0 <= i < |lines| ==> !IsTable(lines[i])
  }

  // The new body of the table, wherever it stands.
  ghost function NewBody(body: seq<string>, keys: map<string, string>): seq<string> {
    RewrittenAll(body, keys) + Added(KeysIn(body), keys)
  }

  lemma NewBodyAgrees(body: seq<string>, keys: map<string, string>)
    requires SimpleEntries(keys) && NoTables(body) && Free(body, '\n')
    ensures Agrees(NewBody(body, keys), keys) && NoTables(NewBody(body, keys)) && Free(NewBody(body, keys), '\n')
  {
    hide IsTable, SimpleKey, Written, KeyName, Added, SimpleEntries;
    var result := NewBody(body, keys);
    var n := |body|;
    forall i | 0 <= i < |result|
      ensures !IsTable(result[i]) && '\n' !in result[i]
      ensures KeyName(result[i]).Some? && KeyName(result[i]).value in keys ==>
                result[i] == Written(KeyName(result[i]).value, keys[KeyName(result[i]).value])
    {
      if i < n {
        assert result[i] == Rewritten(body[i], keys);
        RewrittenLine(body[i], keys);
      } else {
        assert result[i] == Added(KeysIn(body), keys)[i - n];
        AddedLine(KeysIn(body), keys, i - n);
      }
    }
    forall key | key in keys
      ensures key in KeysIn(result)
    {
      if key in KeysIn(body) {
        var i :| 0 <= i < n && KeyName(body[i]) == Some(key);
        RewrittenLine(body[i], keys);
        assert KeyName(result[i]) == Some(key);
      } else {
        var i := AddedHas(KeysIn(body), keys, key);
        assert result[n + i] == Added(KeysIn(body), keys)[i];
        assert KeyName(result[n + i]) == Some(key);
      }
    }
  }

  // Replacing the body keeps the header, the region and everything outside it.
  lemma BodyReplaced(lines: seq<string>, first: nat, start: nat, end: nat, body: seq<string>)
    requires IsRegion(lines, first, start, end) && NoTables(body)
    ensures IsRegion(lines[..start + 1] + body + lines[end..], first, start, start + 1 + |body|)
  {
    hide IsRunHeader, IsTable;
    var result := lines[..start + 1] + body + lines[end..];
    var stop := start + 1 + |body|;
    assert forall j :: 0 <= j <= start ==> result[j] == lines[j];
    assert stop < |result| ==> result[stop] == lines[end];
    forall j | start < j < stop
      ensures !IsTable(result[j]) && !IsRunHeader(result[j])
    {
      assert result[j] == body[j - start - 1];
      if IsRunHeader(result[j]) {
        HeaderIsTable(result[j]);
      }
    }
  }

  lemma BodyHasNoTables(lines: seq<string>, first: nat, start: nat, end: nat)
    requires IsRegion(lines, first, start, end)
    ensures NoTables(lines[start + 1..end])
  {
    hide IsRunHeader, IsTable;
    var body := lines[start + 1..end];
    forall i | 0 <= i < |body|
      ensures !IsTable(body[i])
    {
      assert body[i] == lines[start + 1 + i];
      assert !IsRunHeader(lines[start + 1 + i]);
    }
  }

  // A body that already agrees is left as it is.
  lemma AgreeingBodyStays(body: seq<string>, keys: map<string, string>)
    requires Agrees(body, keys)
    ensures NewBody(body, keys) == body
  {
    hide IsTable, Written, KeyName;
    assert keys.Keys - KeysIn(body) == {};
    AscendingOf({});
    assert Ascending({}) == [];
    assert RewrittenAll(body, keys) == body;
  }

  lemma BlankLine()
    ensures KeyName([]).None? && !IsTable([]) && !IsRunHeader([]) && IsBlank([])
  {
  }

  lemma EndedLines(text: string)
    ensures Split(Ended(text), '\n') == Split(text, '\n') || Split(Ended(text), '\n') == Split(text, '\n') + [[]]
    ensures Free(Split(Ended(text), '\n'), '\n')
  {
    SplitIsFree(Ended(text), '\n');
    if Ended(text) != text {
      SplitAppend(text, [], '\n');
      assert text + ['\n'] + [] == Ended(text);
    }
  }

  // The body of a table created at the end of the file.
  ghost function FreshBody(keys: map<string, string>): seq<string> {
    Added({}, keys) + [[]]
  }

  lemma FreshBodyAgrees(keys: map<string, string>)
    requires SimpleEntries(keys)
    ensures Agrees(FreshBody(keys), keys) && NoTables(FreshBody(keys)) && Free(FreshBody(keys), '\n')
  {
    hide IsTable, SimpleKey, Written, KeyName, SimpleEntries, Added;
    var body := FreshBody(keys);
    var n := |Added({}, keys)|;
    BlankLine();
    forall i | 0 <= i < |body|
      ensures !IsTable(body[i]) && '\n' !in body[i]
      ensures KeyName(body[i]).Some? && KeyName(body[i]).value in keys ==>
                body[i] == Written(KeyName(body[i]).value, keys[KeyName(body[i]).value])
    {
      if i < n {
        assert body[i] == Added({}, keys)[i];
        AddedLine({}, keys, i);
      }
    }
    forall key | key in keys
      ensures key in KeysIn(body)
    {
      var i := AddedHas({}, keys, key);
      assert body[i] == Added({}, keys)[i];
      assert KeyName(body[i]) == Some(key);
    }
  }

  lemma CreatedRegion(text: string, keys: map<string, string>)
    requires SimpleEntries(keys) && RegionOf(Split(text, '\n')).NoRegion?
    ensures
      var before := Split(Ended(text), '\n');
      && Created(text, keys) == before + ["[run]"] + FreshBody(keys)
      && IsRegion(Created(text, keys), |before|, |before|, |Created(text, keys)|)
  {
    hide IsRunHeader, IsTable, Split, KeyName, SimpleEntries, Added, RegionOf, Ended;
    var first := RegionExists(Split(text, '\n'));
    EndedLines(text);
    BlankLine();
    RunIsHeader();
    FreshBodyAgrees(keys);
    var before, body := Split(Ended(text), '\n'), FreshBody(keys);
    var lines := Created(text, keys);
    assert lines == before + ["[run]"] + body;
    assert forall j :: 0 <= j < |before| ==> lines[j] == before[j] && !IsRunHeader(before[j]);
    assert lines[|before|] == "[run]";
    forall j | |before| < j < |lines|
      ensures !IsTable(lines[j]) && !IsRunHeader(lines[j])
    {
      assert lines[j] == body[j - |before| - 1];
      if IsRunHeader(lines[j]) {
        HeaderIsTable(lines[j]);
      }
    }
  }

  // The lines after the edit.
  ghost function After(text: string, keys: map<string, string>): seq<string> {
    Split(UpsertedText(text, keys), '\n')
  }

  // In a file with a [run] table the edit changes the table's body alone.
  lemma ExistingTable(text: string, keys: map<string, string>)
    requires SimpleEntries(keys) && keys != map[] && RegionOf(Split(text, '\n')).Region?
    ensures
      var lines := Split(text, '\n');
      var Region(start, end) := RegionOf(lines);
      && start < end <= |lines|
      && var body := lines[start + 1..end];
         && After(text, keys) == lines[..start + 1] + NewBody(body, keys) + lines[end..]
         && RegionOf(After(text, keys)) == Region(start, start + 1 + |NewBody(body, keys)|)
         && Agrees(NewBody(body, keys), keys)
  {
    hide IsRunHeader, IsTable, Split, Join, KeyName, SimpleEntries, Added, Agrees, RewrittenAll,
      KeysIn, RegionOf, IsRegion;
    var lines := Split(text, '\n');
    var first := RegionExists(lines);
    var Region(start, end) := RegionOf(lines);
    RegionBounds(lines, first, start, end);
    var body := lines[start + 1..end];
    SplitIsFree(text, '\n');
    BodyHasNoTables(lines, first, start, end);
    NewBodyAgrees(body, keys);
    var result := lines[..start + 1] + NewBody(body, keys) + lines[end..];
    assert Upserted(lines, start, end, keys) == result;
    SplitJoin(result, '\n');
    BodyReplaced(lines, first, start, end, NewBody(body, keys));
    OneRegion(result, first, start, start + 1 + |NewBody(body, keys)|);
  }

  lemma RegionBounds(lines: seq<string>, first: nat, start: nat, end: nat)
    requires IsRegion(lines, first, start, end)
    ensures first <= start < end <= |lines|
  {
  }

  // In a file without one the table is added behind everything else.
  lemma NewTable(text: string, keys: map<string, string>)
    requires SimpleEntries(keys) && keys != map[] && RegionOf(Split(text, '\n')).NoRegion?
    ensures
      var before := Split(Ended(text), '\n');
      && After(text, keys) == before + ["[run]"] + FreshBody(keys)
      && RegionOf(After(text, keys)) == Region(|before|, |After(text, keys)|)
      && Agrees(FreshBody(keys), keys)
  {
    hide IsRunHeader, IsTable, Split, Join, KeyName, SimpleEntries, Added, Agrees, RegionOf, IsRegion;
    CreatedRegion(text, keys);
    FreshBodyAgrees(keys);
    EndedLines(text);
    var lines := Created(text, keys);
    SplitJoin(lines, '\n');
    OneRegion(lines, |Split(Ended(text), '\n')|, |Split(Ended(text), '\n')|, |lines|);
  }

  lemma Middle(a: seq<string>, b: seq<string>, c: seq<string>)
    ensures (a + b + c)[|a|..|a| + |b|] == b
  {
  }

  // After the edit the region of the [run] table gives every key its value, on
  // every line in it that sets the key.
  lemma RunKeysRead(text: string, keys: map<string, string>)
    requires SimpleEntries(keys) && keys != map[]
    ensures
      var lines := After(text, keys);
      && RegionOf(lines).Region? && RegionOf(lines).start < RegionOf(lines).end <= |lines|
      && Agrees(lines[RegionOf(lines).start + 1..RegionOf(lines).end], keys)
  {
    hide IsRunHeader, IsTable, Split, Join, KeyName, SimpleEntries, Added, Agrees, RegionOf, UpsertedText,
      NewBody, FreshBody, Ended;
    var lines := Split(text, '\n');
    match RegionOf(lines)
    case Region(start, end) =>
      ExistingTable(text, keys);
      Middle(lines[..start + 1], NewBody(lines[start + 1..end], keys), lines[end..]);
    case NoRegion =>
      NewTable(text, keys);
      var before, body := Split(Ended(text), '\n') + ["[run]"], FreshBody(keys);
      Middle(before, body, []);
      assert before + body + [] == After(text, keys);
  }

  // Writing the same keys again changes nothing.
  lemma UpsertIsIdempotent(text: string, keys: map<string, string>)
    requires SimpleEntries(keys)
    ensures UpsertedText(UpsertedText(text, keys), keys) == UpsertedText(text, keys)
  {
    hide IsRunHeader, IsTable, Split, Join, KeyName, SimpleEntries, Added, Agrees, RegionOf, FreshBody, Ended;
    hide RewrittenAll, KeysIn, Created;
    if keys != map[] {
      RunKeysRead(text, keys);
      var once := UpsertedText(text, keys);
      var lines := Split(once, '\n');
      var Region(start, end) := RegionOf(lines);
      var body := lines[start + 1..end];
      AgreeingBodyStays(body, keys);
      assert Upserted(lines, start, end, keys) == lines[..start + 1] + NewBody(body, keys) + lines[end..];
      assert lines[..start + 1] + body + lines[end..] == lines;
      JoinSplit(once, '\n');
    }
  }

  // Outside the table every line stays where it was; inside it every line keeps
  // its place and its key, and the lines of other keys stay as they are. Added
  // lines come last, for just the keys that were missing.
  lemma OtherRunLinesSurvive(body: seq<string>, keys: map<string, string>)
    requires SimpleEntries(keys)
    ensures |NewBody(body, keys)| >= |body|
    ensures forall i :: 0 <= i < |body| ==>
              && KeyName(NewBody(body, keys)[i]) == KeyName(body[i])
              && (KeyName(body[i]).None? || KeyName(body[i]).value !in keys ==> NewBody(body, keys)[i] == body[i])
    ensures forall i :: |body| <= i < |NewBody(body, keys)| ==>
              && KeyName(NewBody(body, keys)[i]).Some?
              && KeyName(NewBody(body, keys)[i]).value in keys.Keys - KeysIn(body)
  {
    hide IsTable, SimpleKey, Written, KeyName, Added, SimpleEntries, KeysIn;
    var result := NewBody(body, keys);
    forall i | 0 <= i < |result|
      ensures i < |body| ==> KeyName(result[i]) == KeyName(body[i])
      ensures i < |body| && (KeyName(body[i]).None? || KeyName(body[i]).value !in keys) ==> result[i] == body[i]
      ensures i >= |body| ==> KeyName(result[i]).Some? && KeyName(result[i]).value in keys.Keys - KeysIn(body)
    {
      if i < |body| {
        assert result[i] == Rewritten(body[i], keys);
        RewrittenLine(body[i], keys);
      } else {
        assert result[i] == Added(KeysIn(body), keys)[i - |body|];
        AddedLine(KeysIn(body), keys, i - |body|);
      }
    }
  }

  // A new table leaves everything written before it.
  lemma NewTableKeepsContent(text: string, keys: map<string, string>)
    requires SimpleEntries(keys) && keys != map[] && RegionOf(Split(text, '\n')).NoRegion?
    ensures Content(After(text, keys)) == Content(Split(text, '\n')) + ["[run]"] + Content(FreshBody(keys))
  {
    hide IsRunHeader, IsTable, Split, KeyName, SimpleEntries, RegionOf, FreshBody, IsBlank, UpsertedText, Ended;
    NewTable(text, keys);
    EndedLines(text);
    RunIsHeader();
    BlankLine();
    ContentAppend(Split(text, '\n'), [[]]);
    assert Content([[]]) == [];
    ContentSplit(Split(Ended(text), '\n'), "[run]", FreshBody(keys));
  }

  /* Where the written lines stand. */

  // The region is found by lines alone. A reader of TOML sees a line of the table
  // only outside every array, behind a header that is outside every array too, with
  // no other table in between.
  ghost predicate StandsIn(lines: seq<string>, header: nat, i: nat) {
    && header < i < |lines| && IsRunHeader(lines[header])
    && DepthBefore(lines, header) == 0 && DepthBefore(lines, i) == 0
    && forall j :: header < j < i && DepthBefore(lines, j) == 0 ==> !IsTable(lines[j])
  }

  predicate Sets(line: string, keys: map<string, string>) {
    KeyName(line).Some? && KeyName(line).value in keys
  }

  // Every line of the table that sets a given key is one a reader sees there.
  ghost predicate AllStand(lines: seq<string>, keys: map<string, string>) {
    RegionOf(lines).Region? &&
    forall j :: RegionOf(lines).start < j < RegionOf(lines).end <= |lines| && Sets(lines[j], keys) ==>
                  StandsIn(lines, RegionOf(lines).start, j)
  }

  // A written line closes every array it opens, as quoted strings and bare words do.
  ghost predicate ValuesClosed(keys: map<string, string>) {
    forall key, depth :: key in keys ==> Depth(Written(key, keys[key]), depth) == depth
  }

  // The depth before a line, the lines about to be rewritten left out.
  function DepthLeftOut(lines: seq<string>, start: nat, keys: map<string, string>, i: nat): nat
    requires i <= |lines|
  {
    if i == 0 then 0
    else
      var depth := DepthLeftOut(lines, start, keys, i - 1);
      if i - 1 > start && Sets(lines[i - 1], keys) then depth else Depth(lines[i - 1], depth)
  }

  // The table is open to the edit: its header, the lines to rewrite and, if a key is
  // missing, its end are outside every array.
  ghost predicate Editable(lines: seq<string>, start: nat, end: nat, keys: map<string, string>)
    requires start < end <= |lines|
  {
    && DepthBefore(lines, start) == 0
    && (forall j :: start < j < end && Sets(lines[j], keys) ==> DepthLeftOut(lines, start, keys, j) == 0)
    && (keys.Keys - KeysIn(lines[start + 1..end]) != {} ==> DepthLeftOut(lines, start, keys, end) == 0)
  }

  lemma {:induction false} SameDepth(p: seq<string>, q: seq<string>, i: nat)
    requires i <= |p| && i <= |q| && forall j :: 0 <= j < i ==> p[j] == q[j]
    ensures DepthBefore(p, i) == DepthBefore(q, i)
  {
    hide Depth;
    if i > 0 {
      SameDepth(p, q, i - 1);
    }
  }

  lemma {:induction false} LeftOutAtHeader(lines: seq<string>, start: nat, keys: map<string, string>, i: nat)
    requires i <= start + 1 && i <= |lines|
    ensures DepthLeftOut(lines, start, keys, i) == DepthBefore(lines, i)
  {
    hide Depth, Sets;
    if i > 0 {
      LeftOutAtHeader(lines, start, keys, i - 1);
    }
  }

  // If the lines to rewrite close what they open, leaving them out changes nothing.
  lemma {:induction false} LeftOutIsDepth(lines: seq<string>, start: nat, keys: map<string, string>, i: nat)
    requires i <= |lines|
    requires forall j, depth :: start < j < i && Sets(lines[j], keys) ==> Depth(lines[j], depth) == depth
    ensures DepthLeftOut(lines, start, keys, i) == DepthBefore(lines, i)
  {
    hide Depth, Sets;
    if i > 0 {
      LeftOutIsDepth(lines, start, keys, i - 1);
    }
  }

  // After the edit the depth before a line is the old one with the rewritten lines
  // left out, and the added lines do not change it.
  lemma {:induction false} DepthAfter(lines: seq<string>, start: nat, end: nat, keys: map<string, string>,
                                       after: seq<string>, i: nat)
    requires start < end <= |lines| && SimpleEntries(keys) && ValuesClosed(keys)
    requires after == lines[..start + 1] + NewBody(lines[start + 1..end], keys) + lines[end..]
    requires i <= start + 1 + |NewBody(lines[start + 1..end], keys)|
    ensures DepthBefore(after, i) == DepthLeftOut(lines, start, keys, if i <= end then i else end)
  {
    hide Depth, Written, KeyName, Added, SimpleEntries, KeysIn, RewrittenAll;
    var body := lines[start + 1..end];
    if i > 0 {
      DepthAfter(lines, start, end, keys, after, i - 1);
      var j := i - 1;
      if j <= start {
        assert after[j] == lines[j];
      } else {
        assert after[j] == NewBody(body, keys)[j - start - 1];
        NewBodyLine(body, keys, j - start - 1);
        assert j < end ==> body[j - start - 1] == lines[j];
      }
    }
  }

  // A line of the new body is the old one, or a written one where the old line set
  // a given key and behind the old lines.
  lemma NewBodyLine(body: seq<string>, keys: map<string, string>, i: nat)
    requires SimpleEntries(keys) && i < |NewBody(body, keys)|
    ensures
      var line := NewBody(body, keys)[i];
      && (i < |body| && !Sets(body[i], keys) ==> line == body[i])
      && (Sets(line, keys) <==> i >= |body| || Sets(body[i], keys))
      && (Sets(line, keys) ==> line == Written(KeyName(line).value, keys[KeyName(line).value]))
  {
    hide IsTable, SimpleKey, Written, KeyName, Added, SimpleEntries, KeysIn;
    if i < |body| {
      assert NewBody(body, keys)[i] == Rewritten(body[i], keys);
      RewrittenLine(body[i], keys);
    } else {
      assert NewBody(body, keys)[i] == Added(KeysIn(body), keys)[i - |body|];
      AddedLine(KeysIn(body), keys, i - |body|);
    }
  }

  lemma AddedCount(body: seq<string>, keys: map<string, string>)
    ensures |NewBody(body, keys)| > |body| <==> keys.Keys - KeysIn(body) != {}
  {
    hide KeyName, Written;
    var missing := keys.Keys - KeysIn(body);
    AscendingOf(missing);
    if missing != {} {
      var key :| key in missing;
      assert key in Ascending(missing);
    } else {
      assert Ascending(missing) == [];
    }
  }

  // A line in a region stands in its table exactly when it and the header are
  // outside every array.
  lemma StandsIff(lines: seq<string>, first: nat, start: nat, end: nat, i: nat)
    requires IsRegion(lines, first, start, end) && start < i < end
    ensures StandsIn(lines, start, i) <==> DepthBefore(lines, start) == 0 && DepthBefore(lines, i) == 0
  {
    hide IsRunHeader, IsTable, DepthBefore;
  }

  // In a file with a [run] table every line written is one a reader sees in it if
  // and only if the table is open to the edit.
  lemma WrittenStandIff(text: string, keys: map<string, string>)
    requires SimpleEntries(keys) && keys != map[] && ValuesClosed(keys) && RegionOf(Split(text, '\n')).Region?
    ensures
      var lines := Split(text, '\n');
      && RegionOf(lines).start < RegionOf(lines).end <= |lines|
      && (AllStand(After(text, keys), keys) <==> Editable(lines, RegionOf(lines).start, RegionOf(lines).end, keys))
  {
    hide IsRunHeader, IsTable, Split, KeyName, SimpleEntries, Agrees, RegionOf, IsRegion, NewBody,
      KeysIn, After, ValuesClosed;
    hide Sets, StandsIn, Depth, DepthBefore, DepthLeftOut;
    var lines := Split(text, '\n');
    ExistingTable(text, keys);
    var Region(start, end) := RegionOf(lines);
    var body, after := lines[start + 1..end], After(text, keys);
    var stop := start + 1 + |NewBody(body, keys)|;
    var first := RegionExists(after);
    AddedCount(body, keys);
    OtherRunLinesSurvive(body, keys);
    LeftOutAtHeader(lines, start, keys, start);
    DepthAfter(lines, start, end, keys, after, start);
    forall j | start < j < stop
      ensures Sets(after[j], keys) <==> j >= end || Sets(lines[j], keys)
      ensures StandsIn(after, start, j) <==>
              DepthBefore(lines, start) == 0 && DepthLeftOut(lines, start, keys, if j <= end then j else end) == 0
    {
      assert after[j] == NewBody(body, keys)[j - start - 1];
      assert j < end ==> body[j - start - 1] == lines[j];
      NewBodyLine(body, keys, j - start - 1);
      StandsIff(after, first, start, stop, j);
      DepthAfter(lines, start, end, keys, after, j);
    }
    var written := WrittenSomewhere(text, keys);
    if AllStand(after, keys) {
      assert StandsIn(after, start, written);
      assert stop > end ==> StandsIn(after, start, end);
    }
  }

  // Some line of the table is written.
  lemma WrittenSomewhere(text: string, keys: map<string, string>) returns (j: nat)
    requires SimpleEntries(keys) && keys != map[]
    ensures RegionOf(After(text, keys)).Region?
    ensures RegionOf(After(text, keys)).start < j < RegionOf(After(text, keys)).end <= |After(text, keys)|
    ensures Sets(After(text, keys)[j], keys)
  {
    hide IsRunHeader, IsTable, Split, KeyName, SimpleEntries, RegionOf, After;
    RunKeysRead(text, keys);
    var lines := After(text, keys);
    var Region(start, end) := RegionOf(lines);
    var body := lines[start + 1..end];
    var key :| key in keys;
    assert key in KeysIn(body);
    var i :| 0 <= i < |body| && KeyName(body[i]) == Some(key);
    j := start + 1 + i;
    assert lines[j] == body[i];
  }

  // Where the lines to rewrite close what they open, the check is the plain depth.
  lemma EditableByDepth(lines: seq<string>, start: nat, end: nat, keys: map<string, string>)
    requires start < end <= |lines|
    requires forall j, depth :: start < j < end && Sets(lines[j], keys) ==> Depth(lines[j], depth) == depth
    ensures Editable(lines, start, end, keys) <==>
            && DepthBefore(lines, start) == 0
            && (forall j :: start < j < end && Sets(lines[j], keys) ==> DepthBefore(lines, j) == 0)
            && (keys.Keys - KeysIn(lines[start + 1..end]) != {} ==> DepthBefore(lines, end) == 0)
  {
    hide Depth, Sets, KeysIn;
    forall j | start < j <= end
      ensures DepthLeftOut(lines, start, keys, j) == DepthBefore(lines, j)
    {
      LeftOutIsDepth(lines, start, keys, j);
    }
  }

  lemma RunHeaderCloses(depth: nat)
    ensures Depth("[run]", depth) == depth
  {
    ScannerReadsToml([Open, Other('r'), Other('u'), Other('n'), Close], [], depth);
    assert Render([Open, Other('r'), Other('u'), Other('n'), Close]) + [] == "[run]" by {
      RunRendered();
    }
    RunNested(depth);
  }

  lemma RunRendered()
    ensures Render([Open, Other('r'), Other('u'), Other('n'), Close]) == "[run]"
  {
    RenderOthers("run", [Close], 0);
    assert Others("run") + [Close] == [Other('r'), Other('u'), Other('n'), Close];
    assert Render([Close]) == "]";
    var pieces := [Open, Other('r'), Other('u'), Other('n'), Close];
    assert pieces[1..] == Others("run") + [Close];
  }

  lemma RunNested(depth: nat)
    ensures Nesting([Open, Other('r'), Other('u'), Other('n'), Close], depth) == depth
  {
    RenderOthers("run", [Close], depth + 1);
    var pieces := [Open, Other('r'), Other('u'), Other('n'), Close];
    assert Others("run") + [Close] == [Other('r'), Other('u'), Other('n'), Close];
    assert pieces[1..] == Others("run") + [Close];
  }

  lemma FreshLine(keys: map<string, string>, i: nat)
    requires SimpleEntries(keys) && i < |FreshBody(keys)|
    ensures
      var line := FreshBody(keys)[i];
      line == [] || (Sets(line, keys) && line == Written(KeyName(line).value, keys[KeyName(line).value]))
  {
    hide SimpleKey, Written, KeyName, Added, SimpleEntries;
    if i < |Added({}, keys)| {
      AddedLine({}, keys, i);
    }
  }

  lemma {:induction false} DepthInFresh(before: seq<string>, keys: map<string, string>, after: seq<string>, t: nat)
    requires SimpleEntries(keys) && ValuesClosed(keys) && after == before + ["[run]"] + FreshBody(keys)
    requires t <= |FreshBody(keys)|
    ensures DepthBefore(after, |before| + 1 + t) == DepthBefore(before, |before|)
  {
    hide Depth, Written, KeyName, SimpleEntries, FreshBody;
    var j := |before| + t;
    if t == 0 {
      SameDepth(after, before, |before|);
      RunHeaderCloses(DepthBefore(before, |before|));
      assert after[j] == "[run]";
    } else {
      DepthInFresh(before, keys, after, t - 1);
      assert after[j] == FreshBody(keys)[t - 1];
      FreshLine(keys, t - 1);
      BlankLine();
      QuietLine([], DepthBefore(before, |before|));
    }
  }

  lemma EndedDepth(text: string)
    ensures
      var lines, ended := Split(text, '\n'), Split(Ended(text), '\n');
      DepthBefore(ended, |ended|) == DepthBefore(lines, |lines|)
  {
    hide Depth, Split, Ended;
    EndedLines(text);
    var lines, ended := Split(text, '\n'), Split(Ended(text), '\n');
    if ended != lines {
      SameDepth(ended, lines, |lines|);
      BlankLine();
      QuietLine([], DepthBefore(lines, |lines|));
    }
  }

  // A table created at the end of a file is one a reader sees, with every line
  // written in it, if and only if the file ends outside every array.
  lemma CreatedStandIff(text: string, keys: map<string, string>)
    requires SimpleEntries(keys) && keys != map[] && ValuesClosed(keys) && RegionOf(Split(text, '\n')).NoRegion?
    ensures
      var lines := Split(text, '\n');
      AllStand(After(text, keys), keys) <==> DepthBefore(lines, |lines|) == 0
  {
    hide IsRunHeader, IsTable, Split, KeyName, SimpleEntries, Agrees, RegionOf, IsRegion, FreshBody,
      After, ValuesClosed, Ended;
    hide Sets, StandsIn, Depth, DepthBefore;
    NewTable(text, keys);
    EndedDepth(text);
    var before, after := Split(Ended(text), '\n'), After(text, keys);
    var start, end := |before|, |after|;
    var first := RegionExists(after);
    SameDepth(after, before, start);
    forall j | start < j < end
      ensures StandsIn(after, start, j) <==> DepthBefore(before, |before|) == 0
    {
      StandsIff(after, first, start, end, j);
      DepthInFresh(before, keys, after, j - start - 1);
    }
    var written := WrittenSomewhere(text, keys);
  }

  // A table with an array over several lines, one of them opening a nested array:
  // the scan ends the table there, inside the array, and a missing key is written
  // where no reader finds it.
  const NESTED := ["[run]", "args = [", "[1],", "]"]

  lemma UnclosedTable(line: string)
    requires line != [] && Trimmed(line) && '#' !in line && line[0] == '[' && line[|line| - 1] != ']'
    ensures IsTable(line) && !IsRunHeader(line)
  {
    TrimmedStays(line);
    CutNone(line, '#');
  }

  lemma NestedLines()
    ensures IsRunHeader(NESTED[0]) && !IsTable(NESTED[1]) && KeyName(NESTED[1]) == Some("args")
    ensures IsTable(NESTED[2]) && !IsRunHeader(NESTED[2])
  {
    hide IsRunHeader, IsTable, KeyName;
    RunIsHeader();
    OpenLine();
    UnclosedTable("[1],");
  }

  lemma OpenLine()
    ensures !IsTable("args = [") && KeyName("args = [") == Some("args")
  {
    hide IsTable, KeyName;
    WrittenLine("args", "[");
    assert "args = [" == Written("args", "[");
  }

  lemma OneLineRegion(lines: seq<string>)
    requires |lines| > 2 && IsRunHeader(lines[0]) && !IsTable(lines[1]) && !IsRunHeader(lines[1])
    requires IsTable(lines[2]) && !IsRunHeader(lines[2])
    ensures RegionOf(lines) == Region(0, 2)
  {
    hide IsRunHeader, IsTable, RegionOf;
    OneRegion(lines, 0, 0, 2);
  }

  lemma NestedRegion()
    ensures RegionOf(NESTED) == Region(0, 2)
  {
    hide IsTable, IsRunHeader, RegionOf;
    NestedLines();
    if IsRunHeader(NESTED[1]) {
      HeaderIsTable(NESTED[1]);
    }
    OneLineRegion(NESTED);
  }

  lemma NestedDepth()
    ensures DepthBefore(NESTED, 1) == 0 && DepthBefore(NESTED, 2) == 1
  {
    hide Depth;
    RunHeaderCloses(0);
    assert DepthBefore(NESTED, 1) == Depth(NESTED[0], DepthBefore(NESTED, 0));
    OpenBracket();
    assert DepthBefore(NESTED, 2) == Depth(NESTED[1], DepthBefore(NESTED, 1));
  }

  lemma OpenBracket()
    ensures Depth("args = [", 0) == 1
  {
    RenderOthers("args = ", [Open], 0);
    OthersWellFormed("args = ");
    assert Render([Open]) == "[";
    ScannerReadsToml(Others("args = ") + [Open], [], 0);
    assert "args = " + "[" + [] == "args = [";
  }

  lemma NestedArrayHidesTheKey(keys: map<string, string>)
    requires SimpleEntries(keys) && keys != map[] && ValuesClosed(keys) && "args" !in keys
    ensures !AllStand(After(Join(NESTED, '\n'), keys), keys)
  {
    hide IsRunHeader, IsTable, Split, Join, KeyName, SimpleEntries, RegionOf, After, ValuesClosed, AllStand, Depth;
    var text := Join(NESTED, '\n');
    NestedRegion();
    NestedLines();
    NestedDepth();
    SplitJoin(NESTED, '\n');
    WrittenStandIff(text, keys);
    var body := NESTED[1..2];
    assert body == [NESTED[1]];
    var key :| key in keys;
    assert key in keys.Keys - KeysIn(body);
    assert !Sets(NESTED[1], keys);
    LeftOutAtHeader(NESTED, 0, keys, 1);
    assert DepthLeftOut(NESTED, 0, keys, 2) == Depth(NESTED[1], DepthLeftOut(NESTED, 0, keys, 1));
    assert DepthBefore(NESTED, 2) == Depth(NESTED[1], DepthBefore(NESTED, 1));
    assert !Editable(NESTED, 0, 2, keys);
  }

  /* The algorithm. */

  method FindRun(lines: seq<string>) returns (start: int, end: nat)
    ensures start < 0 <==> RegionOf(lines).NoRegion?
    ensures start >= 0 ==> RegionOf(lines) == Region(start, end) && start < end <= |lines|
  {
    hide IsRunHeader, IsTable;
    start, end := -1, |lines|;
    var i := 0;
    while i < |lines|
      invariant i <= |lines| && -1 <= start < i && end == |lines|
      invariant RegionOf(lines) == Scanned(lines, i, if start >= 0 then Some(start) else None)
    {
      if IsRunHeader(lines[i]) {
        start := i;
        i := i + 1;
        continue;
      }
      if start >= 0 && IsTable(lines[i]) {
        end := i;
        break;
      }
      i := i + 1;
    }
  }

  method RewriteBody(body: seq<string>, keys: map<string, string>) returns (lines: seq<string>, present: set<string>)
    ensures lines == RewrittenAll(body, keys)
    ensures present == KeysIn(body) * keys.Keys
  {
    hide KeyName, Written;
    lines, present := [], {};
    for i := 0 to |body|
      invariant lines == RewrittenAll(body[..i], keys)
      invariant forall key :: key in present <==> key in keys && key in KeysIn(body[..i])
    {
      assert forall key :: key in KeysIn(body[..i + 1]) <==>
          key in KeysIn(body[..i]) || KeyName(body[i]) == Some(key) by {
        KeysInStep(body, i);
      }
      var line := body[i];
      var name := KeyName(line);
      if name.Some? && name.value in keys {
        line := Written(name.value, keys[name.value]);
        present := present + {name.value};
      }
      lines := lines + [line];
    }
    assert body[..|body|] == body;
  }

  lemma KeysInStep(body: seq<string>, i: nat)
    requires i < |body|
    ensures forall key :: key in KeysIn(body[..i + 1]) <==> key in KeysIn(body[..i]) || KeyName(body[i]) == Some(key)
  {
    hide KeyName;
    var shorter, longer := body[..i], body[..i + 1];
    forall key
      ensures key in KeysIn(longer) <==> key in KeysIn(shorter) || KeyName(body[i]) == Some(key)
    {
      if key in KeysIn(shorter) {
        var j :| 0 <= j < i && KeyName(shorter[j]) == Some(key);
        assert KeyName(longer[j]) == Some(key);
      }
      if KeyName(body[i]) == Some(key) {
        assert KeyName(longer[i]) == Some(key);
      }
      if key in KeysIn(longer) && KeyName(body[i]) != Some(key) {
        var j :| 0 <= j < |longer| && KeyName(longer[j]) == Some(key);
        assert KeyName(shorter[j]) == Some(key);
      }
    }
  }

  method AddLines(missing: set<string>, keys: map<string, string>) returns (add: seq<string>)
    requires missing <= keys.Keys
    ensures (AscendingOf(missing); add == WrittenAll(Ascending(missing), keys))
  {
    var order := SortedKeys(missing);
    AscendingOf(missing);
    add := [];
    for i := 0 to |order|
      invariant |add| == i
      invariant forall j :: 0 <= j < i ==> add[j] == WrittenAll(order, keys)[j]
    {
      assert order[i] in order;
      add := add + [Written(order[i], keys[order[i]])];
    }
  }

  lemma {:induction false} JoinLines(prefix: seq<string>, added: seq<string>)
    requires prefix != []
    ensures Join(prefix + added + [[]], '\n') == Join(prefix, '\n') + ['\n'] + Terminated(added)
    decreases added
  {
    if added == [] {
      JoinAppend(prefix, [[]], '\n');
      JoinSmall([], '\n');
      assert prefix + added + [[]] == prefix + [[]];
    } else {
      var longer := prefix + [added[0]];
      JoinLines(longer, added[1..]);
      assert prefix + added + [[]] == longer + added[1..] + [[]];
      JoinAppend(prefix, [added[0]], '\n');
      JoinSmall(added[0], '\n');
    }
  }

  // The lines one after the other, each with its line end.
  function Terminated(lines: seq<string>): string {
    if lines == [] then [] else lines[0] + ['\n'] + Terminated(lines[1..])
  }

  lemma {:induction false} TerminatedAppend(lines: seq<string>, line: string)
    ensures Terminated(lines + [line]) == Terminated(lines) + line + ['\n']
  {
    if lines == [] {
      assert lines + [line] == [line];
    } else {
      assert (lines + [line])[1..] == lines[1..] + [line];
      TerminatedAppend(lines[1..], line);
    }
  }

  method UpsertRunKeys(text: string, keys: map<string, string>) returns (r: string)
    ensures r == UpsertedText(text, keys)
  {
    hide Split, Join, RegionOf, KeyName, Written, KeysIn, RewrittenAll, WrittenAll;
    if keys == map[] {
      return text;
    }
    var lines := Split(text, '\n');
    var start, end := FindRun(lines);
    if start < 0 {
      var ended := text;
      if text != [] && !EndsWith(text, '\n') {
        ended := text + ['\n'];
      }
      var add := AddLines(keys.Keys, keys);
      r := ended + "\n[run]\n";
      for i := 0 to |add|
        invariant r == ended + "\n[run]\n" + Terminated(add[..i])
      {
        TerminatedAppend(add[..i], add[i]);
        assert add[..i + 1] == add[..i] + [add[i]];
        r := r + add[i] + ['\n'];
      }
      assert keys.Keys - {} == keys.Keys;
      CreatedText(text, keys, add);
      assert add[..|add|] == add;
      return;
    }
    var body, present := RewriteBody(lines[start + 1..end], keys);
    var missing := keys.Keys - present;
    assert missing == keys.Keys - KeysIn(lines[start + 1..end]);
    var add := AddLines(missing, keys);
    var before := lines[..start + 1] + body;
    if missing == {} {
      assert add == [] by {
        AscendingOf({});
        assert Ascending({}) == [];
        NothingAdded(keys);
      }
      assert before + add + lines[end..] == before + lines[end..];
      return Join(before + lines[end..], '\n');
    }
    r := Join(before + add + lines[end..], '\n');
  }

  lemma NothingAdded(keys: map<string, string>)
    ensures WrittenAll([], keys) == []
  {
  }

  lemma CreatedText(text: string, keys: map<string, string>, add: seq<string>)
    requires add == Added({}, keys)
    ensures Join(Created(text, keys), '\n') == Ended(text) + "\n[run]\n" + Terminated(add)
  {
    hide Added;
    var before := Split(Ended(text), '\n');
    JoinSplit(Ended(text), '\n');
    JoinAppend(before, ["[run]"], '\n');
    JoinSmall("[run]", '\n');
    JoinLines(before + ["[run]"], add);
    assert Created(text, keys) == before + ["[run]"] + add + [[]];
    assert "\n[run]\n" == ['\n'] + "[run]" + ['\n'];
  }
}
