/**
 Editing a TOML file line by line: a top-level key is set in place or inserted
 after the header comment, never inside a table or an open array.
 */
module TomlEdit {
  import opened Tickets
  import opened Text

  /* Array nesting. */

  datatype Mode = Bare | Quoted(quote: char)

  // The nesting depth at the end of the line, counting brackets outside strings
  // and comments.
  function Scan(line: string, mode: Mode, depth: nat): nat
    decreases |line|
  {
    if line == [] then depth
    else
      var c := line[0];
      if mode.Quoted? && mode.quote == '"' && c == '\\' then
        if |line| == 1 then depth else Scan(line[2..], mode, depth)
      else if mode.Quoted? then Scan(line[1..], if c == mode.quote then Bare else mode, depth)
      else if c == '#' then depth
      else if c == '"' || c == '\'' then Scan(line[1..], Quoted(c), depth)
      else if c == '[' then Scan(line[1..], Bare, depth + 1)
      else if c == ']' then Scan(line[1..], Bare, if depth > 0 then depth - 1 else 0)
      else Scan(line[1..], Bare, depth)
  }

  function Depth(line: string, depth: nat): nat {
    Scan(line, Bare, depth)
  }

  method ArrayDepth(line: string, depth0: nat) returns (depth: nat)
    ensures depth == Depth(line, depth0)
  {
    depth := depth0;
    var mode := Bare;
    var i := 0;
    while i < |line|
      invariant if i <= |line|
                  then Scan(line[i..], mode, depth) == Depth(line, depth0)
                  else depth == Depth(line, depth0)
    {
      var c := line[i];
      assert line[i..][0] == c && line[i..][1..] == line[i + 1..];
      if mode.Quoted? {
        if mode.quote == '"' && c == '\\' {
          assert i + 1 < |line| ==> line[i..][2..] == line[i + 2..];
          i := i + 2;
          continue;
        }
        if c == mode.quote {
          mode := Bare;
        }
      } else if c == '#' {
        return;
      } else if c == '"' || c == '\'' {
        mode := Quoted(c);
      } else if c == '[' {
        depth := depth + 1;
      } else if c == ']' {
        if depth > 0 {
          depth := depth - 1;
        }
      }
      i := i + 1;
    }
  }

  // A line as TOML reads it: brackets, simple strings, anything else, a comment.
  datatype Piece = Open | Close | Basic(content: seq<Letter>) | Literal(text: string) | Other(c: char)

  datatype Letter = Letter(c: char) | Escape(c: char)

  predicate WellFormed(piece: Piece) {
    match piece
    case Basic(content) => forall k :: 0 <= k < |content| && content[k].Letter? ==>
      content[k].c != '"' && content[k].c != '\\'
    case Literal(text) => '\'' !in text
    case Other(c) => c != '#' && c != '"' && c != '\'' && c != '[' && c != ']'
    case _ => true
  }

  function Letters(content: seq<Letter>): string {
    if content == [] then []
    else (match content[0] case Letter(c) => [c] case Escape(c) => ['\\', c]) + Letters(content[1..])
  }

  function RenderPiece(piece: Piece): string {
    match piece
    case Open => ['[']
    case Close => [']']
    case Basic(content) => ['"'] + Letters(content) + ['"']
    case Literal(text) => ['\''] + text + ['\'']
    case Other(c) => [c]
  }

  function Render(pieces: seq<Piece>): string {
    if pieces == [] then [] else RenderPiece(pieces[0]) + Render(pieces[1..])
  }

  function Nested(piece: Piece, depth: nat): nat {
    match piece
    case Open => depth + 1
    case Close => if depth > 0 then depth - 1 else 0
    case _ => depth
  }

  // Brackets among the pieces, with an unmatched close ignored.
  function Nesting(pieces: seq<Piece>, depth: nat): nat {
    if pieces == [] then depth else Nesting(pieces[1..], Nested(pieces[0], depth))
  }

  lemma {:induction false} ScanBasic(content: seq<Letter>, rest: string, depth: nat)
    requires WellFormed(Basic(content))
    ensures Scan(Letters(content) + ['"'] + rest, Quoted('"'), depth) == Scan(rest, Bare, depth)
  {
    var line := Letters(content) + ['"'] + rest;
    if content == [] {
      assert line[1..] == rest;
    } else {
      ScanBasic(content[1..], rest, depth);
      var tail := Letters(content[1..]) + ['"'] + rest;
      match content[0]
      case Letter(c) => assert line[0] == c && line[1..] == tail;
      case Escape(c) => assert line[0] == '\\' && line[2..] == tail;
    }
  }

  lemma {:induction false} ScanLiteral(text: string, rest: string, depth: nat)
    requires '\'' !in text
    ensures Scan(text + ['\''] + rest, Quoted('\''), depth) == Scan(rest, Bare, depth)
  {
    var line := text + ['\''] + rest;
    if text == [] {
      assert line[1..] == rest;
    } else {
      assert line[1..] == text[1..] + ['\''] + rest;
      ScanLiteral(text[1..], rest, depth);
    }
  }

  lemma ScanPiece(piece: Piece, rest: string, depth: nat)
    requires WellFormed(piece)
    ensures Scan(RenderPiece(piece) + rest, Bare, depth) == Scan(rest, Bare, Nested(piece, depth))
  {
    var line := RenderPiece(piece) + rest;
    match piece
    case Basic(content) =>
      assert line[0] == '"' && line[1..] == Letters(content) + ['"'] + rest;
      ScanBasic(content, rest, depth);
    case Literal(text) =>
      assert line[0] == '\'' && line[1..] == text + ['\''] + rest;
      ScanLiteral(text, rest, depth);
    case _ =>
      assert line[1..] == rest;
  }

  lemma ScanComment(comment: string, depth: nat)
    requires comment != [] ==> comment[0] == '#'
    ensures Scan(comment, Bare, depth) == depth
  {
  }

  // The scanner counts exactly the brackets that TOML sees.
  lemma {:induction false} ScannerReadsToml(pieces: seq<Piece>, comment: string, depth: nat)
    requires forall k :: 0 <= k < |pieces| ==> WellFormed(pieces[k])
    requires comment != [] ==> comment[0] == '#'
    ensures Depth(Render(pieces) + comment, depth) == Nesting(pieces, depth)
  {
    hide Scan, RenderPiece, WellFormed;
    if pieces == [] {
      assert Render(pieces) + comment == comment;
      ScanComment(comment, depth);
    } else {
      var rest := Render(pieces[1..]) + comment;
      assert Render(pieces) + comment == RenderPiece(pieces[0]) + rest;
      ScanPiece(pieces[0], rest, depth);
      ScannerReadsToml(pieces[1..], comment, Nested(pieces[0], depth));
    }
  }

  /* Lines. */

  predicate IsTable(line: string) {
    Trim(line) != [] && Trim(line)[0] == '['
  }

  predicate IsComment(line: string) {
    Trim(line) != [] && Trim(line)[0] == '#'
  }

  predicate IsBlank(line: string) {
    Trim(line) == []
  }

  function KeyName(line: string): Option<string> {
    var trimmed := Trim(line);
    if trimmed == [] || trimmed[0] == '#' || trimmed[0] == '[' then None
    else match Cut(trimmed, '=')
      case None => None
      case Some((left, _)) => Some(Trim(left))
  }

  // The value a line gives its key.
  function ValueOf(line: string): string {
    match Cut(line, '=')
    case None => []
    case Some((_, right)) => Trim(right)
  }

  function Written(key: string, value: string): string {
    key + " = " + value
  }

  // The line sets this key: the key stands first, before the first equals sign, with
  // white space around it, and the line is neither a comment nor a table.
  ghost predicate SetsKey(line: string, key: string) {
    && Trimmed(key) && '=' !in key && (key != [] ==> key[0] != '#' && key[0] != '[')
    && exists before, pad, right :: AllSpace(before) && AllSpace(pad) && line == Setting(before, key, pad, right)
  }

  function Setting(before: string, key: string, pad: string, right: string): string {
    before + (key + pad + ['='] + right)
  }

  // The key read off a line is the one it sets, and there is none only if it sets none.
  lemma KeyNameIff(line: string, key: string)
    ensures KeyName(line) == Some(key) <==> SetsKey(line, key)
  {
    hide Trim, Cut, AllSpace;
    if SetsKey(line, key) {
      var before, pad, right :| AllSpace(before) && AllSpace(pad) && line == Setting(before, key, pad, right);
      SettingSets(before, key, pad, right);
    }
    if KeyName(line) == Some(key) {
      var before, after := TrimParts(line);
      CutSome(Trim(line), '=');
      var (left, right) := Cut(Trim(line), '=').value;
      var lead, pad := TrimParts(left);
      KeyLeads(Trim(line), lead, key, pad);
      assert line == Setting(before, key, pad, right + after);
    }
  }

  lemma KeyLeads(trimmed: string, lead: string, key: string, pad: string)
    requires Trimmed(trimmed) && AllSpace(lead) && lead + key + pad < trimmed
    ensures lead == []
  {
    assert lead + key + pad != [] ==> trimmed[0] == (lead + key + pad)[0];
  }

  // The trimmed line up to the equals sign.
  lemma SettingTrimmed(lead: string, left: string, right: string) returns (rest: string)
    requires AllSpace(lead) && (left == [] || !IsSpace(left[0]))
    ensures Trim(lead + (left + ['='] + right)) == left + ['='] + rest
  {
    hide Trim;
    var s := left + ['='] + right;
    rest := TrimKeepsPrefix(lead, s, |left| + 1);
    assert s[..|left| + 1] == left + ['='];
  }

  lemma SettingSets(before: string, key: string, pad: string, right: string)
    requires Trimmed(key) && '=' !in key && (key != [] ==> key[0] != '#' && key[0] != '[')
    requires AllSpace(before) && AllSpace(pad)
    ensures KeyName(Setting(before, key, pad, right)) == Some(key)
  {
    hide Trim, Cut, AllSpace;
    if key == [] {
      JoinedSpace(before, pad);
      assert Setting(before, key, pad, right) == (before + pad) + ([] + ['='] + right);
      var rest := SettingTrimmed(before + pad, [], right);
      CutFirst([], rest, '=');
      TrimmedStays([]);
    } else {
      var rest := SettingTrimmed(before, key + pad, right);
      KeyPadded(key, pad);
      CutFirst(key + pad, rest, '=');
    }
  }

  lemma KeyPadded(key: string, pad: string)
    requires Trimmed(key) && '=' !in key && AllSpace(pad)
    ensures '=' !in key + pad && Trim(key + pad) == key
  {
    TrimPadding([], key, pad);
    assert [] + key + pad == key + pad;
  }

  // A bare key on one line.
  predicate SimpleKey(key: string) {
    key != [] && Trimmed(key) && '=' !in key && '\n' !in key && key[0] != '#' && key[0] != '['
  }

  lemma WrittenLine(key: string, value: string)
    requires SimpleKey(key)
    ensures KeyName(Written(key, value)) == Some(key)
    ensures ValueOf(Written(key, value)) == Trim(value)
    ensures !IsTable(Written(key, value)) && !IsBlank(Written(key, value))
    ensures '\n' !in value ==> '\n' !in Written(key, value)
  {
    WrittenKey(key, value);
    WrittenValue(key, value);
    hide Trim, Cut, Written;
  }

  lemma WrittenKey(key: string, value: string)
    requires SimpleKey(key)
    ensures KeyName(Written(key, value)) == Some(key)
  {
    hide Trim, Cut, KeyName;
    SettingSets([], key, " ", " " + value);
    assert Written(key, value) == Setting([], key, " ", " " + value);
  }

  lemma WrittenValue(key: string, value: string)
    requires SimpleKey(key)
    ensures ValueOf(Written(key, value)) == Trim(value)
    ensures '\n' !in value ==> '\n' !in Written(key, value)
  {
    hide Cut;
    assert Written(key, value) == (key + " ") + ['='] + (" " + value);
    CutFirst(key + " ", " " + value, '=');
    TrimLeftPrefix(" ", value);
  }

  lemma {:induction false} SpacesThenScan(line: string, depth: nat)
    requires TrimLeft(line) == [] || TrimLeft(line)[0] == '#'
    ensures Depth(line, depth) == depth
  {
    if line != [] && IsSpace(line[0]) {
      SpacesThenScan(line[1..], depth);
    }
  }

  lemma {:induction false} TrimLeftHead(line: string)
    ensures TrimLeft(line) == [] || !IsSpace(TrimLeft(line)[0])
  {
    if line != [] && IsSpace(line[0]) {
      TrimLeftHead(line[1..]);
    }
  }

  lemma QuietLine(line: string, depth: nat)
    requires IsBlank(line) || IsComment(line)
    ensures Depth(line, depth) == depth && !IsTable(line) && KeyName(line).None?
  {
    TrimLeftHead(line);
    var left := TrimLeft(line);
    if left != [] {
      TrimRightKeeps(left, 1);
    }
    SpacesThenScan(line, depth);
  }

  /* Setting a top-level key. */

  // The first line that sets the key before any table and outside any array.
  function FindKey(lines: seq<string>, key: string, depth: nat): (r: Option<nat>)
    ensures r.Some? ==> r.value < |lines| && KeyName(lines[r.value]) == Some(key)
  {
    if lines == [] then None
    else if depth == 0 && IsTable(lines[0]) then None
    else if depth == 0 && KeyName(lines[0]) == Some(key) then Some(0)
    else Shifted(FindKey(lines[1..], key, Depth(lines[0], depth)), 1)
  }

  function Shifted(found: Option<nat>, offset: nat): Option<nat> {
    if found.Some? then Some(found.value + offset) else None
  }

  lemma FindKeyAt(lines: seq<string>, key: string, i: nat, depth: nat)
    requires i < |lines|
    ensures FindKey(lines[i..], key, depth) ==
            if depth == 0 && IsTable(lines[i]) then None
            else if depth == 0 && KeyName(lines[i]) == Some(key) then Some(0)
            else Shifted(FindKey(lines[i + 1..], key, Depth(lines[i], depth)), 1)
  {
    var rest := lines[i..];
    assert rest[0] == lines[i] && rest[1..] == lines[i + 1..];
  }

  function DepthBefore(lines: seq<string>, i: nat): nat
    requires i <= |lines|
  {
    if i == 0 then 0 else Depth(lines[i - 1], DepthBefore(lines, i - 1))
  }

  // The line stands before every table and outside every array.
  ghost predicate TopLevel(lines: seq<string>, i: nat) {
    && i < |lines| && DepthBefore(lines, i) == 0
    && forall j :: 0 <= j <= i && DepthBefore(lines, j) == 0 ==> !IsTable(lines[j])
  }

  // No line before n is a table or sets the key at the top level.
  ghost predicate Passed(lines: seq<string>, key: string, n: nat)
    requires n <= |lines|
  {
    forall j :: 0 <= j < n && DepthBefore(lines, j) == 0 ==> !IsTable(lines[j]) && KeyName(lines[j]) != Some(key)
  }

  lemma {:induction false} FindKeyFrom(lines: seq<string>, key: string, n: nat) returns (m: nat)
    requires n <= |lines| && Passed(lines, key, n)
    ensures n <= m <= |lines| && Passed(lines, key, m)
    ensures m < |lines| ==> DepthBefore(lines, m) == 0 && (IsTable(lines[m]) || KeyName(lines[m]) == Some(key))
    ensures FindKey(lines[n..], key, DepthBefore(lines, n)) ==
            if m < |lines| && !IsTable(lines[m]) then Some(m - n) else None
    decreases |lines| - n
  {
    hide IsTable, KeyName, Depth;
    m := n;
    if n < |lines| {
      FindKeyAt(lines, key, n, DepthBefore(lines, n));
      if !(DepthBefore(lines, n) == 0 && (IsTable(lines[n]) || KeyName(lines[n]) == Some(key))) {
        m := FindKeyFrom(lines, key, n + 1);
      }
    }
  }

  // What is found is the first top-level line with the key; nothing is found only
  // when there is none.
  lemma FindKeyIsFirst(lines: seq<string>, key: string)
    ensures
      match FindKey(lines, key, 0)
      case Some(i) =>
        TopLevel(lines, i) &&
        forall j :: 0 <= j < i ==> !(TopLevel(lines, j) && KeyName(lines[j]) == Some(key))
      case None => forall j :: 0 <= j < |lines| ==> !(TopLevel(lines, j) && KeyName(lines[j]) == Some(key))
  {
    var m := FindKeyFrom(lines, key, 0);
    assert lines[0..] == lines;
    forall j | 0 <= j < |lines| && TopLevel(lines, j) && KeyName(lines[j]) == Some(key)
      ensures m <= j && FindKey(lines, key, 0).Some?
    {
      assert !IsTable(lines[j]);
      if m < j {
        assert DepthBefore(lines, m) == 0 ==> !IsTable(lines[m]);
      }
    }
  }

  function Lookup(lines: seq<string>, key: string): Option<string> {
    match FindKey(lines, key, 0)
    case None => None
    case Some(i) => Some(ValueOf(lines[i]))
  }

  // How many blank and comment lines come first.
  function Leading(lines: seq<string>): (n: nat)
    ensures n <= |lines|
    ensures forall i :: 0 <= i < n ==> IsBlank(lines[i]) || IsComment(lines[i])
    ensures n < |lines| ==> !IsBlank(lines[n]) && !IsComment(lines[n])
  {
    if lines != [] && (IsBlank(lines[0]) || IsComment(lines[0])) then 1 + Leading(lines[1..]) else 0
  }

  predicate EndsWith(s: string, c: char) {
    s != [] && s[|s| - 1] == c
  }

  function InsertedText(text: string, line: string): string {
    var lines := Split(text, '\n');
    var n := Leading(lines);
    var prefix := Join(lines[..n], '\n');
    (if prefix != [] && !EndsWith(prefix, '\n') then prefix + ['\n'] else prefix)
    + line + ['\n'] + Join(lines[n..], '\n')
  }

  method InsertTopLevel(text: string, line: string) returns (r: string)
    ensures r == InsertedText(text, line)
  {
    hide Split, Join, Trim;
    var lines := Split(text, '\n');
    var i := 0;
    while i < |lines|
      invariant i <= |lines|
      invariant i + Leading(lines[i..]) == Leading(lines)
    {
      assert lines[i..][0] == lines[i] && lines[i..][1..] == lines[i + 1..];
      var trimmed := Trim(lines[i]);
      if trimmed == [] || trimmed[0] == '#' {
        i := i + 1;
        continue;
      }
      break;
    }
    var prefix := Join(lines[..i], '\n');
    if prefix != [] && !EndsWith(prefix, '\n') {
      prefix := prefix + ['\n'];
    }
    r := prefix + line + ['\n'] + Join(lines[i..], '\n');
  }

  function Edited(text: string, key: string, value: string): string {
    var lines := Split(text, '\n');
    match FindKey(lines, key, 0)
    case Some(i) => Join(lines[i := Written(key, value)], '\n')
    case None => InsertedText(text, Written(key, value))
  }

  lemma NothingFound(key: string, depth: nat)
    ensures FindKey([], key, depth).None?
  {
  }

  method SetTopLevelKey(text: string, key: string, value: string) returns (r: string)
    ensures r == Edited(text, key, value)
  {
    hide IsTable, KeyName, Depth, Written, Join, InsertedText, FindKey, Split;
    var lines := Split(text, '\n');
    var depth: nat := 0;
    var i := 0;
    assert lines[0..] == lines;
    while i < |lines|
      invariant i <= |lines|
      invariant FindKey(lines, key, 0) == Shifted(FindKey(lines[i..], key, depth), i)
    {
      FindKeyAt(lines, key, i, depth);
      if depth == 0 {
        if IsTable(lines[i]) {
          break;
        }
        if KeyName(lines[i]) == Some(key) {
          lines := lines[i := Written(key, value)];
          return Join(lines, '\n');
        }
      }
      depth := ArrayDepth(lines[i], depth);
      i := i + 1;
    }
    if i == |lines| {
      NothingFound(key, depth);
    }
    r := InsertTopLevel(text, Written(key, value));
  }

  // Inserting at the text is inserting a line: at most one empty line before it
  // is taken up, and a final line is begun if nothing follows.
  function InsertedLines(lines: seq<string>, line: string): seq<string> {
    var n := Leading(lines);
    (if n > 0 && lines[n - 1] == [] then lines[..n - 1] else lines[..n])
    + [line]
    + (if n == |lines| then [[]] else lines[n..])
  }

  lemma JoinEnd(p: seq<string>, last: string)
    ensures Join(p + [last], '\n') == if p == [] then last else Join(p, '\n') + ['\n'] + last
  {
    if p != [] {
      JoinAppend(p, [last], '\n');
    } else {
      assert p + [last] == [last];
    }
  }

  lemma {:induction false} EndsInNewline(p: seq<string>)
    requires Free(p, '\n') && p != []
    ensures EndsWith(Join(p, '\n'), '\n') <==> |p| > 1 && p[|p| - 1] == []
    ensures Join(p, '\n') == [] <==> p == [[]]
  {
    var n := |p| - 1;
    assert p == p[..n] + [p[n]];
    JoinEnd(p[..n], p[n]);
    if p[n] != [] {
      assert p[n][|p[n]| - 1] in p[n];
    }
  }

  // The text in front of the inserted line, complete with its line end.
  lemma PrefixJoins(lines: seq<string>, n: nat, rest: seq<string>)
    requires n <= |lines| && Free(lines, '\n') && rest != []
    ensures
      var prefix := Join(lines[..n], '\n');
      var kept := if n > 0 && lines[n - 1] == [] then lines[..n - 1] else lines[..n];
      (if prefix != [] && !EndsWith(prefix, '\n') then prefix + ['\n'] else prefix)
        + Join(rest, '\n') == Join(kept + rest, '\n')
  {
    var prefix, p := Join(lines[..n], '\n'), lines[..n];
    if n > 0 {
      EndsInNewline(p);
      if lines[n - 1] == [] {
        assert p == p[..n - 1] + [[]];
        JoinEnd(p[..n - 1], []);
        assert lines[..n - 1] == p[..n - 1];
        if n > 1 {
          JoinAppend(p[..n - 1], rest, '\n');
          assert prefix == Join(p[..n - 1], '\n') + ['\n'];
        } else {
          assert lines[..n - 1] + rest == rest;
          assert prefix + Join(rest, '\n') == Join(rest, '\n');
        }
      } else {
        JoinAppend(p, rest, '\n');
      }
    } else {
      assert lines[..n] + rest == rest;
    }
  }

  lemma InsertedTextIsLines(text: string, line: string)
    requires '\n' !in line
    ensures Split(InsertedText(text, line), '\n') == InsertedLines(Split(text, '\n'), line)
  {
    hide Split, Join, Leading;
    var lines := Split(text, '\n');
    SplitIsFree(text, '\n');
    var n := Leading(lines);
    var tail := if n == |lines| then [[]] else lines[n..];
    var rest := [line] + tail;
    var before := if n > 0 && lines[n - 1] == [] then lines[..n - 1] else lines[..n];
    assert Join(rest, '\n') == line + ['\n'] + Join(lines[n..], '\n') by {
      JoinAppend([line], tail, '\n');
      JoinSmall(line, '\n');
      JoinSmall([], '\n');
    }
    assert InsertedText(text, line) == Join(before + rest, '\n') by {
      PrefixJoins(lines, n, rest);
    }
    assert InsertedLines(lines, line) == before + rest;
    SplitJoin(before + rest, '\n');
  }

  // The edit, seen on lines.
  function EditedLines(lines: seq<string>, key: string, value: string): seq<string> {
    match FindKey(lines, key, 0)
    case Some(i) => lines[i := Written(key, value)]
    case None => InsertedLines(lines, Written(key, value))
  }

  lemma EditedIsLines(text: string, key: string, value: string)
    requires SimpleKey(key) && '\n' !in value
    ensures Split(Edited(text, key, value), '\n') == EditedLines(Split(text, '\n'), key, value)
  {
    hide Split, Join, FindKey, InsertedText, InsertedLines, SimpleKey;
    var lines, line := Split(text, '\n'), Written(key, value);
    SplitIsFree(text, '\n');
    WrittenLine(key, value);
    InsertedTextIsLines(text, line);
    match FindKey(lines, key, 0)
    case Some(i) => SplitJoin(lines[i := line], '\n');
    case None =>
  }

  lemma {:induction false} FindReplaced(lines: seq<string>, key: string, depth: nat, i: nat, line: string)
    requires FindKey(lines, key, depth) == Some(i) && KeyName(line) == Some(key) && !IsTable(line)
    ensures FindKey(lines[i := line], key, depth) == Some(i)
  {
    hide IsTable, KeyName, Depth;
    if i > 0 {
      FindReplaced(lines[1..], key, Depth(lines[0], depth), i - 1, line);
      assert lines[i := line][1..] == lines[1..][i - 1 := line];
    }
  }

  predicate Quiet(lines: seq<string>) {
    forall i :: 0 <= i < |lines| ==> IsBlank(lines[i]) || IsComment(lines[i])
  }

  lemma {:induction false} SkipQuiet(before: seq<string>, rest: seq<string>, key: string)
    requires Quiet(before)
    ensures FindKey(before + rest, key, 0) == Shifted(FindKey(rest, key, 0), |before|)
  {
    hide IsTable, KeyName, Depth, IsBlank, IsComment;
    if before == [] {
      assert before + rest == rest;
    } else {
      assert (before + rest)[1..] == before[1..] + rest;
      QuietLine(before[0], 0);
      SkipQuiet(before[1..], rest, key);
    }
  }

  // Where an inserted line goes: after lines that are blank or comments.
  function Before(lines: seq<string>): (before: seq<string>)
    ensures Quiet(before)
  {
    var n := Leading(lines);
    if n > 0 && lines[n - 1] == [] then lines[..n - 1] else lines[..n]
  }

  function Behind(lines: seq<string>): seq<string> {
    var n := Leading(lines);
    if n == |lines| then [[]] else lines[n..]
  }

  // The written line is the one a reader finds, it stands before every table and
  // outside every array, and reading it gives the value.
  lemma SetThenGet(text: string, key: string, value: string)
    requires SimpleKey(key) && '\n' !in value
    ensures
      var after := Split(Edited(text, key, value), '\n');
      && FindKey(after, key, 0).Some?
      && after[FindKey(after, key, 0).value] == Written(key, value)
      && TopLevel(after, FindKey(after, key, 0).value)
      && Lookup(after, key) == Some(Trim(value))
  {
    hide IsTable, KeyName, ValueOf, Depth, SimpleKey, Split, Join, TopLevel, Edited;
    var lines, line := Split(text, '\n'), Written(key, value);
    EditedIsLines(text, key, value);
    WrittenLine(key, value);
    var after := EditedLines(lines, key, value);
    match FindKey(lines, key, 0)
    case Some(i) =>
      FindReplaced(lines, key, 0, i, line);
      FindKeyIsFirst(after, key);
    case None =>
      assert after == Before(lines) + ([line] + Behind(lines));
      SkipQuiet(Before(lines), [line] + Behind(lines), key);
      FindKeyIsFirst(after, key);
  }

  // Setting the same value again changes nothing.
  lemma SetIsIdempotent(text: string, key: string, value: string)
    requires SimpleKey(key) && '\n' !in value
    ensures Edited(Edited(text, key, value), key, value) == Edited(text, key, value)
  {
    hide SimpleKey, Split, Join, FindKey, Written, TopLevel, Lookup;
    var once := Edited(text, key, value);
    SetThenGet(text, key, value);
    var after := Split(once, '\n');
    var i := FindKey(after, key, 0).value;
    assert after[i := Written(key, value)] == after;
    JoinSplit(once, '\n');
  }

  // The lines that are not blank.
  function Content(lines: seq<string>): seq<string> {
    if lines == [] then [] else (if IsBlank(lines[0]) then [] else [lines[0]]) + Content(lines[1..])
  }

  lemma {:induction false} ContentAppend(p: seq<string>, q: seq<string>)
    ensures Content(p + q) == Content(p) + Content(q)
  {
    if p == [] {
      assert p + q == q;
    } else {
      assert (p + q)[1..] == p[1..] + q;
      ContentAppend(p[1..], q);
    }
  }

  lemma ContentSplit(p: seq<string>, line: string, q: seq<string>)
    requires !IsBlank(line)
    ensures Content(p + [line] + q) == Content(p) + [line] + Content(q)
  {
    ContentAppend(p + [line], q);
    ContentAppend(p, [line]);
    assert Content([line]) == [line];
  }

  lemma ContentOfParts(lines: seq<string>)
    ensures Content(lines) == Content(Before(lines)) + Content(Behind(lines))
  {
    hide IsComment, Leading;
    var n := Leading(lines);
    assert lines == lines[..n] + lines[n..];
    ContentAppend(lines[..n], lines[n..]);
    if n > 0 && lines[n - 1] == [] {
      assert lines[..n] == lines[..n - 1] + [[]];
      ContentAppend(lines[..n - 1], [[]]);
    }
    assert Content([[]]) == [];
  }

  // Every other line with something on it survives, in order.
  lemma OtherLinesSurvive(text: string, key: string, value: string) returns (before: seq<string>, after: seq<string>)
    requires SimpleKey(key) && '\n' !in value
    ensures
      var lines := Split(text, '\n');
      var found := FindKey(lines, key, 0);
      && Content(lines) == before + (if found.Some? then [lines[found.value]] else []) + after
      && Content(Split(Edited(text, key, value), '\n')) == before + [Written(key, value)] + after
  {
    hide IsTable, Depth, SimpleKey, Split, Join, FindKey, Edited, Leading;
    var lines, line := Split(text, '\n'), Written(key, value);
    EditedIsLines(text, key, value);
    WrittenLine(key, value);
    match FindKey(lines, key, 0)
    case Some(i) =>
      before, after := Content(lines[..i]), Content(lines[i + 1..]);
      assert lines == lines[..i] + [lines[i]] + lines[i + 1..];
      assert lines[i := line] == lines[..i] + [line] + lines[i + 1..];
      ContentSplit(lines[..i], lines[i], lines[i + 1..]);
      ContentSplit(lines[..i], line, lines[i + 1..]);
    case None =>
      before, after := Content(Before(lines)), Content(Behind(lines));
      ContentOfParts(lines);
      ContentSplit(Before(lines), line, Behind(lines));
      assert EditedLines(lines, key, value) == Before(lines) + [line] + Behind(lines);
  }

  lemma {:induction false} OtherFound(lines: seq<string>, key: string, depth: nat, i: nat, line: string, other: string)
    requires FindKey(lines, key, depth) == Some(i) && KeyName(line) == Some(key) && !IsTable(line) && other != key
    requires Depth(lines[i], 0) == Depth(line, 0)
    ensures FindKey(lines[i := line], other, depth) == FindKey(lines, other, depth)
  {
    hide IsTable, KeyName, Depth;
    if i > 0 {
      if !(depth == 0 && KeyName(lines[0]) == Some(other)) {
        OtherFound(lines[1..], key, Depth(lines[0], depth), i - 1, line, other);
      }
      assert lines[i := line][1..] == lines[1..][i - 1 := line];
    } else {
      assert lines[0 := line][1..] == lines[1..];
    }
  }

  // Every other top-level key reads as before, as long as neither the old line nor
  // the new one opens an array it does not close.
  lemma OtherKeysKeep(text: string, key: string, value: string, other: string)
    requires SimpleKey(key) && '\n' !in value && other != key
    requires Depth(Written(key, value), 0) == 0
    requires
      var lines := Split(text, '\n');
      FindKey(lines, key, 0).Some? ==> Depth(lines[FindKey(lines, key, 0).value], 0) == 0
    ensures Lookup(Split(Edited(text, key, value), '\n'), other) == Lookup(Split(text, '\n'), other)
  {
    hide IsTable, KeyName, ValueOf, Depth, SimpleKey, Split, Join, Edited, Leading;
    var lines, line := Split(text, '\n'), Written(key, value);
    EditedIsLines(text, key, value);
    WrittenLine(key, value);
    match FindKey(lines, key, 0)
    case Some(i) =>
      OtherFound(lines, key, 0, i, line, other);
    case None =>
      InsertedKeepsOthers(lines, line, key, other);
  }

  lemma LookupSkips(before: seq<string>, rest: seq<string>, key: string)
    requires Quiet(before)
    ensures Lookup(before + rest, key) == Lookup(rest, key)
  {
    hide IsTable, KeyName, ValueOf, Depth, Quiet, FindKey;
    SkipQuiet(before, rest, key);
  }

  lemma LookupPasses(line: string, rest: seq<string>, key: string)
    requires KeyName(line) != Some(key) && !IsTable(line) && Depth(line, 0) == 0
    ensures Lookup([line] + rest, key) == Lookup(rest, key)
  {
    hide IsTable, KeyName, ValueOf, Depth;
    assert ([line] + rest)[1..] == rest;
  }

  lemma InsertedKeepsOthers(lines: seq<string>, line: string, key: string, other: string)
    requires KeyName(line) == Some(key) && !IsTable(line) && other != key && Depth(line, 0) == 0
    ensures Lookup(InsertedLines(lines, line), other) == Lookup(lines, other)
  {
    hide IsTable, KeyName, ValueOf, Depth, Leading, FindKey, Lookup;
    var n := Leading(lines);
    assert InsertedLines(lines, line) == Before(lines) + ([line] + Behind(lines));
    LookupSkips(Before(lines), [line] + Behind(lines), other);
    LookupPasses(line, Behind(lines), other);
    assert lines == lines[..n] + lines[n..];
    LookupSkips(lines[..n], lines[n..], other);
    if n == |lines| {
      LookupSkips([[]], [], other);
      assert [[]] + lines[n..] == [[]];
    }
  }

  function Others(s: string): seq<Piece> {
    if s == [] then [] else [Other(s[0])] + Others(s[1..])
  }

  lemma OtherFirst(c: char, rest: seq<Piece>, depth: nat)
    ensures Render([Other(c)] + rest) == [c] + Render(rest)
    ensures Nesting([Other(c)] + rest, depth) == Nesting(rest, depth)
  {
    assert ([Other(c)] + rest)[1..] == rest;
  }

  lemma {:induction false} RenderOthers(s: string, rest: seq<Piece>, depth: nat)
    ensures Render(Others(s) + rest) == s + Render(rest)
    ensures Nesting(Others(s) + rest, depth) == Nesting(rest, depth)
  {
    hide Render, Nesting;
    if s == [] {
      assert Others(s) + rest == rest;
    } else {
      RenderOthers(s[1..], rest, depth);
      OtherFirst(s[0], Others(s[1..]) + rest, depth);
      assert Others(s) + rest == [Other(s[0])] + (Others(s[1..]) + rest);
      assert s + Render(rest) == [s[0]] + (s[1..] + Render(rest));
    }
  }

  lemma {:induction false} OthersWellFormed(s: string)
    requires forall i :: 0 <= i < |s| ==> WellFormed(Other(s[i]))
    ensures forall i :: 0 <= i < |Others(s)| ==> WellFormed(Others(s)[i])
  {
    if s != [] {
      OthersWellFormed(s[1..]);
    }
  }

  // A quoted string never opens an array, whatever it holds.
  lemma QuotedValueCloses(key: string, content: seq<Letter>, depth: nat)
    requires forall i :: 0 <= i < |key| ==> WellFormed(Other(key[i]))
    requires WellFormed(Basic(content))
    ensures Depth(Written(key, RenderPiece(Basic(content))), depth) == depth
  {
    var before := key + " = ";
    var pieces := Others(before) + [Basic(content)];
    OthersWellFormed(before);
    RenderOthers(before, [Basic(content)], depth);
    assert Render([Basic(content)]) == RenderPiece(Basic(content));
    assert Render(pieces) + [] == Written(key, RenderPiece(Basic(content)));
    ScannerReadsToml(pieces, [], depth);
  }

  // Nor does a bare word.
  lemma BareValueCloses(key: string, value: string, depth: nat)
    requires forall i :: 0 <= i < |key| ==> WellFormed(Other(key[i]))
    requires forall i :: 0 <= i < |value| ==> WellFormed(Other(value[i]))
    ensures Depth(Written(key, value), depth) == depth
  {
    var line := Written(key, value);
    OthersWellFormed(line);
    RenderOthers(line, [], depth);
    assert Others(line) + [] == Others(line);
    assert Render(Others(line)) + [] == line;
    ScannerReadsToml(Others(line), [], depth);
  }
}
