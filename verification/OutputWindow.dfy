/**
 Bounded command output: text over the limit is replaced by its head and tail,
 cut to a byte budget without breaking a UTF-8 character.
 */
module OutputWindow {
  import opened Tickets
  import opened Text

  type Byte = b: int | 0 <= b < 256

  const NEWLINE: Byte := 10
  const MAX_BYTES := 32 * 1024
  const MAX_LINES := 400
  const HEAD_LINES := 60
  const TAIL_LINES := 20
  const TWO_63 := 0x8000_0000_0000_0000

  // A zero field means no bound of that kind.
  datatype Limit = Limit(bytes: int, lines: int)

  /* The policy. */

  function Lower(c: char): char {
    var code := c as int;
    if 'A' <= c <= 'Z' then (code + 32) as char
    else if code == 0x130 then 'i'
    else if code == 0x212A then 'k'
    else c
  }

  function Lowered(s: string): string {
    seq(|s|, i requires 0 <= i < |s| => Lower(s[i]))
  }

  predicate AllDigits(s: string) {
    s != [] && forall i :: 0 <= i < |s| ==> '0' <= s[i] <= '9'
  }

  function Magnitude(s: string): nat
    requires forall i :: 0 <= i < |s| ==> '0' <= s[i] <= '9'
  {
    if s == [] then 0 else 10 * Magnitude(s[..|s| - 1]) + (s[|s| - 1] as int - '0' as int)
  }

  // A decimal integer of 64 bits, with an optional sign.
  function Atoi(s: string): Option<int> {
    var digits := if s != [] && (s[0] == '+' || s[0] == '-') then s[1..] else s;
    if !AllDigits(digits) then None
    else
      var size: int := Magnitude(digits);
      var n := if s[0] == '-' then -size else size;
      if -TWO_63 <= n < TWO_63 then Some(n) else None
  }

  // The limit in force, None for full output.
  function Policy(full: bool, env: string, interactive: bool): (r: Result<Option<Limit>>)
    ensures r.Ok? && r.value.Some? ==> FromPolicy(r.value.value)
  {
    var setting := Trim(env);
    if full then Ok(None)
    else if setting != [] then
      if Lowered(setting) in ["unlimited", "off", "none", "false"] then Ok(None)
      else match Atoi(setting)
        case None => Err(Invalid)
        case Some(n) => if n < 0 then Err(Invalid) else if n == 0 then Ok(None) else Ok(Some(Limit(n, 0)))
    else if interactive then Ok(None)
    else Ok(Some(Limit(MAX_BYTES, MAX_LINES)))
  }

  // An explicit byte budget, or the built-in pair.
  predicate FromPolicy(limit: Limit) {
    (0 < limit.bytes < TWO_63 && limit.lines == 0) || limit == Limit(MAX_BYTES, MAX_LINES)
  }

  function Decimal(n: nat): string {
    if n < 10 then [('0' as int + n) as char] else Decimal(n / 10) + [('0' as int + n % 10) as char]
  }

  lemma {:induction false} DecimalReads(n: nat)
    ensures AllDigits(Decimal(n)) && Magnitude(Decimal(n)) == n
  {
    if n >= 10 {
      DecimalReads(n / 10);
      var s := Decimal(n);
      assert s[..|s| - 1] == Decimal(n / 10);
    } else {
      assert Decimal(n)[..0] == [];
    }
  }

  lemma AtoiReads(n: int)
    requires 0 <= n < TWO_63
    ensures Atoi(Decimal(n)) == Some(n) && Atoi("-" + Decimal(n)) == Some(-n)
  {
    hide Decimal, Magnitude;
    DecimalReads(n);
    assert ("-" + Decimal(n))[1..] == Decimal(n);
  }

  // A decimal setting is the byte budget; zero is none, and a negative one an error.
  lemma PolicyReadsBudget(n: nat, interactive: bool)
    requires n < TWO_63
    ensures Policy(false, Decimal(n), interactive) == Ok(if n == 0 then None else Some(Limit(n, 0)))
    ensures n > 0 ==> Policy(false, "-" + Decimal(n), interactive) == Err(Invalid)
  {
    hide Decimal, Magnitude, Atoi, Trim, Lowered;
    DecimalReads(n);
    AtoiReads(n);
    TrimmedStays(Decimal(n));
    DigitsAreNoWord(Decimal(n));
    TrimmedStays("-" + Decimal(n));
    SignIsNoWord(Decimal(n));
  }

  lemma SignIsNoWord(s: string)
    ensures Lowered("-" + s) !in ["unlimited", "off", "none", "false"]
  {
    assert Lowered("-" + s)[0] == '-';
  }

  lemma DigitsAreNoWord(s: string)
    requires AllDigits(s)
    ensures Lowered(s) !in ["unlimited", "off", "none", "false"]
  {
    assert '0' <= Lowered(s)[0] <= '9';
  }

  // The same word, in capital or small letters.
  predicate SameWord(s: string, word: string) {
    |s| == |word| && forall i :: 0 <= i < |s| ==> s[i] == word[i] || s[i] as int + 32 == word[i] as int
  }

  // The four words turn the bound off however they are written.
  lemma WordsTurnOff(env: string, word: string, interactive: bool)
    requires word in ["unlimited", "off", "none", "false"] && SameWord(env, word)
    ensures Policy(false, env, interactive) == Ok(None)
  {
    forall i | 0 <= i < |env|
      ensures Lower(env[i]) == word[i] && !IsSpace(env[i])
    {
      assert 'a' <= word[i] <= 'z';
    }
    TrimmedStays(env);
    assert Lowered(env) == word;
  }

  // The flag turns the bound off; without a setting it is off at a terminal and
  // otherwise the built-in one.
  lemma PolicyDefaults(env: string, interactive: bool)
    ensures Policy(true, env, interactive) == Ok(None)
    ensures Policy(false, "", interactive) == Ok(if interactive then None else Some(Limit(32768, 400)))
  {
  }

  /* Lines. */

  function Newlines(data: seq<Byte>): nat {
    if data == [] then 0 else (if data[0] == NEWLINE then 1 else 0) + Newlines(data[1..])
  }

  predicate OpenEnded(data: seq<Byte>) {
    data != [] && data[|data| - 1] != NEWLINE
  }

  function CountLines(data: seq<Byte>): nat {
    Newlines(data) + if OpenEnded(data) then 1 else 0
  }

  predicate Exceeds(data: seq<Byte>, limit: Limit) {
    (limit.bytes > 0 && |data| > limit.bytes) || (limit.lines > 0 && CountLines(data) > limit.lines)
  }

  // The text cut behind every newline; the last piece may be empty.
  function SplitAfter(data: seq<Byte>): (pieces: seq<seq<Byte>>)
    ensures pieces != []
  {
    if data == [] then [[]]
    else
      var rest := SplitAfter(data[1..]);
      if data[0] == NEWLINE then [[NEWLINE]] + rest else [[data[0]] + rest[0]] + rest[1..]
  }

  function Concat(pieces: seq<seq<Byte>>): seq<Byte> {
    if pieces == [] then [] else pieces[0] + Concat(pieces[1..])
  }

  lemma {:induction false} NewlinesAppend(a: seq<Byte>, b: seq<Byte>)
    ensures Newlines(a + b) == Newlines(a) + Newlines(b)
  {
    if a == [] {
      assert a + b == b;
    } else {
      assert (a + b)[1..] == a[1..] + b;
      NewlinesAppend(a[1..], b);
    }
  }

  lemma {:induction false} SplitAfterParts(data: seq<Byte>)
    ensures Concat(SplitAfter(data)) == data
    ensures |SplitAfter(data)| == Newlines(data) + 1
    ensures forall k :: 0 <= k < |SplitAfter(data)| - 1 ==>
              var piece := SplitAfter(data)[k]; piece != [] && piece[|piece| - 1] == NEWLINE
  {
    if data != [] {
      SplitAfterParts(data[1..]);
      var pieces, rest := SplitAfter(data), SplitAfter(data[1..]);
      assert pieces[1..] == if data[0] == NEWLINE then rest else rest[1..];
      assert data == [data[0]] + data[1..];
      forall k | 0 <= k < |pieces| - 1
        ensures pieces[k] != [] && pieces[k][|pieces[k]| - 1] == NEWLINE
      {
        if k > 0 {
          assert pieces[k] == if data[0] == NEWLINE then rest[k - 1] else rest[k];
        }
      }
    }
  }

  lemma {:induction false} ConcatAppend(p: seq<seq<Byte>>, q: seq<seq<Byte>>)
    ensures Concat(p + q) == Concat(p) + Concat(q)
  {
    if p == [] {
      assert p + q == q;
    } else {
      assert (p + q)[1..] == p[1..] + q;
      ConcatAppend(p[1..], q);
    }
  }

  /* UTF-8. */

  predicate Continues(b: Byte) {
    0x80 <= b <= 0xBF
  }

  // The length of the character the bytes begin with, 0 if they begin with none.
  function RuneSize(s: seq<Byte>): nat {
    if s == [] then 0
    else
      var b := s[0];
      if b < 0x80 then 1
      else if 0xC2 <= b <= 0xDF && |s| >= 2 && Continues(s[1]) then 2
      else if 0xE0 <= b <= 0xEF && |s| >= 3 && Continues(s[1]) && Continues(s[2])
              && (b == 0xE0 ==> s[1] >= 0xA0) && (b == 0xED ==> s[1] <= 0x9F) then 3
      else if 0xF0 <= b <= 0xF4 && |s| >= 4 && Continues(s[1]) && Continues(s[2]) && Continues(s[3])
              && (b == 0xF0 ==> s[1] >= 0x90) && (b == 0xF4 ==> s[1] <= 0x8F) then 4
      else 0
  }

  lemma RuneFits(s: seq<Byte>)
    ensures RuneSize(s) <= |s|
    ensures forall k :: 0 < k < RuneSize(s) ==> Continues(s[k])
  {
  }

  // Every byte that starts no character is dropped.
  function ToValid(s: seq<Byte>): seq<Byte> {
    if s == [] then []
    else
      var n := RuneSize(s);
      if n == 0 then ToValid(s[1..]) else (RuneFits(s); s[..n] + ToValid(s[n..]))
  }

  predicate Valid(s: seq<Byte>) {
    s == [] || (RuneSize(s) > 0 && (RuneFits(s); Valid(s[RuneSize(s)..])))
  }

  // The last character boundary at or before m, and the first at or after it.
  function Floor(s: seq<Byte>, m: nat): (r: nat)
    requires Valid(s) && m <= |s|
    ensures r <= m
  {
    RuneFits(s);
    var n := RuneSize(s);
    if s == [] || n > m then 0 else n + Floor(s[n..], m - n)
  }

  function Ceiling(s: seq<Byte>, m: nat): (r: nat)
    requires Valid(s) && m <= |s|
    ensures m <= r <= |s|
  {
    RuneFits(s);
    var n := RuneSize(s);
    if m == 0 then 0 else if n >= m then n else n + Ceiling(s[n..], m - n)
  }

  lemma {:induction false} SkipContinued(c: seq<Byte>, rest: seq<Byte>)
    requires forall i :: 0 <= i < |c| ==> Continues(c[i])
    ensures ToValid(c + rest) == ToValid(rest)
  {
    if c == [] {
      assert c + rest == rest;
    } else {
      assert (c + rest)[1..] == c[1..] + rest;
      assert RuneSize(c + rest) == 0;
      SkipContinued(c[1..], rest);
    }
  }

  // A character cut short leaves nothing.
  lemma PartialRune(s: seq<Byte>, m: nat)
    requires m < RuneSize(s)
    ensures m <= |s| && ToValid(s[..m]) == []
  {
    RuneFits(s);
    if m > 0 {
      var part := s[..m];
      assert RuneSize(part) == 0;
      var c := part[1..];
      assert forall i :: 0 <= i < |c| ==> c[i] == s[i + 1] && Continues(c[i]);
      SkipContinued(c, []);
      assert c + [] == c;
    }
  }

  lemma RunePrefix(s: seq<Byte>, m: nat)
    requires RuneSize(s) <= m <= |s|
    ensures RuneSize(s) > 0 ==> RuneSize(s[..m]) == RuneSize(s)
  {
  }

  // The first character of a text and what follows it.
  lemma FirstRune(s: seq<Byte>, m: nat)
    requires 0 < RuneSize(s) <= m <= |s|
    ensures
      var n := RuneSize(s);
      && ToValid(s[..m]) == s[..n] + ToValid(s[n..][..m - n])
      && (Valid(s[n..][..m - n]) ==> Valid(s[..m]))
  {
    var n := RuneSize(s);
    RunePrefix(s, m);
    assert s[..m][..n] == s[..n] && s[..m][n..] == s[n..][..m - n];
  }

  lemma {:induction false} CutHead(s: seq<Byte>, m: nat)
    requires Valid(s) && m <= |s|
    ensures ToValid(s[..m]) == s[..Floor(s, m)]
    ensures Valid(s[..Floor(s, m)])
  {
    hide RuneSize, ToValid;
    RuneFits(s);
    var n := RuneSize(s);
    if s == [] {
      assert s[..m] == s;
      ValidIsKept(s);
    } else if n > m {
      PartialRune(s, m);
    } else {
      var rest := s[n..];
      CutHead(rest, m - n);
      var k := Floor(rest, m - n);
      FirstRune(s, m);
      FirstRune(s, n + k);
      assert s[..n] + rest[..k] == s[..n + k];
    }
  }

  lemma {:induction false} CutTail(s: seq<Byte>, m: nat)
    requires Valid(s) && m <= |s|
    ensures ToValid(s[m..]) == s[Ceiling(s, m)..]
    ensures Valid(s[Ceiling(s, m)..])
    decreases |s|
  {
    hide RuneSize, ToValid;
    RuneFits(s);
    var n := RuneSize(s);
    if m == 0 {
      ValidIsKept(s);
      assert s[0..] == s;
    } else if n >= m {
      var c := s[m..n];
      assert forall i :: 0 <= i < |c| ==> c[i] == s[m + i] && Continues(c[i]);
      assert s[m..] == c + s[n..];
      SkipContinued(c, s[n..]);
      ValidIsKept(s[n..]);
    } else {
      CutTail(s[n..], m - n);
      assert s[m..] == s[n..][m - n..];
      assert s[Ceiling(s, m)..] == s[n..][Ceiling(s[n..], m - n)..];
    }
  }

  lemma {:induction false} ValidIsKept(s: seq<Byte>)
    requires Valid(s)
    ensures ToValid(s) == s
  {
    if s != [] {
      RuneFits(s);
      ValidIsKept(s[RuneSize(s)..]);
      assert s == s[..RuneSize(s)] + s[RuneSize(s)..];
    }
  }

  // A one-byte character ends at a boundary.
  lemma {:induction false} AsciiEnds(s: seq<Byte>, m: nat)
    requires Valid(s) && 0 < m <= |s| && s[m - 1] < 0x80
    ensures Floor(s, m) == m && Ceiling(s, m) == m
    decreases |s|
  {
    RuneFits(s);
    var n := RuneSize(s);
    if n < m {
      assert s[n..][m - n - 1] == s[m - 1];
      AsciiEnds(s[n..], m - n);
    } else {
      assert n == m;
      assert Floor(s[n..], 0) == 0;
    }
  }

  /* The window. */

  // 64-bit multiplication by three, for a positive operand.
  function Tripled(n: int): int
    requires 0 < n < TWO_63
  {
    if 3 * n < TWO_63 then 3 * n else 3 * n - 2 * TWO_63
  }

  function HeadBudget(bytes: int): (r: nat)
    requires 0 < bytes < TWO_63
    ensures 4 * r <= 3 * bytes
    ensures 3 * bytes < TWO_63 ==> r == 3 * bytes / 4
  {
    if Tripled(bytes) < 0 then 0 else Tripled(bytes) / 4
  }

  function CapHead(s: seq<Byte>, budget: nat): seq<Byte> {
    if |s| <= budget then s else ToValid(s[..budget])
  }

  function CapTail(s: seq<Byte>, budget: nat): seq<Byte> {
    if |s| <= budget then s else ToValid(s[|s| - budget..])
  }

  function HeadLines(data: seq<Byte>): seq<Byte> {
    var pieces := SplitAfter(data);
    Concat(pieces[..if |pieces| < HEAD_LINES then |pieces| else HEAD_LINES])
  }

  function TailLines(data: seq<Byte>): seq<Byte> {
    var pieces := SplitAfter(data);
    Concat(pieces[if |pieces| < TAIL_LINES then 0 else |pieces| - TAIL_LINES..])
  }

  function HeadTail(data: seq<Byte>, limit: Limit): (seq<Byte>, seq<Byte>)
    requires FromPolicy(limit)
  {
    (CapHead(HeadLines(data), HeadBudget(limit.bytes)), CapTail(TailLines(data), limit.bytes / 4))
  }

  // Joining the last pieces ends at the end, the first ones behind a newline.
  lemma HeadEnds(data: seq<Byte>)
    ensures HeadLines(data) <= data
    ensures HeadLines(data) == data || EndsLine(HeadLines(data))
    ensures |SplitAfter(data)| <= HEAD_LINES ==> HeadLines(data) == data
  {
    hide SplitAfter, Concat;
    SplitAfterParts(data);
    var pieces := SplitAfter(data);
    if |pieces| <= HEAD_LINES {
      assert pieces[..|pieces|] == pieces;
    } else {
      var first, rest := pieces[..HEAD_LINES], pieces[HEAD_LINES..];
      assert first + rest == pieces;
      ConcatAppend(first, rest);
      EndsInNewline(first);
    }
  }

  predicate EndsLine(s: seq<Byte>) {
    s != [] && s[|s| - 1] == NEWLINE
  }

  lemma EndsInNewline(pieces: seq<seq<Byte>>)
    requires pieces != []
    requires EndsLine(pieces[|pieces| - 1])
    ensures EndsLine(Concat(pieces))
  {
    var n := |pieces| - 1;
    assert pieces == pieces[..n] + [pieces[n]];
    ConcatAppend(pieces[..n], [pieces[n]]);
    assert Concat([pieces[n]]) == pieces[n];
  }

  predicate Suffix(s: seq<Byte>, data: seq<Byte>) {
    |s| <= |data| && s == data[|data| - |s|..]
  }

  lemma TailEnds(data: seq<Byte>)
    ensures Suffix(TailLines(data), data)
    ensures TailLines(data) == data || EndsLine(data[..|data| - |TailLines(data)|])
  {
    hide SplitAfter, Concat;
    SplitAfterParts(data);
    var pieces := SplitAfter(data);
    if |pieces| <= TAIL_LINES {
      assert pieces[0..] == pieces;
      assert data[0..] == data;
    } else {
      var n := |pieces| - TAIL_LINES;
      var first, rest := pieces[..n], pieces[n..];
      assert first + rest == pieces;
      ConcatAppend(first, rest);
      EndsInNewline(first);
      assert data == Concat(first) + Concat(rest);
      assert data[..|Concat(first)|] == Concat(first);
    }
  }

  // Cutting at the budget keeps a valid prefix and a valid suffix.
  lemma HeadIsValid(data: seq<Byte>, budget: nat)
    requires Valid(data)
    ensures
      var head := CapHead(HeadLines(data), budget);
      head <= data && |head| <= budget && |head| <= |HeadLines(data)| && Valid(head)
  {
    hide RuneSize, ToValid, Floor, Ceiling, HeadLines, Valid;
    HeadEnds(data);
    var lines := HeadLines(data);
    if |lines| <= budget {
      if lines != data {
        assert data[|lines| - 1] == NEWLINE;
        AsciiEnds(data, |lines|);
        CutHead(data, |lines|);
        assert data[..|lines|] == lines;
      }
    } else {
      CutHead(data, budget);
      assert lines[..budget] == data[..budget];
    }
  }

  lemma TailIsValid(data: seq<Byte>, budget: nat)
    requires Valid(data)
    ensures
      var tail := CapTail(TailLines(data), budget);
      Suffix(tail, data) && |tail| <= budget && |tail| <= |TailLines(data)| && Valid(tail)
  {
    hide RuneSize, ToValid, Floor, Ceiling, TailLines, Valid;
    TailEnds(data);
    var lines := TailLines(data);
    var start := |data| - |lines|;
    if |lines| <= budget {
      if lines != data {
        assert data[start - 1] == NEWLINE;
        AsciiEnds(data, start);
        CutTail(data, start);
      }
    } else {
      var cut := |data| - budget;
      CutTail(data, cut);
      assert lines[|lines| - budget..] == data[cut..];
    }
  }

  // With more lines than the two windows take, they leave something between.
  lemma LinesApart(data: seq<Byte>)
    requires |SplitAfter(data)| > HEAD_LINES + TAIL_LINES
    ensures |HeadLines(data)| + |TailLines(data)| < |data|
  {
    hide SplitAfter, Concat;
    SplitAfterParts(data);
    var pieces := SplitAfter(data);
    var n := |pieces| - TAIL_LINES;
    var first, mid, rest := pieces[..HEAD_LINES], pieces[HEAD_LINES..n], pieces[n..];
    assert first + mid + rest == pieces;
    ConcatAppend(first + mid, rest);
    ConcatAppend(first, mid);
    assert mid[|mid| - 1] == pieces[n - 1];
    EndsInNewline(mid);
  }

  // For every limit the policy can set and every valid text over it: the head is a
  // prefix and the tail a suffix, both valid, within the byte budget together, and
  // something lies between them.
  lemma WindowFits(data: seq<Byte>, limit: Limit)
    requires FromPolicy(limit) && Valid(data) && Exceeds(data, limit)
    ensures
      var (head, tail) := HeadTail(data, limit);
      && head <= data && Suffix(tail, data) && Valid(head) && Valid(tail)
      && |head| + |tail| <= limit.bytes
      && |head| + |tail| < |data|
  {
    hide RuneSize, ToValid, HeadLines, TailLines, Valid, SplitAfter, Newlines, CapHead, CapTail;
    HeadIsValid(data, HeadBudget(limit.bytes));
    TailIsValid(data, limit.bytes / 4);
    if |data| <= limit.bytes {
      SplitAfterParts(data);
      LinesApart(data);
    }
  }

  lemma {:induction false} FloorNear(s: seq<Byte>, m: nat)
    requires Valid(s) && m <= |s|
    ensures Floor(s, m) + 3 >= m
  {
    RuneFits(s);
    if s != [] && RuneSize(s) <= m {
      FloorNear(s[RuneSize(s)..], m - RuneSize(s));
    }
  }

  lemma {:induction false} CeilingNear(s: seq<Byte>, m: nat)
    requires Valid(s) && m <= |s|
    ensures Ceiling(s, m) <= m + 3
  {
    RuneFits(s);
    if m > 0 && RuneSize(s) < m {
      CeilingNear(s[RuneSize(s)..], m - RuneSize(s));
    }
  }

  // Each piece but the last holds one newline.
  lemma {:induction false} PieceNewlines(data: seq<Byte>, k: nat)
    requires k < |SplitAfter(data)|
    ensures Newlines(Concat(SplitAfter(data)[..k])) == k
  {
    if data != [] && k > 0 {
      var pieces, rest := SplitAfter(data), SplitAfter(data[1..]);
      if data[0] == NEWLINE {
        PieceNewlines(data[1..], k - 1);
        assert pieces[..k][0] == [NEWLINE] && pieces[..k][1..] == rest[..k - 1];
        NewlinesAppend([NEWLINE], Concat(rest[..k - 1]));
      } else {
        PieceNewlines(data[1..], k);
        assert pieces[..k][0] == [data[0]] + rest[0] && pieces[..k][1..] == rest[..k][1..];
        assert Concat(pieces[..k]) == [data[0]] + Concat(rest[..k]);
        NewlinesAppend([data[0]], Concat(rest[..k]));
      }
    }
  }

  lemma HeadNewlines(data: seq<Byte>)
    ensures Newlines(HeadLines(data)) <= 60
    ensures HeadLines(data) != data ==> Newlines(HeadLines(data)) == 60
  {
    hide SplitAfter, Concat;
    SplitAfterParts(data);
    HeadEnds(data);
    if |SplitAfter(data)| > HEAD_LINES {
      PieceNewlines(data, HEAD_LINES);
    }
  }

  lemma TailNewlines(data: seq<Byte>)
    ensures Newlines(TailLines(data)) <= 19
    ensures TailLines(data) != data ==> Newlines(TailLines(data)) == 19
  {
    hide SplitAfter, Concat;
    SplitAfterParts(data);
    var pieces := SplitAfter(data);
    if |pieces| <= TAIL_LINES {
      assert pieces[0..] == pieces;
    } else {
      var n := |pieces| - TAIL_LINES;
      assert pieces[..n] + pieces[n..] == pieces;
      ConcatAppend(pieces[..n], pieces[n..]);
      PieceNewlines(data, n);
      NewlinesAppend(Concat(pieces[..n]), Concat(pieces[n..]));
    }
  }

  lemma PrefixNewlines(whole: seq<Byte>, k: nat)
    requires k <= |whole|
    ensures Newlines(whole[..k]) <= Newlines(whole) && Newlines(whole[k..]) <= Newlines(whole)
  {
    assert whole == whole[..k] + whole[k..];
    NewlinesAppend(whole[..k], whole[k..]);
  }

  // The head is the first sixty lines, or as much of them as its budget holds but for
  // a character cut in two.
  lemma HeadIsFull(data: seq<Byte>, budget: nat)
    requires Valid(data)
    ensures
      var head := CapHead(HeadLines(data), budget);
      || head == data
      || (EndsLine(head) && Newlines(head) == 60)
      || (budget - 3 <= |head| <= budget && Newlines(head) <= 60)
  {
    hide RuneSize, ToValid, Floor, Valid, HeadLines, Newlines;
    HeadEnds(data);
    HeadNewlines(data);
    var lines, head := HeadLines(data), CapHead(HeadLines(data), budget);
    if |lines| > budget {
      CutHead(data, budget);
      FloorNear(data, budget);
      assert lines[..budget] == data[..budget];
      assert head == lines[..|head|];
      PrefixNewlines(lines, |head|);
    }
  }

  lemma TailCapped(data: seq<Byte>, lines: seq<Byte>, budget: nat)
    requires Valid(data) && Suffix(lines, data) && budget < |lines|
    ensures
      var tail := CapTail(lines, budget);
      budget - 3 <= |tail| <= budget && tail == lines[|lines| - |tail|..]
  {
    hide RuneSize, ToValid, Ceiling, Valid;
    var cut := |data| - budget;
    CutTail(data, cut);
    CeilingNear(data, cut);
    assert lines[|lines| - budget..] == data[cut..];
    var tail := CapTail(lines, budget);
    assert tail == data[|data| - |tail|..];
  }

  // The tail is what follows the last twenty places where a line begins, or as much of
  // its end as its budget holds but for a character cut in two.
  predicate IsTail(tail: seq<Byte>, data: seq<Byte>, budget: nat) {
    || tail == data
    || (|tail| <= |data| && EndsLine(data[..|data| - |tail|]) && Newlines(tail) == 19)
    || (budget - 3 <= |tail| <= budget && Newlines(tail) <= 19)
  }

  lemma CappedIsTail(data: seq<Byte>, lines: seq<Byte>, budget: nat)
    requires Valid(data) && Suffix(lines, data) && budget < |lines| && Newlines(lines) <= 19
    ensures IsTail(CapTail(lines, budget), data, budget)
  {
    hide ToValid, Valid, Newlines, EndsLine, CapTail, Suffix;
    TailCapped(data, lines, budget);
    PrefixNewlines(lines, |lines| - |CapTail(lines, budget)|);
  }

  lemma TailIsFull(data: seq<Byte>, budget: nat)
    requires Valid(data)
    ensures IsTail(CapTail(TailLines(data), budget), data, budget)
  {
    hide Valid, TailLines, Newlines, CapTail;
    TailEnds(data);
    TailNewlines(data);
    if |TailLines(data)| > budget {
      hide IsTail, Suffix, EndsLine;
      CappedIsTail(data, TailLines(data), budget);
    } else {
      TailUncapped(TailLines(data), budget);
    }
  }

  lemma TailUncapped(lines: seq<Byte>, budget: nat)
    requires |lines| <= budget
    ensures CapTail(lines, budget) == lines
  {
  }

  // The window wastes nothing: the head is the first sixty lines or fills three
  // quarters of the byte budget, the tail begins twenty lines before the end or fills
  // a quarter, each but for a character cut in two.
  lemma WindowIsFull(data: seq<Byte>, limit: Limit)
    requires FromPolicy(limit) && Valid(data) && Exceeds(data, limit)
    ensures
      var (head, tail) := HeadTail(data, limit);
      && ((EndsLine(head) && Newlines(head) == 60) || |head| + 3 >= HeadBudget(limit.bytes))
      && ((|tail| < |data| && EndsLine(data[..|data| - |tail|]) && Newlines(tail) == 19)
          || |tail| + 3 >= limit.bytes / 4)
  {
    hide RuneSize, ToValid, HeadLines, TailLines, Valid, SplitAfter, Newlines, CapHead, CapTail, Exceeds;
    WindowFits(data, limit);
    HeadIsFull(data, HeadBudget(limit.bytes));
    TailIsFull(data, limit.bytes / 4);
  }

  // Output is emitted whole exactly when it is within the byte budget and, by default,
  // has at most four hundred lines, a last one without a newline included.
  lemma WholeIff(data: seq<Byte>, limit: Limit)
    requires FromPolicy(limit)
    ensures
      var lines := Newlines(data) + if data == [] || data[|data| - 1] == 10 then 0 else 1;
      && CountLines(data) == lines
      && (Emitted(data, limit).Whole? <==> |data| <= limit.bytes && (limit.lines == 0 || lines <= 400))
  {
    hide HeadTail;
  }

  /* The counts in the marker. */

  function OmittedBytes(data: seq<Byte>, head: seq<Byte>, tail: seq<Byte>): int {
    |data| - |head| - |tail|
  }

  function OmittedLines(data: seq<Byte>, head: seq<Byte>, tail: seq<Byte>): int {
    CountLines(data) - CountLines(head) - CountLines(tail)
  }

  // The byte count is positive before it is clamped. The line count falls to -1,
  // and no further, exactly when a single line spans everything cut out and ends
  // in both the head and the tail.
  lemma MarkerCounts(data: seq<Byte>, limit: Limit)
    requires FromPolicy(limit) && Valid(data) && Exceeds(data, limit)
    ensures
      var (head, tail) := HeadTail(data, limit);
      && |head| + |tail| < |data|
      && var between := data[|head|..|data| - |tail|];
         && OmittedBytes(data, head, tail) == |between| > 0
         && OmittedLines(data, head, tail) >= -1
         && (OmittedLines(data, head, tail) == -1 <==> OpenEnded(head) && tail != [] && Newlines(between) == 0)
  {
    hide RuneSize, ToValid, HeadLines, TailLines, Valid, HeadTail, Exceeds;
    WindowFits(data, limit);
    var (head, tail) := HeadTail(data, limit);
    var between := data[|head|..|data| - |tail|];
    assert data == head + between + tail;
    NewlinesAppend(head + between, tail);
    NewlinesAppend(head, between);
    if tail != [] {
      assert OpenEnded(data) <==> OpenEnded(tail);
    } else {
      if !OpenEnded(between) {
        LastNewline(between);
      }
      assert OpenEnded(data) <==> OpenEnded(between);
    }
  }

  lemma LastNewline(s: seq<Byte>)
    requires s != [] && !OpenEnded(s)
    ensures Newlines(s) > 0
  {
    var n := |s| - 1;
    assert s == s[..n] + [s[n]];
    NewlinesAppend(s[..n], [s[n]]);
  }

  /* The buffer. */

  datatype Emission = Whole(data: seq<Byte>)
    | Window(head: seq<Byte>, omittedBytes: int, omittedLines: int, tail: seq<Byte>)

  function AtLeastZero(n: int): nat {
    if n < 0 then 0 else n
  }

  function Emitted(data: seq<Byte>, limit: Limit): Emission
    requires FromPolicy(limit)
  {
    if data == [] || !Exceeds(data, limit) then Whole(data)
    else
      var (head, tail) := HeadTail(data, limit);
      Window(head, AtLeastZero(OmittedBytes(data, head, tail)), AtLeastZero(OmittedLines(data, head, tail)), tail)
  }

  // What is emitted of a text over the limit: its beginning, its end, and how much of
  // it lies between.
  lemma WindowEmitted(data: seq<Byte>, limit: Limit)
    requires FromPolicy(limit) && Valid(data) && Exceeds(data, limit)
    ensures
      var out := Emitted(data, limit);
      && out.Window? && out.head <= data && Suffix(out.tail, data)
      && out.omittedBytes == |data| - |out.head| - |out.tail| > 0
      && var between := CountLines(data) - CountLines(out.head) - CountLines(out.tail);
         out.omittedLines == if between < 0 then 0 else between
  {
    hide HeadTail, Valid, CountLines;
    WindowFits(data, limit);
    assert data != [];
  }

  class BoundedOutput {
    const limit: Limit
    var buffer: seq<Byte>
    var flushed: bool
    var written: seq<Emission>

    constructor (limit: Limit)
      ensures this.limit == limit && buffer == [] && !flushed && written == []
    {
      this.limit := limit;
      buffer, flushed, written := [], false, [];
    }

    method Write(data: seq<Byte>)
      modifies this`buffer
      ensures buffer == old(buffer) + data
    {
      buffer := buffer + data;
    }

    // Emits the buffered output once, however often it is called.
    method Flush()
      requires FromPolicy(limit)
      modifies this`flushed, this`written
      ensures flushed
      ensures written == if old(flushed) then old(written) else old(written) + [Emitted(buffer, limit)]
    {
      if flushed {
        return;
      }
      flushed := true;
      if |buffer| == 0 || !Exceeds(buffer, limit) {
        written := written + [Whole(buffer)];
        return;
      }
      var (head, tail) := HeadTail(buffer, limit);
      var omittedBytes, omittedLines := OmittedBytes(buffer, head, tail), OmittedLines(buffer, head, tail);
      if omittedBytes < 0 {
        omittedBytes := 0;
      }
      if omittedLines < 0 {
        omittedLines := 0;
      }
      written := written + [Window(head, omittedBytes, omittedLines, tail)];
    }
  }
}
