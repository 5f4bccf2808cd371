/**
 Store options as one comma-separated line of key=value pairs, and the parser
 that lays such a line over the options already there.
 */
module StoreOptions {
  import opened Ordering
  import opened Tickets
  import opened Text

  type Options = map<string, string>

  function Pair(key: string, value: string): string {
    key + ['='] + value
  }

  function Pairs(order: seq<string>, options: Options): seq<string>
    requires forall key :: key in order ==> key in options
  {
    seq(|order|, i requires 0 <= i < |order| => assert order[i] in order; Pair(order[i], options[order[i]]))
  }

  ghost function Formatted(options: Options): string {
    AscendingOf(options.Keys);
    Join(Pairs(Ascending(options.Keys), options), ',')
  }

  // One pair laid over the options; anything without a key and a value is skipped.
  function Overlay(options: Options, pair: string): Options {
    match Cut(Trim(pair), '=')
    case None => options
    case Some((key, value)) => options[Trim(key) := Trim(value)]
  }

  function OverlayAll(options: Options, pairs: seq<string>): Options {
    if pairs == [] then options
    else Overlay(OverlayAll(options, pairs[..|pairs| - 1]), pairs[|pairs| - 1])
  }

  function Parsed(options: Options, raw: string): Options {
    if raw == [] then options else OverlayAll(options, Split(raw, ','))
  }

  // Sorting the keys makes the line the same however the map lists them.
  method FormatStoreOptions(options: Options) returns (line: string)
    ensures line == Formatted(options)
  {
    AscendingOf(options.Keys);
    if options == map[] {
      assert Ascending({}) == [];
      return "";
    }
    var keys := SortedKeys(options.Keys);
    var pairs: seq<string> := [];
    for i := 0 to |keys|
      invariant pairs == Pairs(keys, options)[..i]
    {
      assert keys[i] in keys;
      pairs := pairs + [keys[i] + "=" + options[keys[i]]];
    }
    assert pairs == Pairs(keys, options);
    line := Join(pairs, ',');
  }

  class Store {
    var options: Options

    method Apply(raw: string)
      modifies this
      ensures options == Parsed(old(options), raw)
    {
      if raw == "" {
        return;
      }
      var pairs := Split(raw, ',');
      for i := 0 to |pairs|
        invariant options == OverlayAll(old(options), pairs[..i])
      {
        assert pairs[..i + 1][..i] == pairs[..i];
        var pair := Trim(pairs[i]);
        if pair == "" {
          continue;
        }
        match Cut(pair, '=')
        case None =>
        case Some((key, value)) =>
          options := options[Trim(key) := Trim(value)];
      }
      assert pairs[..|pairs|] == pairs;
    }
  }

  lemma OverlayPadded(options: Options, before: string, k: string, v: string, after: string)
    requires '=' !in k && AllSpace(before) && AllSpace(after)
    requires (k != [] ==> !IsSpace(k[0])) && (v != [] ==> !IsSpace(v[|v| - 1]))
    ensures Overlay(options, before + (k + ['='] + v) + after) == options[Trim(k) := Trim(v)]
  {
    hide Trim, Cut;
    var core := k + ['='] + v;
    assert core[0] == (if k == [] then '=' else k[0]);
    assert core[|core| - 1] == (if v == [] then '=' else v[|v| - 1]);
    TrimPadding(before, core, after);
    CutFirst(k, v, '=');
  }

  // White space behind a key, or before a value, is taken off.
  lemma PartTrimmed(left: string, part: string, right: string)
    requires Trimmed(part) && part != [] && AllSpace(left) && AllSpace(right)
    ensures Trim(part + right) == part && Trim(left + part) == part && Trim([]) == []
  {
    TrimPadding([], part, right);
    TrimPadding(left, part, []);
    assert [] + part + right == part + right && left + part + [] == left + part;
  }

  // A pair sets the key before its first equals sign to what follows, white space
  // around both taken off; one without an equals sign is skipped.
  lemma OverlaySets(options: Options, key: string, value: string,
                    before: string, left: string, right: string, after: string)
    requires Trimmed(key) && Trimmed(value) && '=' !in key && key != [] && value != []
    requires AllSpace(before) && AllSpace(left) && AllSpace(right) && AllSpace(after)
    ensures Overlay(options, before + (key + left + ['='] + (right + value)) + after) == options[key := value]
  {
    hide Trim, Overlay;
    PartTrimmed(right, key, left);
    PartTrimmed(right, value, left);
    assert '=' !in key + left;
    OverlayPadded(options, before, key + left, right + value, after);
  }

  lemma WithoutEqualsSkipped(options: Options, pair: string)
    requires '=' !in pair
    ensures Overlay(options, pair) == options
  {
    var before, after := TrimParts(pair);
    CutNone(Trim(pair), '=');
  }

  // Keys and values survive the line: no white space around them, no comma, and
  // no equals sign in a key.
  predicate CleanEntry(key: string, value: string) {
    Trimmed(key) && Trimmed(value) && ',' !in key && ',' !in value && '=' !in key
  }

  predicate Clean(options: Options) {
    forall key :: key in options ==> CleanEntry(key, options[key])
  }

  lemma CleanPairOverlays(options: Options, key: string, value: string)
    requires CleanEntry(key, value)
    ensures Overlay(options, Pair(key, value)) == options[key := value]
    ensures ',' !in Pair(key, value)
  {
    var pair := Pair(key, value);
    assert pair[0] == if key == [] then '=' else key[0];
    assert pair[|pair| - 1] == if value == [] then '=' else value[|value| - 1];
    TrimmedStays(pair);
    CutFirst(key, value, '=');
    TrimmedStays(key);
    TrimmedStays(value);
  }

  function Restricted(options: Options, order: seq<string>): Options
    requires forall key :: key in order ==> key in options
  {
    map key | key in order :: options[key]
  }

  lemma RestrictedStep(existing: Options, order: seq<string>, options: Options)
    requires order != [] && forall key :: key in order ==> key in options
    ensures
      var n := |order| - 1;
      existing + Restricted(options, order) ==
      (existing + Restricted(options, order[..n]))[order[n] := (assert order[n] in order; options[order[n]])]
  {
    var n := |order| - 1;
    assert order == order[..n] + [order[n]];
  }

  lemma {:induction false} CleanPairsOverlay(existing: Options, order: seq<string>, options: Options)
    requires Clean(options) && forall key :: key in order ==> key in options
    ensures Free(Pairs(order, options), ',')
    ensures OverlayAll(existing, Pairs(order, options)) == existing + Restricted(options, order)
  {
    hide Overlay, Pair, CleanEntry, Restricted;
    var pairs := Pairs(order, options);
    if order != [] {
      var n := |order| - 1;
      var last := order[n];
      assert last in order;
      CleanPairsOverlay(existing, order[..n], options);
      assert pairs == Pairs(order[..n], options) + [Pair(last, options[last])];
      assert pairs[..n] == Pairs(order[..n], options);
      CleanPairOverlays(existing + Restricted(options, order[..n]), last, options[last]);
      RestrictedStep(existing, order, options);
    } else {
      RestrictedNone(existing, options);
    }
  }

  lemma RestrictedNone(existing: Options, options: Options)
    ensures existing + Restricted(options, []) == existing
  {
  }

  // Parsing the formatted options over any others is right-biased override.
  lemma FormatThenParse(existing: Options, options: Options)
    requires Clean(options)
    ensures Parsed(existing, Formatted(options)) == existing + options
  {
    AscendingOf(options.Keys);
    var order := Ascending(options.Keys);
    var pairs := Pairs(order, options);
    CleanPairsOverlay(existing, order, options);
    assert Restricted(options, order) == options;
    if options == map[] {
      assert order == [];
    } else {
      var key :| key in options;
      assert key in order;
      FormattedIsNotEmpty(order, options);
      SplitJoin(pairs, ',');
    }
  }

  lemma FormattedIsNotEmpty(order: seq<string>, options: Options)
    requires order != [] && forall key :: key in order ==> key in options
    ensures Join(Pairs(order, options), ',') != []
  {
    assert order[0] in order;
    assert Pairs(order, options)[0] == Pair(order[0], options[order[0]]);
  }

  lemma {:induction false} OverlayStaysClean(options: Options, pairs: seq<string>)
    requires Clean(options) && Free(pairs, ',')
    ensures Clean(OverlayAll(options, pairs))
  {
    if pairs != [] {
      var n := |pairs| - 1;
      OverlayStaysClean(options, pairs[..n]);
      OverlayIsClean(pairs[n]);
    }
  }

  lemma {:induction false} TrimMembers(s: string, c: char)
    requires c !in s
    ensures c !in Trim(s)
  {
    TrimLeftMembers(s, c);
    TrimRightMembers(TrimLeft(s), c);
  }

  lemma {:induction false} TrimLeftMembers(s: string, c: char)
    requires c !in s
    ensures c !in TrimLeft(s)
  {
    if s != [] && IsSpace(s[0]) {
      TrimLeftMembers(s[1..], c);
    }
  }

  lemma {:induction false} TrimRightMembers(s: string, c: char)
    requires c !in s
    ensures c !in TrimRight(s)
  {
    if s != [] && IsSpace(s[|s| - 1]) {
      TrimRightMembers(s[..|s| - 1], c);
    }
  }

  lemma OverlayIsClean(pair: string)
    requires ',' !in pair
    ensures
      match Cut(Trim(pair), '=')
      case None => true
      case Some((key, value)) => CleanEntry(Trim(key), Trim(value))
  {
    TrimMembers(pair, ',');
    CutSome(Trim(pair), '=');
    match Cut(Trim(pair), '=')
    case None =>
    case Some((key, value)) =>
      TrimMembers(key, ',');
      TrimMembers(value, ',');
      TrimMembers(key, '=');
      TrimIsTrimmed(key);
      TrimIsTrimmed(value);
  }

  // The line carries the options faithfully exactly when every entry is clean.
  lemma RoundTripIffClean(options: Options)
    ensures Parsed(map[], Formatted(options)) == options <==> Clean(options)
  {
    if Clean(options) {
      FormatThenParse(map[], options);
      assert map[] + options == options;
    } else {
      var raw := Formatted(options);
      SplitIsFree(raw, ',');
      OverlayStaysClean(map[], Split(raw, ','));
    }
  }
}
