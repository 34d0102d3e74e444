/**
 * `offset` in urls.rs: the "next/previous page" transformer. It finds one
 * i32 token in a URL (a query value first, else a path segment), adds a
 * signed delta to it and rebuilds the URL.
 */
module Offset {
  import opened Wrappers
  import opened Decimal
  import opened UrlParts

  /** `trim_end_matches('?')`: drops every trailing `?`. */
  function TrimTrailingQuestionMarks(s: string): (r: string)
    ensures |r| <= |s| && r == s[..|r|]
    ensures |r| == 0 || r[|r| - 1] != '?'
    ensures forall i :: |r| <= i < |s| ==> s[i] == '?'
    decreases |s|
  {
    if |s| > 0 && s[|s| - 1] == '?' then TrimTrailingQuestionMarks(s[..|s| - 1]) else s
  }

  /** A token the source changes: its whole text parses as i32. */
  predicate IsNumeric(s: string) {
    ParseInt32(s).Some?
  }

  /** The index of the leftmost numeric string, if any. */
  function FirstNumeric(xs: seq<string>): (r: Option<nat>)
    ensures r.Some? ==> r.value < |xs| && IsNumeric(xs[r.value])
    ensures r.Some? ==> forall j :: 0 <= j < r.value ==> !IsNumeric(xs[j])
    ensures r.None? ==> forall j :: 0 <= j < |xs| ==> !IsNumeric(xs[j])
    decreases |xs|
  {
    if |xs| == 0 then None
    else if IsNumeric(xs[0]) then Some(0)
    else match FirstNumeric(xs[1..])
      case Some(i) => Some(i + 1)
      case None => None
  }

  /** The index of the rightmost numeric string, if any. */
  function LastNumeric(xs: seq<string>): (r: Option<nat>)
    ensures r.Some? ==> r.value < |xs| && IsNumeric(xs[r.value])
    ensures r.Some? ==> forall j :: r.value < j < |xs| ==> !IsNumeric(xs[j])
    ensures r.None? ==> forall j :: 0 <= j < |xs| ==> !IsNumeric(xs[j])
    decreases |xs|
  {
    if |xs| == 0 then None
    else if IsNumeric(xs[|xs| - 1]) then Some(|xs| - 1)
    else LastNumeric(xs[..|xs| - 1])
  }

  /** `(number + inc_offset).to_string()` for a numeric token. */
  function Stepped(s: string, delta: int): (r: string)
    requires IsNumeric(s)
    ensures |r| > 0 && (r[0] == '-' <==> ParseInt32(s).value + delta < 0)
  {
    FormatInt(ParseInt32(s).value + delta)
  }

  /** The order the code has: the leftmost numeric string is stepped. */
  function ReplaceFirstNumeric(xs: seq<string>, delta: int): (r: seq<string>)
    ensures |r| == |xs|
    ensures FirstNumeric(xs).None? ==> r == xs
  {
    match FirstNumeric(xs)
    case None => xs
    case Some(i) => xs[i := Stepped(xs[i], delta)]
  }

  /** The order the comment at urls.rs:126 describes: the rightmost one. */
  function ReplaceLastNumeric(xs: seq<string>, delta: int): (r: seq<string>)
    ensures |r| == |xs|
  {
    match LastNumeric(xs)
    case None => xs
    case Some(i) => xs[i := Stepped(xs[i], delta)]
  }

  /** The stepped token stays an i32 (the source panics or wraps otherwise). */
  predicate FirstFits(xs: seq<string>, delta: int) {
    match FirstNumeric(xs)
    case None => true
    case Some(i) => InInt32(ParseInt32(xs[i]).value + delta)
  }

  function Values(pairs: seq<Pair>): (vs: seq<string>)
    ensures |vs| == |pairs| && forall j :: 0 <= j < |pairs| ==> vs[j] == pairs[j].value
  {
    seq(|pairs|, j requires 0 <= j < |pairs| => pairs[j].value)
  }

  /** The pairs after the query rewrite: keys kept, first numeric value stepped. */
  function OffsetPairs(pairs: seq<Pair>, delta: int): (r: seq<Pair>)
    ensures |r| == |pairs|
  {
    var vs := ReplaceFirstNumeric(Values(pairs), delta);
    seq(|pairs|, j requires 0 <= j < |pairs| => Pair(pairs[j].key, vs[j]))
  }

  /** `lhs + "=" + rhs`. */
  function Render(p: Pair): string {
    p.key + "=" + p.value
  }

  /** The rendered pairs joined by `&`. */
  function EncodePairs(pairs: seq<Pair>): string
    decreases |pairs|
  {
    if |pairs| == 0 then ""
    else if |pairs| == 1 then Render(pairs[0])
    else EncodePairs(pairs[..|pairs| - 1]) + "&" + Render(pairs[|pairs| - 1])
  }

  /** The rendered pairs, each after an `&`. */
  function AmpTail(pairs: seq<Pair>): string
    decreases |pairs|
  {
    if |pairs| == 0 then ""
    else AmpTail(pairs[..|pairs| - 1]) + "&" + Render(pairs[|pairs| - 1])
  }

  predicate PathFits(p: Path, delta: int) {
    p.Segments? ==> FirstFits(p.segments, delta)
  }

  /** The addition the source performs on `u` stays in the i32 range. */
  predicate OffsetFits(u: Url, delta: int) {
    match u.query
    case Some(q) =>
      if FirstNumeric(Values(q.pairs)).Some? then FirstFits(Values(q.pairs), delta)
      else PathFits(u.path, delta)
    case None => PathFits(u.path, delta)
  }

  /** The rebuilt path when a segment is numeric. */
  function PathOffset(p: Path, delta: int): Option<string> {
    if p.Segments? && FirstNumeric(p.segments).Some? then
      Some(PathText(ReplaceFirstNumeric(p.segments, delta)))
    else None
  }

  /**
   * What `offset` returns for a parsed URL, written without recursion:
   * a numeric query value wins; otherwise a numeric path segment, with the
   * raw query put back; the fragment is never put back.
   */
  function OffsetOf(u: Url, delta: int): (r: Option<string>)
    ensures r.Some? ==> |r.value| >= |u.prefix| && r.value[..|u.prefix|] == u.prefix
  {
    match u.query
    case Some(q) =>
      if FirstNumeric(Values(q.pairs)).Some? then
        Some(BeforeQuery(u) + EncodePairs(OffsetPairs(q.pairs, delta)))
      else
        (match PathOffset(u.path, delta)
         case Some(path) => Some(u.prefix + path + "?" + q.raw)
         case None => None)
    case None =>
      match PathOffset(u.path, delta)
      case Some(path) => Some(u.prefix + path)
      case None => None
  }

  /** What `offset` returns for a string. */
  function OffsetString(parse: Parser, url: string, delta: int): (r: Option<string>)
    ensures parse(TrimTrailingQuestionMarks(url)).None? ==> r.None?
    ensures r.Some? ==> var u := parse(TrimTrailingQuestionMarks(url)).value;
                        |r.value| >= |u.prefix| && r.value[..|u.prefix|] == u.prefix
  {
    match parse(TrimTrailingQuestionMarks(url))
    case None => None
    case Some(u) => OffsetOf(u, delta)
  }

  /** The precondition of `offset`: no i32 overflow in the addition. */
  predicate OffsetStringFits(parse: Parser, url: string, delta: int) {
    match parse(TrimTrailingQuestionMarks(url))
    case None => true
    case Some(u) => OffsetFits(u, delta)
  }

  /** Pair `i` after the rewrite: stepped if it is the first numeric one, else as it was. */
  lemma OffsetPairsAt(pairs: seq<Pair>, delta: int, i: nat)
    requires i < |pairs|
    ensures OffsetPairs(pairs, delta)[i] ==
      if FirstNumeric(Values(pairs)) == Some(i) then Pair(pairs[i].key, Stepped(pairs[i].value, delta))
      else pairs[i]
  {
  }

  /** Segment `i` after the rewrite: stepped if it is the first numeric one, else as it was. */
  lemma SegmentAt(segments: seq<string>, delta: int, i: nat)
    requires i < |segments|
    ensures ReplaceFirstNumeric(segments, delta)[i] ==
      if FirstNumeric(segments) == Some(i) then Stepped(segments[i], delta) else segments[i]
  {
  }

  /** What the closure meets at pair `i`, given whether an earlier value was stepped. */
  lemma QueryStep(pairs: seq<Pair>, delta: int, i: nat, updated: bool)
    requires i < |pairs| && FirstFits(Values(pairs), delta)
    requires updated <==> FirstNumeric(Values(pairs)).Some? && FirstNumeric(Values(pairs)).value < i
    ensures var p := pairs[i];
      if updated || !IsNumeric(p.value) then
        Render(OffsetPairs(pairs, delta)[i]) == p.key + "=" + p.value &&
        (updated <==> FirstNumeric(Values(pairs)).Some? && FirstNumeric(Values(pairs)).value < i + 1)
      else
        InInt32(ParseInt32(p.value).value + delta) &&
        Render(OffsetPairs(pairs, delta)[i]) == p.key + "=" + FormatInt(ParseInt32(p.value).value + delta) &&
        FirstNumeric(Values(pairs)) == Some(i)
  {
    OffsetPairsAt(pairs, delta, i);
  }

  /** One more pair in the fold. */
  lemma EncodePairsSnoc(pairs: seq<Pair>, i: nat)
    requires i < |pairs|
    ensures EncodePairs(pairs[..i + 1]) ==
      if i == 0 then Render(pairs[0]) else EncodePairs(pairs[..i]) + "&" + Render(pairs[i])
  {
    assert pairs[..i + 1][..i] == pairs[..i];
  }

  /** The fold's accumulator after pair `i` is added. */
  lemma FoldStep(pairs: seq<Pair>, i: nat, acc: string, item: string)
    requires i < |pairs| && acc == EncodePairs(pairs[..i]) && (acc == "" <==> i == 0)
    requires item == Render(pairs[i])
    ensures var next := if acc == "" then acc + item else acc + "&" + item;
      next == EncodePairs(pairs[..i + 1]) && next != ""
  {
    EncodePairsSnoc(pairs, i);
  }

  /** One more segment in the path. */
  lemma PathTextSnoc(segments: seq<string>, i: nat)
    requires i < |segments|
    ensures PathText(segments[..i + 1]) == PathText(segments[..i]) + "/" + segments[i]
  {
    assert segments[..i + 1][..i] == segments[..i];
  }

  /**
   * The query closure and fold (urls.rs:89-113): a flag marks the first
   * value that parses; the items are joined with `&` unless the
   * accumulator is still empty.
   */
  method RewriteQuery(pairs: seq<Pair>, delta: Int32) returns (next: string, updated: bool)
    requires FirstFits(Values(pairs), delta)
    ensures updated <==> FirstNumeric(Values(pairs)).Some?
    ensures next == EncodePairs(OffsetPairs(pairs, delta))
  {
    ghost var out := OffsetPairs(pairs, delta);
    ghost var first := FirstNumeric(Values(pairs));
    next, updated := "", false;
    var i := 0;
    while i < |pairs|
      invariant 0 <= i <= |pairs|
      invariant updated <==> first.Some? && first.value < i
      invariant next == EncodePairs(out[..i])
      invariant next == "" <==> i == 0
    {
      QueryStep(pairs, delta, i, updated);
      var lhs, rhs := pairs[i].key, pairs[i].value;
      var item;
      if updated {
        item := lhs + "=" + rhs;
        assert item == Render(out[i]);
      } else {
        var number := ParseInt32(rhs);
        if number.Some? {
          assert first == Some(i);
          updated := true;
          var sum: Int32 := number.value + delta;
          item := lhs + "=" + FormatInt(sum);
          assert item == Render(out[i]);
        } else {
          assert !IsNumeric(pairs[i].value);
          item := lhs + "=" + rhs;
          assert item == Render(out[i]);
        }
      }
      assert updated <==> first.Some? && first.value < i + 1;
      FoldStep(out, i, next, item);
      if next == "" {
        next := next + item;
      } else {
        next := next + "&" + item;
      }
      i := i + 1;
    }
    assert out[..i] == out;
  }

  /**
   * The path closure (urls.rs:125-138). The two `rev()`s cancel before
   * `collect`, so the closure meets the segments left to right.
   */
  method RewritePath(segments: seq<string>, delta: Int32) returns (next: string, updated: bool)
    requires FirstFits(segments, delta)
    ensures updated <==> FirstNumeric(segments).Some?
    ensures next == PathText(ReplaceFirstNumeric(segments, delta))
  {
    ghost var out := ReplaceFirstNumeric(segments, delta);
    ghost var first := FirstNumeric(segments);
    next, updated := "", false;
    var i := 0;
    while i < |segments|
      invariant 0 <= i <= |segments|
      invariant updated <==> first.Some? && first.value < i
      invariant next == PathText(out[..i])
    {
      var piece := segments[i];
      if !updated {
        var number := ParseInt32(segments[i]);
        if number.Some? {
          updated := true;
          var sum: Int32 := number.value + delta;
          piece := FormatInt(sum);
        }
      }
      SegmentAt(segments, delta, i);
      PathTextSnoc(out, i);
      next := next + "/" + piece;
      i := i + 1;
    }
    assert out[..i] == out;
  }

  /**
   * `offset` after parsing (urls.rs:89-146). When no query value is
   * numeric it calls itself once on the same URL without its query.
   */
  method OffsetUrl(u: Url, delta: Int32) returns (r: Option<string>)
    requires OffsetFits(u, delta)
    ensures r == OffsetOf(u, delta)
    decreases if u.query.Some? then 1 else 0
  {
    match u.query {
      case Some(q) =>
        var next, updated := RewriteQuery(q.pairs, delta);
        if updated {
          return Some(BeforeQuery(u) + next);
        }
        var page := OffsetUrl(WithoutQuery(u), delta);
        if page.Some? {
          return Some(page.value + "?" + q.raw);
        }
      case None =>
        if u.path.Segments? {
          var next, updated := RewritePath(u.path.segments, delta);
          if updated {
            return Some(u.prefix + next);
          }
        }
    }
    return None;
  }

  /** `offset` (urls.rs:80-150). A parse failure is `None`, never an error. */
  method Offset(parse: Parser, url: string, delta: Int32) returns (r: Option<string>)
    requires OffsetStringFits(parse, url, delta)
    ensures r == OffsetString(parse, url, delta)
    ensures parse(TrimTrailingQuestionMarks(url)).None? ==> r.None?
  {
    var trimmed := if |url| > 0 && url[|url| - 1] == '?' then TrimTrailingQuestionMarks(url) else url;
    match parse(trimmed) {
      case None => r := None;
      case Some(u) => r := OffsetUrl(u, delta);
    }
  }
}
