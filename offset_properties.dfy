/** What `offset` promises, proved of the specification in module Offset. */
module OffsetProperties {
  import opened Wrappers
  import opened Decimal
  import opened UrlParts
  import opened Offset

  /** At most one token changes, and only the leftmost numeric one. */
  lemma {:induction false} ReplaceFirstChangesOnlyFirst(xs: seq<string>, delta: int)
    ensures forall j :: 0 <= j < |xs| && ReplaceFirstNumeric(xs, delta)[j] != xs[j] ==>
              FirstNumeric(xs) == Some(j)
  {
  }

  /** The changed token reads back as its old value plus the delta. */
  lemma {:induction false} ReplaceFirstSteps(xs: seq<string>, delta: int, i: nat)
    requires FirstNumeric(xs) == Some(i)
    requires InInt32(ParseInt32(xs[i]).value + delta)
    ensures var ys := ReplaceFirstNumeric(xs, delta);
      ys == xs[i := FormatInt(ParseInt32(xs[i]).value + delta)] &&
      ParseInt32(ys[i]) == Some(ParseInt32(xs[i]).value + delta) &&
      FirstNumeric(ys) == Some(i)
  {
    var ys := ReplaceFirstNumeric(xs, delta);
    ParseFormatRoundTrip(ParseInt32(xs[i]).value + delta);
    FirstNumericAt(ys, i);
  }


  /**
   * A delta of zero keeps every value: each token parses as before, and a
   * canonically written token is left exactly as it was.
   */
  lemma {:induction false} ReplaceFirstZeroDelta(xs: seq<string>)
    ensures forall j :: 0 <= j < |xs| ==> ParseInt32(ReplaceFirstNumeric(xs, 0)[j]) == ParseInt32(xs[j])
    ensures (match FirstNumeric(xs) case None => true case Some(i) => IsCanonical(xs[i])) ==>
              ReplaceFirstNumeric(xs, 0) == xs
  {
    match FirstNumeric(xs) {
      case None =>
      case Some(i) =>
        ParseFormatRoundTrip(ParseInt32(xs[i]).value);
        FormatParseCanonical(xs[i]);
    }
  }

  /** Stepping by `d1` and then by `d2` is stepping by `d1 + d2`. */
  lemma {:induction false} ReplaceFirstCompose(xs: seq<string>, d1: int, d2: int)
    requires FirstFits(xs, d1)
    ensures ReplaceFirstNumeric(ReplaceFirstNumeric(xs, d1), d2) == ReplaceFirstNumeric(xs, d1 + d2)
  {
    match FirstNumeric(xs) {
      case None =>
      case Some(i) =>
        var v := ParseInt32(xs[i]).value;
        var ys := ReplaceFirstNumeric(xs, d1);
        ReplaceFirstSteps(xs, d1, i);
        var w := FormatInt(v + (d1 + d2));
        assert Stepped(ys[i], d2) == w;
        assert ReplaceFirstNumeric(ys, d2) == ys[i := w];
        assert Stepped(xs[i], d1 + d2) == w;
        assert ReplaceFirstNumeric(xs, d1 + d2) == xs[i := w];
        assert ys[i := w] == xs[i := w];
    }
  }

  /** The first numeric index is the one before which nothing is numeric. */
  lemma {:induction false} FirstNumericAt(xs: seq<string>, i: nat)
    requires i < |xs| && IsNumeric(xs[i])
    requires forall j :: 0 <= j < i ==> !IsNumeric(xs[j])
    ensures FirstNumeric(xs) == Some(i)
  {
  }


  /**
   * With exactly one numeric segment, the leftmost and the rightmost
   * readings agree: that segment, and only it, is stepped.
   */
  lemma {:induction false} SingleNumericEitherOrder(xs: seq<string>, i: nat, delta: int)
    requires i < |xs| && IsNumeric(xs[i])
    requires forall j :: 0 <= j < |xs| && j != i ==> !IsNumeric(xs[j])
    ensures ReplaceFirstNumeric(xs, delta) == xs[i := Stepped(xs[i], delta)]
    ensures ReplaceLastNumeric(xs, delta) == xs[i := Stepped(xs[i], delta)]
  {
    assert FirstNumeric(xs) == Some(i);
    assert LastNumeric(xs) == Some(i);
  }

  /** With two numeric segments the code steps the left one, not the right one. */
  lemma {:induction false} PathOrderExample()
    ensures ReplaceFirstNumeric(["page", "2", "3"], 1) == ["page", "3", "3"]
    ensures ReplaceLastNumeric(["page", "2", "3"], 1) == ["page", "2", "4"]
  {
    assert !IsDigit('p');
    assert !IsNumeric("page");
    assert "2"[..0] == [] && "3"[..0] == [];
    assert ParseInt32("2") == Some(2) && ParseInt32("3") == Some(3);
    assert FirstNumeric(["page", "2", "3"]) == Some(1) by {
      assert ["page", "2", "3"][1..] == ["2", "3"];
    }
    assert LastNumeric(["page", "2", "3"]) == Some(2);
    assert FormatInt(3) == "3" && FormatInt(4) == "4";
  }

  lemma {:induction false} EncodePairsAppend(a: seq<Pair>, b: seq<Pair>)
    requires |a| > 0
    ensures EncodePairs(a + b) == EncodePairs(a) + AmpTail(b)
    decreases |b|
  {
    if |b| > 0 {
      var b' := b[..|b| - 1];
      assert (a + b)[..|a + b| - 1] == a + b';
      EncodePairsAppend(a, b');
    } else {
      assert a + b == a;
    }
  }

  /** The query text around pair `i`: `key=value`, between `&`s. */
  lemma {:induction false} EncodePairsAt(pairs: seq<Pair>, i: nat)
    requires i < |pairs|
    ensures EncodePairs(pairs) ==
            EncodePairs(pairs[..i]) + (if i == 0 then "" else "&") + Render(pairs[i]) + AmpTail(pairs[i + 1..])
  {
    var upto := pairs[..i + 1];
    assert pairs == upto + pairs[i + 1..];
    EncodePairsAppend(upto, pairs[i + 1..]);
    assert upto[..i] == pairs[..i];
  }

  /**
   * The rebuilt query around pair `i`, the first with a numeric value: that
   * value becomes value + delta under the same key, and every other pair is
   * rendered as `key=value` in its place, joined by `&`.
   */
  lemma {:induction false} OffsetPairsText(pairs: seq<Pair>, delta: int, i: nat)
    requires FirstNumeric(Values(pairs)) == Some(i)
    ensures EncodePairs(OffsetPairs(pairs, delta)) ==
      EncodePairs(pairs[..i]) + (if i == 0 then "" else "&") +
      pairs[i].key + "=" + Stepped(pairs[i].value, delta) + AmpTail(pairs[i + 1..])
  {
    var out := OffsetPairs(pairs, delta);
    OffsetPairsAround(pairs, delta, i);
    EncodePairsAt(out, i);
    var e, sep, k, st, t := EncodePairs(pairs[..i]), (if i == 0 then "" else "&"), pairs[i].key,
                            Stepped(pairs[i].value, delta), AmpTail(pairs[i + 1..]);
    assert EncodePairs(out) == e + sep + (k + "=" + st) + t;
    AppendAssociative(e + sep, k + "=", st);
    AppendAssociative(e + sep, k, "=");
  }

  /**
   * Query branch: the result is the text before the query, path included,
   * then `?`, then the pairs before the stepped one, the stepped
   * `key=value` and the pairs after it, joined by `&`.
   */
  lemma {:induction false} QueryBranchShape(u: Url, delta: int, i: nat)
    requires u.query.Some? && FirstNumeric(Values(u.query.value.pairs)) == Some(i)
    ensures var ps := u.query.value.pairs;
      OffsetOf(u, delta) ==
        Some(u.prefix + PathString(u.path) + "?" + EncodePairs(ps[..i]) + (if i == 0 then "" else "&") +
             ps[i].key + "=" + Stepped(ps[i].value, delta) + AmpTail(ps[i + 1..]))
  {
    var ps := u.query.value.pairs;
    var e := EncodePairs(OffsetPairs(ps, delta));
    assert OffsetOf(u, delta) == Some(BeforeQuery(u) + e);
    OffsetPairsText(ps, delta, i);
    var q, a, sep, k, st, t := u.prefix + PathString(u.path) + "?", EncodePairs(ps[..i]),
                              (if i == 0 then "" else "&"), ps[i].key, Stepped(ps[i].value, delta), AmpTail(ps[i + 1..]);
    assert BeforeQuery(u) == q;
    assert e == a + sep + k + "=" + st + t;
    AppendAssociative(q, a + sep + k + "=" + st, t);
    AppendAssociative(q, a + sep + k + "=", st);
    AppendAssociative(q, a + sep + k, "=");
    AppendAssociative(q, a + sep, k);
    AppendAssociative(q, a, sep);
  }

  /** Around the stepped pair, the rewritten pairs are the original ones. */
  lemma {:induction false} OffsetPairsAround(pairs: seq<Pair>, delta: int, i: nat)
    requires FirstNumeric(Values(pairs)) == Some(i)
    ensures var out := OffsetPairs(pairs, delta);
      out[..i] == pairs[..i] && out[i + 1..] == pairs[i + 1..] &&
      Render(out[i]) == pairs[i].key + "=" + Stepped(pairs[i].value, delta)
  {
    var out := OffsetPairs(pairs, delta);
    var vs := ReplaceFirstNumeric(Values(pairs), delta);
    assert forall j :: 0 <= j < |pairs| && j != i ==> vs[j] == pairs[j].value;
    assert forall j :: 0 <= j < |pairs| && j != i ==> out[j] == pairs[j];
    assert out[..i] == pairs[..i];
    assert out[i + 1..] == pairs[i + 1..];
  }

  /**
   * Query-to-path fallback: with no numeric query value the result is
   * `offset` of the query-less URL with `?` and the raw query appended;
   * that inner URL has no query, so the recursion is one level deep.
   */
  lemma {:induction false} QueryFallback(u: Url, delta: int)
    requires u.query.Some? && FirstNumeric(Values(u.query.value.pairs)).None?
    ensures WithoutQuery(u).query.None?
    ensures OffsetOf(u, delta) ==
      match OffsetOf(WithoutQuery(u), delta)
      case Some(page) => Some(page + "?" + u.query.value.raw)
      case None => None
  {
  }

  /**
   * Path branch: the numeric segment becomes value + delta; every other
   * segment, an empty trailing one included, keeps its text after its `/`.
   */
  lemma {:induction false} PathBranchShape(u: Url, delta: int, i: nat)
    requires u.query.None? && u.path.Segments? && FirstNumeric(u.path.segments) == Some(i)
    ensures var segs := u.path.segments;
      OffsetOf(u, delta) ==
        Some(u.prefix + PathText(segs[..i]) + "/" + Stepped(segs[i], delta) + PathText(segs[i + 1..]))
  {
    var segs := u.path.segments;
    SegmentsText(segs, delta, i);
    var a, b, c := PathText(segs[..i]), Stepped(segs[i], delta), PathText(segs[i + 1..]);
    AppendAssociative(u.prefix, a + "/" + b, c);
    AppendAssociative(u.prefix, a + "/", b);
    AppendAssociative(u.prefix, a, "/");
  }

  /** The rebuilt path around segment `i`, the first numeric one. */
  lemma {:induction false} SegmentsText(segs: seq<string>, delta: int, i: nat)
    requires FirstNumeric(segs) == Some(i)
    ensures PathText(ReplaceFirstNumeric(segs, delta)) ==
            PathText(segs[..i]) + "/" + Stepped(segs[i], delta) + PathText(segs[i + 1..])
  {
    var out := ReplaceFirstNumeric(segs, delta);
    PathTextAt(out, i);
    assert out[..i] == segs[..i];
    assert out[i + 1..] == segs[i + 1..];
  }

  /** With exactly one numeric segment and no query, that segment is stepped. */
  lemma {:induction false} PathSingleNumeric(u: Url, delta: int, i: nat)
    requires u.query.None? && u.path.Segments?
    requires i < |u.path.segments| && IsNumeric(u.path.segments[i])
    requires forall j :: 0 <= j < |u.path.segments| && j != i ==> !IsNumeric(u.path.segments[j])
    ensures var segs := u.path.segments;
      OffsetOf(u, delta) ==
        Some(u.prefix + PathText(segs[..i]) + "/" + Stepped(segs[i], delta) + PathText(segs[i + 1..]))
  {
    SingleNumericEitherOrder(u.path.segments, i, delta);
    PathBranchShape(u, delta, i);
  }

  /**
   * `offset` finds nothing exactly when no query value is numeric and the
   * URL has no path segments or none of them is numeric (`page6` is not).
   */
  lemma {:induction false} OffsetNoneIff(u: Url, delta: int)
    ensures OffsetOf(u, delta).None? <==>
      (u.query.None? || FirstNumeric(Values(u.query.value.pairs)).None?) &&
      (u.path.Opaque? || FirstNumeric(u.path.segments).None?)
  {
  }

  /** The fragment never reaches the result. */
  lemma {:induction false} OffsetIgnoresFragment(u: Url, fragment: Option<string>, delta: int)
    ensures OffsetOf(u.(fragment := fragment), delta) == OffsetOf(u, delta)
  {
  }

  const PagePath := Segments(["page", "2", ""])

  /** The path `/page/2/` steps to `/page/3/`. */
  lemma {:induction false} PagePathExample()
    ensures PathOffset(PagePath, 1) == Some("/page/3/")
  {
    var segs := ["page", "2", ""];
    assert !IsDigit('p');
    assert ParseInt32("2") == Some(2) by { assert "2"[..0] == []; }
    assert FirstNumeric(segs) == Some(1) by { assert segs[1..] == ["2", ""]; }
    assert ReplaceFirstNumeric(segs, 1) == ["page", "3", ""];
    PageSegmentsSerialize();
  }

  /** The segments `page`, `3` and an empty last one serialize as `/page/3/`. */
  lemma PageSegmentsSerialize()
    ensures PathText(["page", "3", ""]) == "/page/3/"
  {
    assert ["page", "3", ""][..2] == ["page", "3"];
    assert ["page", "3"][..1] == ["page"];
    assert ["page"][..0] == [];
  }

  /**
   * urls.rs:158: `https://www.mexicoinmykitchen.com/page/2/` steps to
   * `.../page/3/`; stated for any scheme and authority `site`.
   */
  lemma {:induction false} PageExample(parse: Parser, site: string, host: Option<string>)
    requires parse(site + "/page/2/") == Some(Url(site, host, PagePath, None, None))
    ensures OffsetString(parse, site + "/page/2/", 1) == Some(site + "/page/3/")
  {
    PagePathExample();
    var url := site + "/page/2/";
    assert url[|url| - 1] == '/';
  }

  const SpicyQuery := Query("s=spicy", [Pair("s", "spicy")])

  lemma {:induction false} SpicyQueryExample()
    ensures FirstNumeric(Values(SpicyQuery.pairs)) == None
  {
    assert !IsDigit('s');
    assert Values([Pair("s", "spicy")]) == ["spicy"];
    assert ["spicy"][1..] == [];
  }

  /** The stepped spicy path with `?` and its raw query put back, as one string. */
  lemma SpicyResultJoins(site: string)
    ensures site + "/page/3/" + "?" + "s=spicy" == site + "/page/3/?s=spicy"
  {
    assert "/page/3/" + "?" + "s=spicy" == "/page/3/?s=spicy";
  }

  /** The fallback on the spicy URL: path stepped, raw query put back. */
  lemma {:induction false} SpicyOffsetOf(site: string, host: Option<string>)
    ensures OffsetOf(Url(site, host, PagePath, Some(SpicyQuery), None), 1) == Some(site + "/page/3/?s=spicy")
  {
    var u := Url(site, host, PagePath, Some(SpicyQuery), None);
    PagePathExample();
    SpicyQueryExample();
    QueryFallback(u, 1);
    var w := WithoutQuery(u);
    assert w.query.None? && w.path == PagePath && w.prefix == site;
    assert OffsetOf(w, 1) == Some(site + "/page/3/");
    SpicyResultJoins(site);
  }

  /**
   * urls.rs:159: `https://www.mexicoinmykitchen.com/page/2/?s=spicy` steps
   * to `.../page/3/?s=spicy`, through the fallback to the path.
   */
  lemma {:induction false} SpicyExample(parse: Parser, site: string, host: Option<string>)
    requires parse(site + "/page/2/?s=spicy") == Some(Url(site, host, PagePath, Some(SpicyQuery), None))
    ensures OffsetString(parse, site + "/page/2/?s=spicy", 1) == Some(site + "/page/3/?s=spicy")
  {
    var url := site + "/page/2/?s=spicy";
    assert url[|url| - 1] == 'y';
    SpicyOffsetOf(site, host);
  }

  const PageQuery := Query("p=5", [Pair("p", "5")])

  /** The query `p=5` steps to `p=6`. */
  lemma {:induction false} PageQueryExample()
    ensures FirstNumeric(Values(PageQuery.pairs)) == Some(0)
    ensures EncodePairs(OffsetPairs(PageQuery.pairs, 1)) == "p=6"
  {
    assert Values([Pair("p", "5")]) == ["5"];
    assert ParseInt32("5") == Some(5) by { assert "5"[..0] == []; }
    assert ReplaceFirstNumeric(["5"], 1) == ["6"];
    assert OffsetPairs([Pair("p", "5")], 1) == [Pair("p", "6")];
  }

  /** `https://example.com/?p=5` steps to `https://example.com/?p=6`: the query wins. */
  lemma {:induction false} QueryExample(parse: Parser, site: string, host: Option<string>)
    requires parse(site + "/?p=5") == Some(Url(site, host, Segments([""]), Some(PageQuery), None))
    ensures OffsetString(parse, site + "/?p=5", 1) == Some(site + "/?p=6")
  {
    var url := site + "/?p=5";
    PageQueryUrlPieces(site);
    PageQueryExample();
    var u := Url(site, host, Segments([""]), Some(PageQuery), None);
    assert BeforeQuery(u) == site + "/" + "?";
  }

  /** The pieces of the `?p=5` URL: its last character, its path, and its stepped text. */
  lemma PageQueryUrlPieces(site: string)
    ensures var url := site + "/?p=5"; url[|url| - 1] == '5'
    ensures PathText([""]) == "/"
    ensures site + "/" + "?" + "p=6" == site + "/?p=6"
  {
    assert [""][..0] == [];
    assert "/" + "?" + "p=6" == "/?p=6";
  }
}
