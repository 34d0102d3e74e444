/**
 * The small URL helpers of urls.rs built on the parser: the base domain
 * of a URL, its host, its file name and the "looks like a URL" test.
 */
module Urls {
  import opened Wrappers
  import opened UrlParts

  /** `chars().filter(|&c| c == '.').count()`. */
  function CountDots(s: string): (n: nat)
    ensures n <= |s|
    decreases |s|
  {
    if |s| == 0 then 0 else (if s[0] == '.' then 1 else 0) + CountDots(s[1..])
  }

  /**
   * `chars().skip_while(|&c| c != '.').skip(1).collect()`: what follows the
   * first `.`, or the empty string when there is none.
   */
  function AfterFirstDot(s: string): (r: string)
    ensures |r| < |s| || s == r == ""
    ensures r == s[|s| - |r|..]
    ensures '.' in s ==> s[|s| - |r| - 1] == '.' && CountDots(r) == CountDots(s) - 1
    ensures '.' !in s ==> r == ""
    decreases |s|
  {
    if |s| == 0 then ""
    else if s[0] == '.' then s[1..]
    else AfterFirstDot(s[1..])
  }

  /** `b` is what is left of `host` after dropping whole leading labels. */
  predicate IsLabelSuffix(host: string, b: string) {
    |b| <= |host| && b == host[|host| - |b|..] &&
    (|b| == |host| || host[|host| - |b| - 1] == '.')
  }

  /** `b` is the base domain of `host`: whole labels dropped until at most one `.` is left. */
  predicate IsBaseDomain(host: string, b: string) {
    IsLabelSuffix(host, b) &&
    CountDots(b) == if CountDots(host) <= 1 then CountDots(host) else 1
  }

  /** The label-stripping loop of `get_base_url` (urls.rs:44-51). */
  method BaseDomain(host: string) returns (base: string)
    ensures IsBaseDomain(host, base)
    ensures CountDots(host) <= 1 ==> base == host
  {
    base := host;
    var periodCount := CountDots(base);
    while periodCount > 1
      invariant periodCount == CountDots(base)
      invariant IsLabelSuffix(host, base)
      invariant CountDots(host) >= 1 ==> periodCount >= 1
      invariant CountDots(host) <= 1 ==> base == host
      decreases periodCount
    {
      DotsCounted(base);
      ghost var before := base;
      base := AfterFirstDot(base);
      LabelSuffixTrans(host, before, base);
      periodCount := CountDots(base);
    }
  }

  /** `get_base_url` (urls.rs:42-53): `None` only when parsing fails; a missing host gives "". */
  method GetBaseUrl(parse: Parser, url: string) returns (r: Option<string>)
    ensures r.None? <==> parse(url).None?
    ensures r.Some? ==> IsBaseDomain(Host(parse, url).GetOr(""), r.value)
    ensures parse(url).Some? && parse(url).value.host.None? ==> r == Some("")
  {
    match parse(url) {
      case None => r := None;
      case Some(u) =>
        var b := BaseDomain(u.host.GetOr(""));
        r := Some(b);
    }
  }

  /** `host` (urls.rs:66-70): the host of a URL that parses and has one. */
  function Host(parse: Parser, url: string): (r: Option<string>)
    ensures r.Some? <==> parse(url).Some? && parse(url).value.host.Some?
    ensures r.Some? ==> r == parse(url).value.host
  {
    match parse(url)
    case None => None
    case Some(u) => u.host
  }

  /**
   * `get_filename` (urls.rs:56-64): the percent-decoded last path segment.
   * `decode` stands for `percent_decode(..).decode_utf8()`.
   */
  function GetFilename(parse: Parser, decode: string -> Option<string>, url: string): (r: Option<string>)
    ensures r.Some? ==> parse(url).Some? && parse(url).value.path.Segments? &&
                        |parse(url).value.path.segments| > 0
    ensures parse(url).Some? && parse(url).value.path.Segments? && |parse(url).value.path.segments| > 0 ==>
              var segs := parse(url).value.path.segments;
              r == decode(segs[|segs| - 1])
  {
    match parse(url)
    case None => None
    case Some(u) =>
      if u.path.Segments? && |u.path.segments| > 0 then decode(u.path.segments[|u.path.segments| - 1])
      else None
  }

  /** `is_url` (urls.rs:73-77). */
  function IsUrl(parse: Parser, input: string): (r: bool)
    ensures input == "localhost" ==> r
    ensures parse(input).Some? ==> r
    ensures parse("http://" + input).Some? && ('.' in input || ':' in input) ==> r
    ensures r ==> parse(input).Some? || parse("http://" + input).Some? || input == "localhost"
    ensures r && parse(input).None? && input != "localhost" ==> '.' in input || ':' in input
  {
    parse(input).Some? ||
    (parse("http://" + input).Some? && ('.' in input || ':' in input)) ||
    input == "localhost"
  }

  lemma {:induction false} CountDotsAppend(a: string, b: string)
    ensures CountDots(a + b) == CountDots(a) + CountDots(b)
    decreases |a|
  {
    if |a| > 0 {
      assert (a + b)[1..] == a[1..] + b;
      CountDotsAppend(a[1..], b);
    } else {
      assert a + b == b;
    }
  }

  lemma {:induction false} DotsCounted(s: string)
    ensures '.' in s <==> CountDots(s) > 0
    decreases |s|
  {
    if |s| > 0 {
      DotsCounted(s[1..]);
      assert s == [s[0]] + s[1..];
      assert '.' in s <==> s[0] == '.' || '.' in s[1..];
    }
  }

  lemma {:induction false} LabelSuffixTrans(host: string, b: string, c: string)
    requires IsLabelSuffix(host, b)
    requires |c| < |b| && c == b[|b| - |c|..] && b[|b| - |c| - 1] == '.'
    ensures IsLabelSuffix(host, c)
  {
    assert host[|host| - |c|..] == b[|b| - |c|..];
    assert host[|host| - |c| - 1] == b[|b| - |c| - 1];
  }

  /**
   * The base domain is unique: the loop's result is the only label suffix
   * with the right number of dots.
   */
  lemma {:induction false} BaseDomainUnique(host: string, b1: string, b2: string)
    requires IsBaseDomain(host, b1) && IsBaseDomain(host, b2)
    ensures b1 == b2
  {
    if |b1| < |b2| {
      ShorterSuffixHasFewerDots(host, b1, b2);
    } else if |b2| < |b1| {
      ShorterSuffixHasFewerDots(host, b2, b1);
    }
  }

  lemma {:induction false} ShorterSuffixHasFewerDots(host: string, short: string, long: string)
    requires IsLabelSuffix(host, short) && IsLabelSuffix(host, long) && |short| < |long|
    ensures CountDots(short) < CountDots(long)
  {
    var k := |long| - |short|;
    var x := long[..k];
    assert long == x + short;
    assert x[k - 1] == host[|host| - |short| - 1];
    CountDotsAppend(x, short);
    DotsCounted(x);
  }

  /** Labels joined by `.`. */
  function JoinLabels(labels: seq<string>): string
    requires |labels| > 0
    decreases |labels|
  {
    if |labels| == 1 then labels[0]
    else JoinLabels(labels[..|labels| - 1]) + "." + labels[|labels| - 1]
  }

  lemma {:induction false} JoinLabelsDots(labels: seq<string>)
    requires |labels| > 0
    requires forall j :: 0 <= j < |labels| ==> '.' !in labels[j]
    ensures CountDots(JoinLabels(labels)) == |labels| - 1
    decreases |labels|
  {
    var last := labels[|labels| - 1];
    DotsCounted(last);
    if |labels| > 1 {
      var init := labels[..|labels| - 1];
      JoinLabelsDots(init);
      CountDotsAppend(JoinLabels(init), ".");
      CountDotsAppend(JoinLabels(init) + ".", last);
      assert CountDots(".") == 1 by { assert "."[1..] == ""; }
    } else {
      DotsCounted(labels[0]);
    }
  }

  /**
   * Stripping sub-domains keeps the last two labels: the base domain of
   * `a.b.example.com` is `example.com`, and a two-label host is kept whole.
   */
  lemma {:induction false} BaseDomainKeepsLastTwoLabels(labels: seq<string>)
    requires |labels| >= 2
    requires forall j :: 0 <= j < |labels| ==> '.' !in labels[j]
    ensures IsBaseDomain(JoinLabels(labels), labels[|labels| - 2] + "." + labels[|labels| - 1])
  {
    var n := |labels|;
    var host := JoinLabels(labels);
    var b := labels[n - 2] + "." + labels[n - 1];
    JoinLabelsDots(labels);
    JoinLabelsDots(labels[n - 2..]);
    assert labels[n - 2..][..1] == [labels[n - 2]];
    assert JoinLabels(labels[n - 2..]) == b;
    assert labels[..n - 1][..n - 2] == labels[..n - 2];
    if n == 2 {
      assert labels[..1] == [labels[0]];
      assert host == b;
    } else {
      var p := JoinLabels(labels[..n - 2]);
      assert host == p + "." + b;
      assert host[|host| - |b|..] == b;
      assert host[|host| - |b| - 1] == '.';
    }
  }

  /** The same for the example host itself. */
  lemma {:induction false} BaseDomainExample()
    ensures IsBaseDomain("a.b.example.com", "example.com")
  {
    var labels := ["a", "b", "example", "com"];
    BaseDomainKeepsLastTwoLabels(labels);
    ExampleHostJoins();
  }

  /** The labels `a`, `b`, `example`, `com` joined by `.` spell `a.b.example.com`. */
  lemma ExampleHostJoins()
    ensures JoinLabels(["a", "b", "example", "com"]) == "a.b.example.com"
    ensures "example" + "." + "com" == "example.com"
  {
    var labels := ["a", "b", "example", "com"];
    assert labels[..3] == ["a", "b", "example"];
    assert labels[..3][..2] == ["a", "b"];
    assert labels[..3][..2][..1] == ["a"];
    assert JoinLabels(["a", "b"]) == "a" + "." + "b";
    assert JoinLabels(["a", "b", "example"]) == "a.b" + "." + "example";
    assert JoinLabels(labels) == "a.b.example" + "." + "com";
  }

  /** Without a `.` or `:` the `http://` retry never makes a string URL-like. */
  lemma {:induction false} IsUrlWithoutSeparator(parse: Parser, input: string)
    requires '.' !in input && ':' !in input && input != "localhost"
    ensures IsUrl(parse, input) == parse(input).Some?
  {
  }
}
