/**
 * The decomposition of a URL that the helpers in urls.rs read from the
 * `url` crate. Parsing itself is foreign code: it is a parameter of type
 * `Parser`, and the helpers only see the parts below.
 */
module UrlParts {
  import opened Wrappers

  /** One form-decoded `key=value` pair of a query (`query_pairs`). */
  datatype Pair = Pair(key: string, value: string)

  /** The raw query text after `?` (`query()`) and its decoded pairs. */
  datatype Query = Query(raw: string, pairs: seq<Pair>)

  /**
   * The path: the segments between `/`s (`path_segments()`), or, when
   * there are none because the path does not start with `/`, the opaque
   * path text: `x` in `mailto:x`, or `""` in `foo://host`.
   */
  datatype Path = Segments(segments: seq<string>) | Opaque(text: string)

  /**
   * A parsed URL. `prefix` is the serialization up to the path
   * (`url[..Position::BeforePath]`: scheme, `//`, user info, host, port);
   * `host` is `host_str()`.
   */
  datatype Url = Url(prefix: string, host: Option<string>, path: Path,
                     query: Option<Query>, fragment: Option<string>)

  /** `Url::parse`: a decomposition, or `None` for a parse error. */
  type Parser = string -> Option<Url>

  /** The serialization of path segments: each one after a `/`. */
  function PathText(segments: seq<string>): (r: string)
    ensures |r| >= |segments|
    ensures |segments| > 0 ==> r[0] == '/'
    decreases |segments|
  {
    if |segments| == 0 then ""
    else PathText(segments[..|segments| - 1]) + "/" + segments[|segments| - 1]
  }

  function PathString(p: Path): string {
    match p
    case Segments(segments) => PathText(segments)
    case Opaque(text) => text
  }

  /**
   * `url[..Position::BeforeQuery]`: everything before the query text, so
   * it ends with the `?` delimiter when there is a query.
   */
  function BeforeQuery(u: Url): (r: string)
    ensures |r| >= |u.prefix| && r[..|u.prefix|] == u.prefix
    ensures u.query.Some? ==> |r| > 0 && r[|r| - 1] == '?'
    ensures u.query.None? ==> r == u.prefix + PathString(u.path)
  {
    u.prefix + PathString(u.path) + if u.query.Some? then "?" else ""
  }

  /**
   * The decomposition of `url[..Position::BeforeQuery]` once its trailing
   * `?` is trimmed: the same URL without query and fragment.
   */
  function WithoutQuery(u: Url): (r: Url)
    ensures r.query.None? && r.fragment.None?
    ensures r.prefix == u.prefix && r.host == u.host && r.path == u.path
    ensures BeforeQuery(r) == u.prefix + PathString(u.path)
  {
    u.(query := None, fragment := None)
  }

  /** Strings joined in one piece may be regrouped: `+` on text is associative. */
  lemma AppendAssociative(a: string, b: string, c: string)
    ensures a + (b + c) == a + b + c
  {
  }

  /** Path text splits at any segment, every segment keeping its own `/`. */
  lemma {:induction false} PathTextAppend(a: seq<string>, b: seq<string>)
    ensures PathText(a + b) == PathText(a) + PathText(b)
    decreases |b|
  {
    if |b| > 0 {
      var b' := b[..|b| - 1];
      assert (a + b)[..|a + b| - 1] == a + b';
      PathTextAppend(a, b');
    } else {
      assert a + b == a;
    }
  }

  /** The path text around segment `i`: the segment appears verbatim after a `/`. */
  lemma {:induction false} PathTextAt(segments: seq<string>, i: nat)
    requires i < |segments|
    ensures PathText(segments) ==
            PathText(segments[..i]) + "/" + segments[i] + PathText(segments[i + 1..])
  {
    var before, here, after := segments[..i], [segments[i]], segments[i + 1..];
    assert segments == (before + here) + after;
    PathTextAppend(before + here, after);
    PathTextAppend(before, here);
    assert here[..0] == [];
    assert PathText(here) == "/" + segments[i];
  }
}
