# URL helpers of a desktop web browser, modelled in Dafny

This project models the URL helpers of `src/urls.rs`. Its centre is
`offset`, the "next/previous page" transformer. It takes a URL and a signed
32-bit delta, finds one integer token, adds the delta to it and rebuilds
the URL:

- a numeric query value wins: the first pair, left to right, whose value
  parses as i32 is stepped, and the query is rebuilt as `key=value` items
  joined by `&` after the text up to and including `?`;
- when no query value is numeric, `offset` calls itself once on the URL
  without its query and puts `?` and the raw query back on success;
- without a query, one numeric path segment is stepped and the path is
  rebuilt, each segment after a `/`;
- otherwise, or when the URL does not parse, the result is `None`. The
  fragment is never put back.

Also modelled: `get_base_url` (strip leading host labels until at most one
`.` is left), `host`, `get_filename` and `is_url`.

Layout:

- `wrappers.dfy` (`Wrappers`): the `Option` type.
- `decimal.dfy` (`Decimal`): `str::parse::<i32>` (`ParseInt32`) and
  `to_string` (`FormatInt`), with the round trip between them.
- `url_parts.dfy` (`UrlParts`): the parsed URL record that the helpers
  read. `Url::parse` is foreign code, so it is a parameter of type
  `Parser = string -> Option<Url>`. The record holds:
  - the text before the path (`url[..Position::BeforePath]`);
  - the host;
  - the path segments, or, when `path_segments()` gives none (the path
    does not start with `/`), the opaque path text;
  - the raw query and its decoded pairs;
  - the fragment.
- `offset.dfy` (`Offset`): the specification `OffsetOf` / `OffsetString`.
  It also holds the methods `RewriteQuery`, `RewritePath`, `OffsetUrl` and
  `Offset`. These follow the source's mutable `updated` flag, its fold and
  its one recursive call, and each is proved equal to the specification.
- `offset_properties.dfy` (`OffsetProperties`): what `offset` promises,
  proved of the specification, and the two tests of the source.
- `urls.dfy` (`Urls`): `get_base_url` as a `while` loop (`BaseDomain`), and
  `host`, `get_filename` and `is_url`.

## Model

| member | source | states |
|---|---|---|
| `Decimal.ParseInt32` | src/urls.rs:99 | `str::parse::<i32>`: an optional `+` or `-`, then one or more ASCII digits whose value lies in the i32 range; a string that parses is non-empty, starts with a sign or a digit and has only digits after that, and without a leading `-` its value is non-negative |
| `Decimal.FormatInt` | src/urls.rs:101 | `to_string`: `-` for a negative number, then the digits of its magnitude with no leading zero; `ParseFormatRoundTrip` and `FormatIsCanonical` state what it guarantees |
| `UrlParts.PathText` | src/urls.rs:125-138 | the serialized path: each segment after its own `/`; it is at least one character per segment and starts with `/` when there is a segment |
| `UrlParts.BeforeQuery` | src/urls.rs:116 | `url[..Position::BeforeQuery]`: it starts with the text before the path; with a query it ends with the `?` delimiter; without one it is that text followed by the path |
| `UrlParts.WithoutQuery` | src/urls.rs:119 | the URL that parsing `url[..Position::BeforeQuery]` yields: the same text before the path, host and path, no query and no fragment, and the same text before its (absent) query without the `?` |
| `Urls.CountDots` | src/urls.rs:46-49 | the number of `.` characters, never more than the length; `DotsCounted` shows it is zero exactly when there is no `.` |
| `Offset.Stepped` | src/urls.rs:99-101 | `(number + inc_offset).to_string()` of a numeric token: non-empty, and starting with `-` exactly when the sum is negative |
| `Offset.ReplaceFirstNumeric` | src/urls.rs:95-105 | the `updated`-flagged map over the tokens: the same number of tokens, and all of them unchanged when none is numeric |
| `Offset.EncodePairs` | src/urls.rs:106-113 | the `acc.is_empty()` fold: the first item alone, each later item after an `&`; `EncodePairsAt` states how it splits around any pair |
| `Offset.OffsetOf` | src/urls.rs:88-149 | `offset` on a parsed URL, written without recursion; every result it returns begins with the text before the path |
| `Offset.OffsetString` | src/urls.rs:80-150 | `offset` on a string: trailing `?`s trimmed, then parsed; a parse failure gives `None`, and every result begins with the text before the parsed URL's path |
| `Offset.IsNumeric` | src/urls.rs:99 | a token the code changes: `parse::<i32>()` gives `Ok` for its whole text (the same test is made on path segments at line 129) |
| `Offset.Render` | src/urls.rs:97-104 | one query item: the key, `=`, then the value |
| `Offset.OffsetPairs` | src/urls.rs:95-105 | the pairs the `updated`-flagged map produces: the same number of pairs, every key kept, the first numeric value stepped and all other values kept |
| `Offset.ReplaceLastNumeric` | src/urls.rs:126 | the rightmost-first reading the comment describes: the same number of tokens, with the last numeric one stepped |
| `Offset.PathOffset` | src/urls.rs:124-146 | the path branch: when the path has segments and one is numeric, the rebuilt path text with the leftmost numeric segment stepped; otherwise nothing |
| `UrlParts.PathString` | src/urls.rs:116 | the path part of the serialization: the segment text, or the opaque path text of a URL without segments |
| `Offset.TrimTrailingQuestionMarks` | src/urls.rs:81-87 | the result is the input with every trailing `?` removed and nothing else: a prefix, not ending in `?`, followed in the input only by `?`s |
| `Offset.FirstNumeric` | src/urls.rs:95-105 | the index found is that of a value parsing as i32 with no parsing value before it; `None` means no value parses |
| `Offset.LastNumeric` | src/urls.rs:126 | the rightmost-first reading the comment describes: the index of a numeric string with none after it; `None` means none is numeric |
| `Offset.RewriteQuery` | src/urls.rs:89-113 | the flagged map and the `&` fold yield `updated` exactly when some value is numeric, and the text of the pairs with exactly the first numeric value stepped |
| `Offset.RewritePath` | src/urls.rs:124-138 | the flagged closure over the segments yields `updated` exactly when some segment is numeric, and the path with exactly the leftmost numeric segment stepped |
| `Offset.OffsetUrl` | src/urls.rs:88-149 | the query branch, the single recursive call on the URL without its query, and the path branch together return what `OffsetOf` specifies |
| `Offset.Offset` | src/urls.rs:80-150 | trims trailing `?`s, parses, and returns `OffsetString`; a parse failure returns `None` without an error |
| `Offset.OffsetPairsAt` | src/urls.rs:95-105 | after the rewrite, pair `i` is stepped under the same key if it is the first numeric one, and is unchanged otherwise |
| `Offset.SegmentAt` | src/urls.rs:127-135 | after the rewrite, segment `i` is stepped if it is the first numeric one, and is unchanged otherwise |
| `OffsetProperties.ReplaceFirstChangesOnlyFirst` | src/urls.rs:95-105 | at most one token changes, and the one that changes is the first numeric token |
| `OffsetProperties.ReplaceFirstSteps` | src/urls.rs:99-101 | only the first numeric token is replaced, by the decimal form of its value plus the delta; it reads back as that sum and stays the first numeric token |
| `OffsetProperties.ReplaceFirstZeroDelta` | src/urls.rs:99-101 | with delta 0 every token keeps its value, and a canonically written token is kept verbatim |
| `OffsetProperties.ReplaceFirstCompose` | src/urls.rs:99-101 | stepping by `d1` and then by `d2` equals stepping by `d1 + d2` |
| `OffsetProperties.SingleNumericEitherOrder` | src/urls.rs:125-138 | with exactly one numeric segment, the leftmost and the rightmost readings both step exactly that segment |
| `OffsetProperties.PathOrderExample` | src/urls.rs:125-138 | with segments `page/2/3` the code steps `2`, while the order the comment describes would step `3` |
| `OffsetProperties.OffsetPairsText` | src/urls.rs:95-113 | the rebuilt query keeps every pair before and after the stepped one as `key=value` in its place, with `&` between items |
| `OffsetProperties.QueryBranchShape` | src/urls.rs:115-116 | with a numeric query value at pair `i`, the whole result is the text before the path, the path unchanged, `?`, the pairs before `i` verbatim, the stepped `key=value`, and the pairs after `i` verbatim, joined by `&` |
| `OffsetProperties.EncodePairsAt` | src/urls.rs:106-113 | the folded query text splits at any pair: the items before it, then `&` unless it is the first, its `key=value`, then `&` and each later item |
| `OffsetProperties.QueryFallback` | src/urls.rs:117-122 | with no numeric query value, the result is `offset` of the query-less URL with `?` and the raw query appended, or `None` when that is `None`; the inner URL has no query, so the recursion is one level deep |
| `OffsetProperties.PathBranchShape` | src/urls.rs:124-142 | without a query, the result is the text before the path, then every segment before and after the stepped one verbatim after its `/` (an empty trailing segment included) |
| `OffsetProperties.SegmentsText` | src/urls.rs:125-138 | the rebuilt path is the segments before the stepped one, the stepped one after a `/`, and the segments after it, all verbatim |
| `OffsetProperties.PathSingleNumeric` | src/urls.rs:124-141 | without a query and with exactly one numeric segment, that segment becomes `n + delta` |
| `OffsetProperties.OffsetNoneIff` | src/urls.rs:88-149 | the result is `None` exactly when no query value is numeric and there are no path segments or none is numeric (such as `page6`) |
| `OffsetProperties.OffsetIgnoresFragment` | src/urls.rs:116-141 | the fragment has no effect on the result: it is never re-appended |
| `OffsetProperties.PagePathExample` | src/urls.rs:158 | the path `/page/2/` steps to `/page/3/` |
| `OffsetProperties.PageExample` | src/urls.rs:158 | `…/page/2/` becomes `…/page/3/` |
| `OffsetProperties.SpicyQueryExample` | src/urls.rs:159 | the query `s=spicy` has no numeric value |
| `OffsetProperties.SpicyOffsetOf` | src/urls.rs:159 | the parsed `…/page/2/?s=spicy` steps its path and keeps its raw query |
| `OffsetProperties.SpicyExample` | src/urls.rs:159 | `…/page/2/?s=spicy` becomes `…/page/3/?s=spicy` |
| `OffsetProperties.PageQueryExample` | src/urls.rs:95-113 | the query `p=5` has its only value numeric and is rebuilt as `p=6` |
| `OffsetProperties.QueryExample` | src/urls.rs:115-116 | `https://example.com/?p=5` becomes `https://example.com/?p=6` |
| `Decimal.NatToDecimal` | src/urls.rs:101 | the decimal text of a number is a non-empty run of digits whose value is that number, with no leading zero |
| `Decimal.ParseFormatRoundTrip` | src/urls.rs:99-101 | parsing what `to_string` wrote gives back the same i32 |
| `Decimal.ParseRejectsOutOfRange` | src/urls.rs:99 | a number outside the i32 range, written out, is not numeric |
| `Decimal.FormatIsCanonical` | src/urls.rs:101 | `to_string` never writes `+`, a leading zero or `-0` |
| `Decimal.CanonicalIsFormat` | src/urls.rs:99-101 | a canonically written numeral is exactly what `to_string` writes for its value |
| `Decimal.FormatParseCanonical` | src/urls.rs:99-101 | parsing and then formatting returns the input exactly when the input is canonical, so `007` steps to `8` and `+5` to `6` |
| `Decimal.ParseLeadingZerosExample` | src/urls.rs:99-101 | `007` parses as 7, and 7 + 1 is written `8` |
| `Decimal.ParsePlusExample` | src/urls.rs:99-101 | `+5` parses as 5, and 5 + 1 is written `6` |
| `Decimal.ParseMinusExample` | src/urls.rs:99 | `-12` parses as -12 |
| `Decimal.ParseRejectExamples` | src/urls.rs:99 | the empty string, a lone sign, `page6` and `+-1` do not parse |
| `Decimal.DigitsCanonical` | src/urls.rs:101 | a digit string with no leading zero is the decimal text of its own value |
| `UrlParts.PathTextAt` | src/urls.rs:130-138 | in the path text, every segment appears verbatim after its own `/`, between the segments before and after it |
| `Urls.AfterFirstDot` | src/urls.rs:48 | the result is the suffix after the first `.`, with one `.` fewer; without a `.` it is empty |
| `Urls.BaseDomain` | src/urls.rs:44-51 | the loop ends with at most one `.` (exactly one if the host had any); the result is what is left after dropping whole leading labels; a host with at most one `.` is returned unchanged |
| `Urls.GetBaseUrl` | src/urls.rs:42-53 | `None` exactly when parsing fails; otherwise the base domain of the host; `""` when there is no host |
| `Urls.BaseDomainUnique` | src/urls.rs:45-50 | only one label suffix of a host satisfies the base-domain contract, so that contract determines the loop's result |
| `Urls.BaseDomainKeepsLastTwoLabels` | src/urls.rs:45-50 | for a host of two or more labels, the base domain is the last two labels |
| `Urls.BaseDomainExample` | src/urls.rs:45-50 | `a.b.example.com` has base domain `example.com` |
| `Urls.Host` | src/urls.rs:66-70 | the host is present exactly when the URL parses and has a host |
| `Urls.GetFilename` | src/urls.rs:56-64 | a file name exists only for a parsed URL with path segments, and it is the decoded last segment |
| `Urls.IsUrl` | src/urls.rs:73-77 | `localhost` and every string that parses are URL-like; otherwise the string is URL-like exactly when `http://` + input parses and the input contains `.` or `:` |
| `Urls.IsUrlWithoutSeparator` | src/urls.rs:74-76 | without a `.` or `:`, and other than `localhost`, a string is URL-like exactly when it parses |

## Behaviour worth noting

- Path order. The comment at src/urls.rs:126 says the path segments are
  checked in reverse, which would step the rightmost numeric segment.
  But `path_segments().rev().map(f).rev()` is lazy: the two reversals
  cancel before `collect`, so the closure with the `updated`
  flag meets the segments left to right. The model follows the code:
  `ReplaceFirstNumeric` steps the leftmost numeric segment.
  `ReplaceLastNumeric` is the comment's reading. `SingleNumericEitherOrder`
  proves that both readings agree when exactly one segment is numeric.
  `PathOrderExample` shows an input where they differ (`/page/2/3`).
- Trailing `?`. When the input ends in `?`, the code removes every
  trailing `?` (`trim_end_matches`), so `…/2??` is read as `…/2`.
- Empty query. The query branch is taken whenever the parsed URL has a
  query (`url.query()` is `Some`), even an empty one, for example
  `…/2?#top`, which does not end in `?`. The empty query has no pairs, so the path fallback applies and `?`
  is put back; the fragment is not.

## Left out

- `canonicalize_url` (src/urls.rs:29-39): depends on a filesystem existence check and the current directory (I/O).
- `Url::parse`: foreign `url`-crate code. It is the parameter `parse`, and the model reads only the decomposed parts listed above.
- `OffsetUrl`: the source re-parses the string `url[..Position::BeforeQuery]`. The model instead calls itself on the same record without query and fragment (`WithoutQuery`). This assumes the `url` crate parses that prefix, once its `?` is trimmed, back into the same parts.
- `query_pairs` form-decoding: the decoded pairs are part of the parsed record. The rewritten query re-emits decoded pairs without re-encoding, so pairs with escapes are not byte-preserved. The model reproduces this because it never re-encodes either.
- `percent_decode(..).decode_utf8()` in `get_filename`: the parameter `decode`.
- `Offset`: does not model i32 overflow of `number + inc_offset` (src/urls.rs:101, 131), which panics in debug builds and wraps in release builds. The methods require `OffsetFits` / `OffsetStringFits`, which say that the one addition performed stays in range.
- Characters: strings are sequences of characters; UTF-8 byte offsets are not modelled.
- `src/app/bookmarks.rs`: webview accessors, dialogs and the bookmark manager (UI glue). The tag split at lines 64-66 is left out with it.
- `src/download.rs`: platform directory lookups (environment I/O).
