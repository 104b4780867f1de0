/** Request URLs: the API root followed by slash-separated path segments. */
module Urls {
  import opened Wrappers

  const ApiRoot: string := "https://v6.exchangerate-api.com/v6"

  /** The path `/s0/s1/...` of a sequence of segments. */
  function Path(segments: seq<string>): string
  {
    if segments == [] then "" else "/" + segments[0] + Path(segments[1..])
  }

  /** The position of the first slash in `s`, or `|s|` if there is none. */
  function SlashIndex(s: string): (i: nat)
    ensures i <= |s|
    ensures forall j | 0 <= j < i :: s[j] != '/'
    ensures i < |s| ==> s[i] == '/'
  {
    if s == "" || s[0] == '/' then 0 else 1 + SlashIndex(s[1..])
  }

  /** The segments of a path `/s0/s1/...`: the inverse of `Path`. */
  function Segments(path: string): seq<string>
    decreases |path|
  {
    if path == "" then []
    else
      var rest := path[1..];
      var i := SlashIndex(rest);
      [rest[..i]] + Segments(rest[i..])
  }

  predicate NoSlash(s: string)
  {
    '/' !in s
  }

  lemma PathCons(head: string, tail: seq<string>)
    ensures Path([head] + tail) == "/" + head + Path(tail)
  {
    assert ([head] + tail)[1..] == tail;
  }

  /** The first slash of `head + path` ends `head` when `head` has none and
      `path` is empty or starts with one. */
  lemma SlashIndexAfterSegment(head: string, path: string)
    requires NoSlash(head)
    requires path == "" || path[0] == '/'
    ensures SlashIndex(head + path) == |head|
  {
    var s := head + path;
    var i := SlashIndex(s);
    assert forall j | 0 <= j < |head| :: s[j] == head[j] && s[j] != '/';
    assert |head| < |s| ==> s[|head|] == '/';
  }

  /** Segments without slashes are recovered exactly from their path: the
      path has one segment per parameter, in order, and no other. */
  lemma {:induction false} SegmentsOfPath(segments: seq<string>)
    requires forall i | 0 <= i < |segments| :: NoSlash(segments[i])
    ensures Segments(Path(segments)) == segments
  {
    if segments != [] {
      var head, tail := segments[0], segments[1..];
      var rest := head + Path(tail);
      assert Path(segments)[1..] == rest;
      assert NoSlash(head);
      assert tail != [] ==> Path(tail)[0] == '/';
      SlashIndexAfterSegment(head, Path(tail));
      assert rest[..|head|] == head;
      assert rest[|head|..] == Path(tail);
      SegmentsOfPath(tail);
    }
  }

  /** The account-scoped base URL `{root}/{api_key}`. */
  function ApiKeyUrl(apiKey: string): (url: string)
    ensures url == ApiRoot + Path([apiKey])
  {
    ApiRoot + "/" + apiKey
  }

  /** The optional last segment of a pair request: the amount, when given. */
  function AmountSegment(amountText: Option<string>): seq<string>
  {
    if amountText.Some? then [amountText.value] else []
  }

  /** The segments of the `codes` request under the root. */
  function CodesSegments(apiKey: string): seq<string>
  {
    [apiKey, "codes"]
  }

  /** The segments of the `pair` request under the root. */
  function PairSegments(apiKey: string, base: string, target: string, amountText: Option<string>): seq<string>
  {
    [apiKey, "pair", base, target] + AmountSegment(amountText)
  }

  function CodesUrl(apiKey: string): string
  {
    ApiRoot + Path(CodesSegments(apiKey))
  }

  function PairUrl(apiKey: string, base: string, target: string, amountText: Option<string>): string
  {
    ApiRoot + Path(PairSegments(apiKey, base, target, amountText))
  }

  /** A `pair` request is never mistaken for a `codes` request. */
  lemma PairUrlIsNotCodesUrl(apiKey: string, base: string, target: string, amountText: Option<string>)
    ensures PairUrl(apiKey, base, target, amountText) != CodesUrl(apiKey)
  {
    var p, c := PairUrl(apiKey, base, target, amountText), CodesUrl(apiKey);
    var k := |ApiRoot| + 1 + |apiKey| + 1;
    PathCons(apiKey, PairSegments(apiKey, base, target, amountText)[1..]);
    assert PairSegments(apiKey, base, target, amountText)[1..] == ["pair", base, target] + AmountSegment(amountText);
    PathCons("pair", [base, target] + AmountSegment(amountText));
    assert ["pair", base, target] + AmountSegment(amountText) == ["pair"] + ([base, target] + AmountSegment(amountText));
    PathCons(apiKey, ["codes"]);
    PathCons("codes", []);
    assert p[k] == 'p';
    assert c[k] == 'c';
  }

  /** Under the root, the pair URL consists of exactly the key, `pair`, the
      two codes and, only when given, the amount. */
  lemma PairUrlSegments(apiKey: string, base: string, target: string, amountText: Option<string>)
    requires NoSlash(apiKey) && NoSlash(base) && NoSlash(target)
    requires amountText.Some? ==> NoSlash(amountText.value)
    ensures PairUrl(apiKey, base, target, amountText)[..|ApiRoot|] == ApiRoot
    ensures Segments(PairUrl(apiKey, base, target, amountText)[|ApiRoot|..]) ==
      [apiKey, "pair", base, target] + AmountSegment(amountText)
  {
    var segments := PairSegments(apiKey, base, target, amountText);
    assert PairUrl(apiKey, base, target, amountText)[|ApiRoot|..] == Path(segments);
    SegmentsOfPath(segments);
  }
}
