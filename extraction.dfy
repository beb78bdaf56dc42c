/**
 * Best-effort recovery of a JSON object from a language model's reply:
 * take the text from the first `{` to the last `}` (inclusive) and hand it
 * to a JSON parser.  The parser (RFC 8259 `json.loads`) is a parameter that
 * answers `None` where `json.loads` raises.
 */
module Extraction {
  import opened Wrappers
  import opened Text

  /** What the brace scan produced. */
  datatype Extracted<J> =
    | Structured(value: J)   // the span parsed
    | NoBraces               // no `{` before a `}`: the `else` branch of the callers
    | Malformed              // the span did not parse: `json.loads` raised

  /**
   * The positions of the first `{` and the last `}`, when the first comes
   * before the last (`json_start >= 0 and json_end > json_start`).
   */
  function BraceBounds(content: string): (r: Option<(nat, nat)>)
    ensures r.Some? ==>
      && r.value.0 < r.value.1 < |content|
      && content[r.value.0] == '{' && content[r.value.1] == '}'
      && '{' !in content[..r.value.0]
      && '}' !in content[r.value.1 + 1..]
    ensures r.Some? <==> exists i, j :: 0 <= i < j < |content| && content[i] == '{' && content[j] == '}'
  {
    match (Find(content, '{'), RFind(content, '}'))
    case (Some(i), Some(j)) =>
      if j + 1 > i then Some((i, j))
      else
        NoPairBefore(content, i, j);
        None
    case (None, _) => None
    case (_, None) => None
  }

  /** With the last `}` before the first `{`, no `{` precedes any `}`. */
  lemma NoPairBefore(content: string, first: nat, last: nat)
    requires first < |content| && last < first
    requires '{' !in content[..first]
    requires '}' !in content[last + 1..]
    ensures !exists i, j :: 0 <= i < j < |content| && content[i] == '{' && content[j] == '}'
  {
    forall i, j | 0 <= i < j < |content| && content[i] == '{'
      ensures content[j] != '}'
    {
      assert content[last + 1..][j - last - 1] == content[j];
    }
  }

  /** The inclusive span `content[json_start:json_end]`. */
  function BraceSpan(content: string): (r: Option<string>)
    ensures r.Some? <==> BraceBounds(content).Some?
    ensures r.Some? ==> |r.value| >= 2 && r.value[0] == '{' && r.value[|r.value| - 1] == '}'
    ensures r.Some? ==> r.value == content[BraceBounds(content).value.0..BraceBounds(content).value.1 + 1]
  {
    match BraceBounds(content)
    case None => None
    case Some((i, j)) => Some(content[i..j + 1])
  }

  /** The brace scan followed by the parse. */
  function Extract<J>(content: string, parse: string -> Option<J>): (r: Extracted<J>)
    ensures r.NoBraces? <==> BraceSpan(content).None?
    ensures r.Structured? <==> BraceSpan(content).Some? && parse(BraceSpan(content).value).Some?
    ensures r.Structured? ==> r.value == parse(BraceSpan(content).value).value
  {
    match BraceSpan(content)
    case None => NoBraces
    case Some(span) =>
      match parse(span)
      case Some(v) => Structured(v)
      case None => Malformed
  }

  /** Text around the object does not change what is extracted, as long as it holds no braces. */
  lemma ExtractIgnoresProse<J>(before: string, body: string, after: string, parse: string -> Option<J>)
    requires '{' !in before && '}' !in after
    requires |body| >= 2 && body[0] == '{' && body[|body| - 1] == '}'
    ensures BraceSpan(before + body + after) == Some(body)
    ensures Extract(before + body + after, parse) == Extract(body, parse)
  {
    var c := before + body + after;
    var e := |before| + |body| - 1;
    assert c[..|before|] == before;
    FindAt(c, '{', |before|);
    assert c[e + 1..] == after;
    RFindAt(c, '}', e);
    assert c[|before|..e + 1] == body;
    FindAt(body, '{', 0);
    assert body[|body| - 1 + 1..] == [];
    RFindAt(body, '}', |body| - 1);
    assert body[0..|body|] == body;
  }
}
