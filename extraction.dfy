/** The reply handling of getDragonFeedback: find the text matched by the
    greedy regular expression /\{[\s\S]*\}/, hand it to JSON.parse, and build
    the feedback record from the parsed object. */
module Extraction {
  import opened Wrappers
  import opened Text

  /** The half-open index range [start, end) of the matched text. */
  datatype Span = Span(start: nat, end: nat)

  /** Why a persona's evaluation failed. Every one of them ends the whole
      batch with the same status 500. */
  datatype Failure =
    | UpstreamFailed   // the API call rejected, or its reply had no text
    | NoJsonSpan       // 'Failed to parse dragon feedback'
    | MalformedJson    // JSON.parse threw on the matched text

  /** The record returned for one persona. The three fields are whatever the
      parsed object held under those keys; None is JavaScript's undefined. */
  datatype Feedback<V> = Feedback(dragonId: string, rating: Option<V>, critique: Option<V>, question: Option<V>)

  /** The regular expression matches text[i..j + 1] exactly when it starts
      with '{', ends with '}' and is at least two characters long. */
  predicate BraceSpan(text: string, i: int, j: int)
  {
    0 <= i < j < |text| && text[i] == '{' && text[j] == '}'
  }

  /** What String.prototype.match returns for the pattern: the leftmost start
      at which the pattern matches, and at that start the longest match,
      since [\s\S]* is greedy and backtracks only as far as it must. */
  ghost predicate RegexMatch(text: string, i: int, j: int)
  {
    && BraceSpan(text, i, j)
    && (forall i', j' :: BraceSpan(text, i', j') ==> i <= i')
    && (forall j' :: BraceSpan(text, i, j') ==> j' <= j)
  }

  /** The greedy match, computed from the first '{' and the last '}'. */
  function JsonSpan(text: string): (r: Option<Span>)
    ensures r.None? <==> !exists i, j :: BraceSpan(text, i, j)
    ensures r.Some? ==> r.value.start < r.value.end <= |text|
    ensures r.Some? ==> text[r.value.start] == '{' && text[r.value.end - 1] == '}'
    ensures r.Some? ==> '{' !in text[..r.value.start] && '}' !in text[r.value.end..]
  {
    match IndexOf(text, '{')
    case None => None
    case Some(i) =>
      match LastIndexOf(text, '}')
      case None => None
      case Some(j) =>
        if i < j then
          assert BraceSpan(text, i, j);
          assert forall k :: 0 <= k < i ==> text[..i][k] == text[k];
          assert forall k :: j + 1 <= k < |text| ==> text[j + 1..][k - j - 1] == text[k];
          Some(Span(i, j + 1))
        else
          assert forall i', j' :: BraceSpan(text, i', j') ==> i <= i' && j' <= j;
          None
  }

  /** The text the regular expression matched. */
  function Matched(text: string, s: Span): string
    requires s.start <= s.end <= |text|
  {
    text[s.start..s.end]
  }

  /** The computed span is the regular expression's match, and the only one:
      leftmost start, longest from there. */
  lemma JsonSpanIsRegexMatch(text: string)
    ensures JsonSpan(text).Some? ==> RegexMatch(text, JsonSpan(text).value.start, JsonSpan(text).value.end - 1)
    ensures forall i, j :: RegexMatch(text, i, j) ==> i >= 0 && JsonSpan(text) == Some(Span(i, j + 1))
  {
  }

  /** Extraction finds no span exactly when no '}' follows the first '{'
      (a '{' further on has no '}' after it either). */
  lemma NoSpanIffFirstBraceUnclosed(text: string)
    ensures JsonSpan(text).None? <==>
      (IndexOf(text, '{').None? || '}' !in text[IndexOf(text, '{').value + 1..])
  {
    var f := IndexOf(text, '{');
    if f.Some? {
      var i := f.value;
      if '}' in text[i + 1..] {
        var k :| 0 <= k < |text[i + 1..]| && text[i + 1..][k] == '}';
        assert BraceSpan(text, i, i + 1 + k);
      }
    }
  }

  /** A property read on the parsed object: undefined when the key is absent. */
  function Get<V>(obj: map<string, V>, key: string): (r: Option<V>)
    ensures r.None? <==> key !in obj
    ensures r.Some? ==> r.value == obj[key]
  {
    if key in obj then Some(obj[key]) else None
  }

  /** The record built from the model's reply text. `parse` stands for
      JSON.parse: None when it throws, and otherwise the parsed object (the
      matched text starts with '{', so whatever parses is an object). */
  function ExtractFeedback<V>(dragonId: string, text: string, parse: string -> Option<map<string, V>>)
    : (r: Result<Feedback<V>, Failure>)
    ensures r.Failure? ==> r.error == NoJsonSpan || r.error == MalformedJson
    ensures r == Failure(NoJsonSpan) <==> !exists i, j :: BraceSpan(text, i, j)
    ensures JsonSpan(text).Some? ==>
      (r == Failure(MalformedJson) <==> parse(Matched(text, JsonSpan(text).value)).None?)
    ensures r.Success? ==> r.value.dragonId == dragonId
    ensures r.Success? ==>
      var obj := parse(Matched(text, JsonSpan(text).value)).value;
      && (r.value.rating.Some? <==> "rating" in obj)
      && ("rating" in obj ==> r.value.rating.value == obj["rating"])
      && (r.value.critique.Some? <==> "critique" in obj)
      && ("critique" in obj ==> r.value.critique.value == obj["critique"])
      && (r.value.question.Some? <==> "question" in obj)
      && ("question" in obj ==> r.value.question.value == obj["question"])
  {
    match JsonSpan(text)
    case None => Failure(NoJsonSpan)
    case Some(s) =>
      match parse(Matched(text, s))
      case None => Failure(MalformedJson)
      case Some(obj) =>
        Success(Feedback(dragonId, Get(obj, "rating"), Get(obj, "critique"), Get(obj, "question")))
  }

  /** A reply holding one brace-delimited object with prose around it that
      has no '{' before and no '}' after: the object is exactly what is
      matched. */
  lemma SurroundedSpan(pre: string, obj: string, post: string)
    requires |obj| >= 2 && obj[0] == '{' && obj[|obj| - 1] == '}'
    requires '{' !in pre && '}' !in post
    ensures var text := pre + obj + post;
      JsonSpan(text) == Some(Span(|pre|, |pre| + |obj|))
      && Matched(text, JsonSpan(text).value) == obj
  {
    var text := pre + obj + post;
    var i, j := |pre|, |pre| + |obj| - 1;
    assert text[i] == obj[0] && text[j] == obj[|obj| - 1];
    assert BraceSpan(text, i, j);
    assert RegexMatch(text, i, j);
    JsonSpanIsRegexMatch(text);
    assert text[i..j + 1] == obj;
  }

  /** With such a reply, a successful parse of the object gives the record
      of its three fields. */
  lemma SurroundedObject<V>(dragonId: string, pre: string, obj: string, post: string,
                            parse: string -> Option<map<string, V>>)
    requires |obj| >= 2 && obj[0] == '{' && obj[|obj| - 1] == '}'
    requires '{' !in pre && '}' !in post
    requires parse(obj).Some?
    ensures var m := parse(obj).value;
      ExtractFeedback(dragonId, pre + obj + post, parse)
        == Success(Feedback(dragonId, Get(m, "rating"), Get(m, "critique"), Get(m, "question")))
  {
    SurroundedSpan(pre, obj, post);
  }

  /** The known fragility: with two objects in the reply the match runs from
      the first object's '{' to the second's '}', swallowing the text between. */
  lemma GreedySpansTwoObjects(pre: string, a: string, mid: string, b: string, post: string)
    requires |a| >= 2 && a[0] == '{' && a[|a| - 1] == '}'
    requires |b| >= 2 && b[0] == '{' && b[|b| - 1] == '}'
    requires '{' !in pre && '}' !in post
    ensures var text := pre + a + mid + b + post;
      JsonSpan(text).Some? && Matched(text, JsonSpan(text).value) == a + mid + b
  {
    var whole := a + mid + b;
    assert whole[0] == '{' && whole[|whole| - 1] == '}';
    assert pre + a + mid + b + post == pre + whole + post;
    SurroundedSpan(pre, whole, post);
  }
}
