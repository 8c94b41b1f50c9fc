/**
 * The Lambda that joins the passages the knowledge base retrieved from the underwriting manual
 * into one text: each passage followed by a space, in the order retrieved.
 */
module CombineRetrievedInformation {
  import opened Wrappers
  import opened Json
  import opened Strings
  import opened LambdaEvent

  const FAILURE_BODY := "FAILURE"

  /**
   * What `for result in retrieval_results` visits. A list yields its elements. A dict yields its
   * keys and a string its characters; both are strings, which `result['Content']` rejects, so
   * only an empty dict or string gets through the loop. Anything else is not iterable.
   */
  function Iterated(v: Json): Option<seq<Json>>
  {
    match v
    case Arr(items) => Some(items)
    case Obj(m) => if |m| == 0 then Some([]) else None
    case Str(s) => if s == "" then Some([]) else None
    case _ => None
  }

  /** `result['Content']['Text']`, which must be a string for `+ ' '` to work. */
  function PassageText(result: Json): Option<string>
  {
    StrValue(Key(Key(Some(result), "Content"), "Text"))
  }

  /** The texts of all results, or `None` as soon as one of them has none. */
  function Texts(results: seq<Json>): (r: Option<seq<string>>)
    ensures r.Some? ==> |r.value| == |results|
  {
    if results == [] then Some([])
    else
      var init :- Texts(results[..|results| - 1]);
      var last :- PassageText(results[|results| - 1]);
      Some(init + [last])
  }

  /** Each text followed by one space, in order. */
  function Combined(texts: seq<string>): string
  {
    if texts == [] then "" else Combined(texts[..|texts| - 1]) + texts[|texts| - 1] + " "
  }

  /** The body the handler answers with, or `None` when it raises. */
  function CombinedBody(event: Json): Option<string>
  {
    var retrievalResults :- Key(Some(event), "RetrievalResults");
    var results :- Iterated(retrievalResults);
    var texts :- Texts(results);
    Some(Combined(texts))
  }

  lemma {:induction false} TextsPrefixFails(results: seq<Json>, n: nat)
    requires n <= |results| && Texts(results[..n]).None?
    ensures Texts(results).None?
    decreases |results| - n
  {
    if n < |results| {
      assert results[..n + 1][..n] == results[..n];
      TextsPrefixFails(results, n + 1);
    } else {
      assert results[..n] == results;
    }
  }

  /** `lambda_handler(event, context)`. */
  method LambdaHandler(event: Json) returns (response: Response)
    ensures CombinedBody(event).Some? ==> response == Response(200, CombinedBody(event).value)
    ensures CombinedBody(event).None? ==> response == Response(500, FAILURE_BODY)
  {
    var retrievalResults := Key(Some(event), "RetrievalResults");
    if retrievalResults.None? {
      return Response(500, FAILURE_BODY);
    }
    var results := Iterated(retrievalResults.value);
    if results.None? {
      return Response(500, FAILURE_BODY);
    }
    var items := results.value;
    var combinedContent := "";
    ghost var texts: seq<string> := [];
    for i := 0 to |items|
      invariant Texts(items[..i]) == Some(texts)
      invariant combinedContent == Combined(texts)
    {
      assert items[..i + 1][..i] == items[..i];
      var text := PassageText(items[i]);
      if text.None? {
        TextsPrefixFails(items, i + 1);
        return Response(500, FAILURE_BODY);
      }
      combinedContent := combinedContent + text.value + " ";
      texts := texts + [text.value];
    }
    assert items[..|items|] == items;
    response := Response(200, combinedContent);
  }

  function TotalLength(texts: seq<string>): nat
  {
    if texts == [] then 0 else TotalLength(texts[..|texts| - 1]) + |texts[|texts| - 1]|
  }

  /** The body is as long as all texts together plus one space per result. */
  lemma {:induction false} CombinedLength(texts: seq<string>)
    ensures |Combined(texts)| == TotalLength(texts) + |texts|
  {
    if texts != [] {
      CombinedLength(texts[..|texts| - 1]);
    }
  }

  /** No results give the empty body; otherwise the body ends in a space. */
  lemma CombinedEnding(texts: seq<string>)
    ensures texts == [] <==> Combined(texts) == ""
    ensures texts != [] ==> Combined(texts)[|Combined(texts)| - 1] == ' '
  {
  }

  /** The body is the texts joined with single spaces, with one more space at the end. */
  lemma {:induction false} CombinedIsJoin(texts: seq<string>)
    requires texts != []
    ensures Combined(texts) == Join(" ", texts) + " "
    decreases |texts|
  {
    var n := |texts| - 1;
    if n > 0 {
      CombinedIsJoin(texts[..n]);
      JoinSnoc(" ", texts[..n], texts[n]);
      assert texts[..n] + [texts[n]] == texts;
    }
  }

  lemma {:induction false} JoinSnoc(sep: string, parts: seq<string>, last: string)
    requires parts != []
    ensures Join(sep, parts + [last]) == Join(sep, parts) + sep + last
    decreases |parts|
  {
    if |parts| > 1 {
      JoinSnoc(sep, parts[1..], last);
      assert (parts + [last])[1..] == parts[1..] + [last];
    } else {
      assert (parts + [last])[1..] == [last];
    }
  }

  /**
   * Whether the handler succeeds: `RetrievalResults` must be present and iterable, and every
   * result must carry a string `Content.Text`; a list of such results always succeeds.
   */
  lemma {:induction false} CombinedBodyOfList(event: Json, results: seq<Json>)
    requires Key(Some(event), "RetrievalResults") == Some(Arr(results))
    ensures CombinedBody(event).Some? <==> forall i | 0 <= i < |results| :: PassageText(results[i]).Some?
    ensures CombinedBody(event).Some? ==> CombinedBody(event).value == Combined(Texts(results).value)
  {
    TextsSucceed(results);
  }

  lemma {:induction false} TextsSucceed(results: seq<Json>)
    ensures Texts(results).Some? <==> forall i | 0 <= i < |results| :: PassageText(results[i]).Some?
    ensures Texts(results).Some? ==> forall i | 0 <= i < |results| :: Texts(results).value[i] == PassageText(results[i]).value
    decreases |results|
  {
    if results != [] {
      var n := |results| - 1;
      TextsSucceed(results[..n]);
      assert forall i | 0 <= i < n :: results[..n][i] == results[i];
    }
  }
}
