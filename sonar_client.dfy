/** The response classification of `SonarClient.search_async` in
    `api_clients/sonar_client.py`. The HTTP exchange is a parameter: what
    the server answered (a status with its text, or a parsed JSON object for
    status 200), a timeout, or another exception. */
module SonarClient {
  import opened Wrappers
  import opened Text
  import opened JsonValue

  /** What one request to the search API came to. */
  datatype Exchange =
    | Answered(result: map<string, Json>)
    | Refused(status: nat, text: string)
    | TimedOut
    | Raised(message: string)

  /** The dictionary `search_async` returns. `error` is optional because the
      consumers of the result read it with a default. */
  datatype SearchResult =
    | Found(query: string, content: Json, citations: Json)
    | Failed(query: string, error: Option<string>)

  const MissingChoices := "API响应格式错误：缺少choices"
  const MissingContent := "API响应格式错误：缺少content"
  /** Stands for the text of the `KeyError`, `IndexError` or `TypeError`
      that a malformed `choices` value makes Python raise. */
  const MalformedChoice := "malformed choices"

  /** Python `len(j)` on a JSON value; `None` where `len` raises. */
  function JsonLen(j: Json): Option<nat> {
    match j
    case JStr(s) => Some(|s|)
    case JArr(items) => Some(|items|)
    case JObj(fields) => Some(|fields|)
    case _ => None
  }

  /** The message of a non-200 answer: the status and at most 200
      characters of the body. */
  function StatusError(status: nat, text: string): string {
    "API错误 " + NatToString(status) + ": " + Take(text, 200)
  }

  /** Python `key in j` for a string key: a substring test on a string, an
      element test on a list, a key test on an object; `None` where `in`
      raises (a number, a boolean or `None`). */
  function Membership(key: string, j: Json): Option<bool> {
    match j
    case JStr(s) => Some(Contains(s, key))
    case JArr(items) => Some(JStr(key) in items)
    case JObj(fields) => Some(key in fields)
    case _ => None
  }

  /** `result["choices"][0]["message"]`; `None` where the lookup raises. */
  function FirstMessage(choices: Json): Option<Json> {
    if choices.JArr? && |choices.items| > 0 && choices.items[0].JObj?
       && "message" in choices.items[0].fields
    then Some(choices.items[0].fields["message"])
    else None
  }

  /** The result of an exception raised while the answer is read. */
  function Malformed(query: string): SearchResult {
    Failed(query, Some("异常: " + MalformedChoice))
  }

  /** The classification of a 200 answer. `message` may be any JSON value:
      `in` tests a string for a substring and a list for an element, so
      those reach the missing-content error unless a later lookup
      (`message["citations"]`, `message["content"]`) raises on them; a
      number, boolean or `None` makes the first `in` raise. An exception is
      caught like any other. Success needs an object message with content. */
  function Classify200(query: string, result: map<string, Json>): (r: SearchResult)
    ensures r.query == query
    ensures r.Failed? ==> r.error.Some?
    ensures r.Found? ==>
              "choices" in result && FirstMessage(result["choices"]).Some?
              && FirstMessage(result["choices"]).value.JObj?
              && "content" in FirstMessage(result["choices"]).value.fields
              && r.content == FirstMessage(result["choices"]).value.fields["content"]
  {
    if "choices" !in result || JsonLen(result["choices"]) == Some(0) then Failed(query, Some(MissingChoices))
    else
      match FirstMessage(result["choices"])
      case None => Malformed(query)
      case Some(message) =>
        // `"citations" in message` is evaluated only without top-level citations.
        var cited := if "citations" in result then Some(false) else Membership("citations", message);
        if cited.None? || (cited.value && !message.JObj?) then Malformed(query)
        else
          var citations :=
            if "citations" in result then result["citations"]
            else if cited.value then message.fields["citations"]
            else JArr([]);
          match Membership("content", message)
          case None => Malformed(query)
          case Some(present) =>
            if !present then Failed(query, Some(MissingContent))
            else if !message.JObj? then Malformed(query)
            else Found(query, message.fields["content"], citations)
  }

  /** `search_async`: every outcome, exceptions included, becomes a result. */
  function Search(query: string, exchange: Exchange): (r: SearchResult)
    ensures r.query == query
    ensures r.Failed? ==> r.error.Some?
    ensures r.Found? ==> exchange.Answered?
  {
    match exchange
    case Answered(result) => Classify200(query, result)
    case Refused(status, text) => Failed(query, Some(StatusError(status, text)))
    case TimedOut => Failed(query, Some("查询超时: " + Take(query, 50) + "..."))
    case Raised(message) => Failed(query, Some("异常: " + message))
  }

  /** `batch_search_async`: one result per query, result `i` for query `i`.
      Which exchange each query meets is the parameter `answer`. */
  function BatchSearch(queries: seq<string>, answer: nat -> Exchange): (r: seq<SearchResult>)
    ensures |r| == |queries|
    ensures forall i :: 0 <= i < |queries| ==> r[i] == Search(queries[i], answer(i)) && r[i].query == queries[i]
  {
    seq(|queries|, i requires 0 <= i < |queries| => Search(queries[i], answer(i)))
  }

  // ---------------------------------------------------------------------
  // Properties

  /** A refusal reports the status and a prefix of the body of at most 200
      characters. */
  lemma RefusalMessage(query: string, status: nat, text: string)
    ensures Search(query, Refused(status, text)).Failed?
    ensures var e := Search(query, Refused(status, text)).error.value;
            StartsWith(e, "API错误 " + NatToString(status) + ": ")
            && |e| <= |"API错误 " + NatToString(status) + ": "| + 200
            && StartsWith(text, e[|"API错误 " + NatToString(status) + ": "|..])
  {
    var head := "API错误 " + NatToString(status) + ": ";
    var e := head + Take(text, 200);
    assert e[..|head|] == head;
    assert e[|head|..] == Take(text, 200);
  }

  /** A 200 answer without choices, or with an empty list of them, fails. */
  lemma NoChoicesFails(query: string, result: map<string, Json>)
    requires "choices" !in result || result["choices"] == JArr([])
    ensures Search(query, Answered(result)) == Failed(query, Some(MissingChoices))
  {
  }

  /** A well-formed answer: the content is returned, with the top-level
      citations if there are any, else the message's, else none. */
  lemma WellFormedAnswer(query: string, result: map<string, Json>, message: map<string, Json>, rest: seq<Json>)
    requires "choices" in result && result["choices"] == JArr([JObj(map["message" := JObj(message)])] + rest)
    requires "content" in message
    ensures Search(query, Answered(result)) ==
            Found(query, message["content"],
                  if "citations" in result then result["citations"]
                  else if "citations" in message then message["citations"]
                  else JArr([]))
  {
    var m := map["message" := JObj(message)];
    assert ([JObj(m)] + rest)[0] == JObj(m);
  }

  /** Top-level citations win over the message's own. */
  lemma TopLevelCitationsWin(query: string, result: map<string, Json>)
    requires "citations" in result
    requires Search(query, Answered(result)).Found?
    ensures Search(query, Answered(result)).citations == result["citations"]
  {
  }

  /** A message without content fails even when it has citations. */
  lemma MissingContentFails(query: string, result: map<string, Json>, message: map<string, Json>)
    requires "choices" in result && result["choices"] == JArr([JObj(map["message" := JObj(message)])])
    requires "content" !in message
    ensures Search(query, Answered(result)) == Failed(query, Some(MissingContent))
  {
    assert [JObj(map["message" := JObj(message)])][0] == JObj(map["message" := JObj(message)]);
  }

  /** Only a 200 answer can succeed: refusals, timeouts and exceptions all
      become error results carrying a message, and none escapes. A timeout's
      message quotes at most the first 50 characters of the query. */
  lemma OnlyAnswersSucceed(query: string, exchange: Exchange)
    requires !exchange.Answered?
    ensures Search(query, exchange).Failed? && Search(query, exchange).error.Some?
    ensures exchange.TimedOut? ==>
              var e := Search(query, exchange).error.value;
              |e| <= |"查询超时: "| + 50 + 3 && StartsWith(query, e[|"查询超时: "|..|e| - 3])
  {
    if exchange.TimedOut? {
      var e := "查询超时: " + Take(query, 50) + "...";
      assert e[|"查询超时: "|..|e| - 3] == Take(query, 50);
    }
  }

  /** A string message is searched for substrings: without "content" (and
      without "citations" where its citations are looked up) the answer
      fails with the missing-content error, not an exception. */
  lemma TextMessageMissingContent(query: string, result: map<string, Json>, text: string, rest: seq<Json>)
    requires "choices" in result && result["choices"] == JArr([JObj(map["message" := JStr(text)])] + rest)
    requires !Contains(text, "content")
    requires "citations" in result || !Contains(text, "citations")
    ensures Search(query, Answered(result)) == Failed(query, Some(MissingContent))
  {
    var m := map["message" := JStr(text)];
    assert ([JObj(m)] + rest)[0] == JObj(m);
  }

  /** A list message is searched for elements: without the element
      "content" the answer fails with the missing-content error. */
  lemma ListMessageMissingContent(query: string, result: map<string, Json>, items: seq<Json>, rest: seq<Json>)
    requires "choices" in result && result["choices"] == JArr([JObj(map["message" := JArr(items)])] + rest)
    requires JStr("content") !in items
    requires "citations" in result || JStr("citations") !in items
    ensures Search(query, Answered(result)) == Failed(query, Some(MissingContent))
  {
    var m := map["message" := JArr(items)];
    assert ([JObj(m)] + rest)[0] == JObj(m);
  }

  /** A string message that does contain "content" passes the test, and
      indexing it with `"content"` then raises. */
  lemma TextMessageWithContentRaises(query: string, result: map<string, Json>, text: string, rest: seq<Json>)
    requires "choices" in result && result["choices"] == JArr([JObj(map["message" := JStr(text)])] + rest)
    requires Contains(text, "content")
    ensures Search(query, Answered(result)) == Failed(query, Some("异常: " + MalformedChoice))
  {
    var m := map["message" := JStr(text)];
    assert ([JObj(m)] + rest)[0] == JObj(m);
  }

  /** A number, boolean or `None` as the message makes the membership
      test raise. */
  lemma ScalarMessageRaises(query: string, result: map<string, Json>, message: Json, rest: seq<Json>)
    requires "choices" in result && result["choices"] == JArr([JObj(map["message" := message])] + rest)
    requires message.JNull? || message.JBool? || message.JNum?
    ensures Search(query, Answered(result)) == Failed(query, Some("异常: " + MalformedChoice))
  {
    var m := map["message" := message];
    assert ([JObj(m)] + rest)[0] == JObj(m);
  }
}
