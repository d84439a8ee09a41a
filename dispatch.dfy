/**
 * The entry point that turns one run of the query pipeline into the text shown
 * to the user. The run itself (embedding, retrieval, generation, web search) is
 * an input here: it either raised an exception, given by its message, or
 * completed with the per-component outputs. The router's outputs are read
 * first for `answer`, then for `go_web`; anything else is a fixed failure text,
 * and an `Exception` raised by the run becomes an error text.
 */
module QueryDispatch {
  import opened Router

  /** How one pipeline run ended: an exception's message, or each component's named outputs. */
  datatype PipelineRun =
    | Raised(message: string)
    | Completed(result: map<string, map<string, string>>)

  const WEB_REDIRECT_PREFIX: string := "Web taramasına yönlendirildi: "
  const NO_RESPONSE: string := "Yanıt üretilemedi. LLM yeterli bilgi bulamadı veya yönlendirme gerçekleşmedi."
  const ERROR_PREFIX: string := "Hata: "

  /** `result.get("router", {})`: the router's outputs, or none when the router reported nothing. */
  function RouterResult(result: map<string, map<string, string>>): map<string, string> {
    if "router" in result then result["router"] else map[]
  }

  /**
   * The text the user is shown for one pipeline run. It never makes text up: a
   * raised run shows the error prefix followed by the message; a completed run
   * shows one of the router's values, the redirect prefix followed by one of
   * them, or the fixed failure text.
   */
  function ProcessQuery(run: PipelineRun): (shown: string)
    ensures run.Raised? ==>
      |ERROR_PREFIX| <= |shown| && shown[..|ERROR_PREFIX|] == ERROR_PREFIX && shown[|ERROR_PREFIX|..] == run.message
    ensures run.Completed? ==>
      var values := RouterResult(run.result).Values;
      shown == NO_RESPONSE || shown in values
      || (|WEB_REDIRECT_PREFIX| <= |shown| && shown[..|WEB_REDIRECT_PREFIX|] == WEB_REDIRECT_PREFIX
          && shown[|WEB_REDIRECT_PREFIX|..] in values)
  {
    match run
    case Raised(message) => ERROR_PREFIX + message
    case Completed(result) =>
      var outputs := RouterResult(result);
      if "answer" in outputs then outputs["answer"]
      else if "go_web" in outputs then WEB_REDIRECT_PREFIX + outputs["go_web"]
      else NO_RESPONSE
  }

  /** An answer from the router is shown verbatim, even when a `go_web` output is present as well. */
  lemma AnswerTakesPriority(result: map<string, map<string, string>>)
    requires "router" in result && "answer" in result["router"]
    ensures ProcessQuery(Completed(result)) == result["router"]["answer"]
  {
  }

  /** Without an answer, a `go_web` output is shown as the redirect prefix followed by its value. */
  lemma RedirectIsPrefixed(result: map<string, map<string, string>>)
    requires "router" in result && "answer" !in result["router"] && "go_web" in result["router"]
    ensures var shown := ProcessQuery(Completed(result));
      |shown| == |WEB_REDIRECT_PREFIX| + |result["router"]["go_web"]|
      && shown[..|WEB_REDIRECT_PREFIX|] == WEB_REDIRECT_PREFIX
      && shown[|WEB_REDIRECT_PREFIX|..] == result["router"]["go_web"]
  {
    var shown := ProcessQuery(Completed(result));
    assert shown == WEB_REDIRECT_PREFIX + result["router"]["go_web"];
  }

  /** Without either output, or with no router outputs at all, the fixed failure text is shown. */
  lemma NoRouteGivesFailureText(result: map<string, map<string, string>>)
    requires "router" !in result || ("answer" !in result["router"] && "go_web" !in result["router"])
    ensures ProcessQuery(Completed(result)) == NO_RESPONSE
  {
  }

  /** Every `Exception` raised by the run is caught and shown as the error prefix followed by its message. */
  lemma ExceptionIsShown(message: string)
    ensures var shown := ProcessQuery(Raised(message));
      |shown| == |ERROR_PREFIX| + |message|
      && shown[..|ERROR_PREFIX|] == ERROR_PREFIX && shown[|ERROR_PREFIX|..] == message
  {
    var shown := ProcessQuery(Raised(message));
    assert shown == ERROR_PREFIX + message;
  }

  /**
   * Only the router's outputs decide what is shown: the other components'
   * outputs in the run's result never change it.
   */
  lemma OnlyRouterOutputsMatter(result: map<string, map<string, string>>, other: map<string, map<string, string>>)
    requires "router" in result <==> "router" in other
    requires "router" in result ==> result["router"] == other["router"]
    ensures ProcessQuery(Completed(result)) == ProcessQuery(Completed(other))
  {
  }

  /**
   * A run whose router took a route shows what that route carries: the reply
   * text as the answer when the sentinel is absent, and the redirect prefix
   * followed by the user's query, not the reply, when it is present.
   */
  lemma RoutedRunShows(result: map<string, map<string, string>>, replyText: string, query: string)
    requires "router" in result && result["router"] == Outputs(Decide(replyText, query))
    ensures GoWebCondition(replyText) ==> ProcessQuery(Completed(result)) == WEB_REDIRECT_PREFIX + query
    ensures !GoWebCondition(replyText) ==> ProcessQuery(Completed(result)) == replyText
  {
  }
}
