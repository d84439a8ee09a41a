/**
 * The sufficiency router of the query pipeline: a conditional router with two
 * routes, tried in order. The first sends the user's query on to the web search
 * when the generator's first reply, with its line feeds deleted, contains the
 * sentinel; the second passes the reply text through as the answer otherwise.
 */
module Router {
  import opened Strings
  import opened Sentinel

  /** A chat message produced by the generator; the router reads only its text. */
  datatype Reply = Reply(text: string)

  /** The router's two outputs: `go_web` carries the query, `answer` the reply text. */
  datatype Route = GoWeb(query: string) | Answer(text: string)

  /**
   * What the router yields for a list of replies: a route, or the failure raised
   * when its conditions cannot be evaluated because there is no first reply.
   */
  datatype RouterOutcome = Routed(route: Route) | ConditionFailed

  const LINE_FEED: char := '\n'

  /** The condition of the `go_web` route: the sentinel is in the reply once line feeds are gone. */
  predicate GoWebCondition(replyText: string): (b: bool)
    ensures b <==> IsSubstring(NO_ANSWER, RemoveChar(replyText, LINE_FEED))
  {
    Contains(RemoveChar(replyText, LINE_FEED), NO_ANSWER)
  }

  /** The condition of the `answer` route: the sentinel is not in the reply once line feeds are gone. */
  predicate AnswerCondition(replyText: string): (b: bool)
    ensures b <==> !IsSubstring(NO_ANSWER, RemoveChar(replyText, LINE_FEED))
  {
    !Contains(RemoveChar(replyText, LINE_FEED), NO_ANSWER)
  }

  /**
   * The route chosen for one reply text. The routes are tried in their listed
   * order and the first whose condition holds wins; the deletion of line feeds
   * is used for the test only and never changes the text that is emitted.
   */
  function Decide(replyText: string, query: string): (r: Route)
    ensures r.GoWeb? <==> IsSubstring(NO_ANSWER, RemoveChar(replyText, LINE_FEED))
    ensures r.GoWeb? ==> r.query == query
    ensures r.Answer? ==> r.text == replyText
  {
    if GoWebCondition(replyText) then GoWeb(query) else Answer(replyText)
  }

  /** The router run on the generator's replies: only the first reply is consulted. */
  function RouteReplies(replies: seq<Reply>, query: string): (o: RouterOutcome)
    ensures o.ConditionFailed? <==> replies == []
    ensures replies != [] ==>
      (o.route.GoWeb? <==> IsSubstring(NO_ANSWER, RemoveChar(replies[0].text, LINE_FEED)))
    ensures o.Routed? && o.route.GoWeb? ==> o.route.query == query
    ensures o.Routed? && o.route.Answer? ==> o.route.text == replies[0].text
  {
    if |replies| == 0 then ConditionFailed else Routed(Decide(replies[0].text, query))
  }

  /** The router's result as the pipeline reports it: the chosen output's name mapped to its value. */
  function Outputs(r: Route): (m: map<string, string>)
    ensures |m| == 1
    ensures "go_web" in m <==> r.GoWeb?
    ensures "answer" in m <==> r.Answer?
    ensures r.GoWeb? ==> m["go_web"] == r.query
    ensures r.Answer? ==> m["answer"] == r.text
  {
    match r
    case GoWeb(q) => map["go_web" := q]
    case Answer(t) => map["answer" := t]
  }

  /** The two conditions are exact negations: for every reply text exactly one route fires. */
  lemma ExactlyOneConditionHolds(replyText: string, query: string)
    ensures GoWebCondition(replyText) != AnswerCondition(replyText)
    ensures Decide(replyText, query).GoWeb? <==> GoWebCondition(replyText)
    ensures Decide(replyText, query).Answer? <==> AnswerCondition(replyText)
  {
  }

  /** Replies after the first never influence the route. */
  lemma OnlyFirstReplyCounts(first: Reply, rest: seq<Reply>, query: string)
    ensures RouteReplies([first] + rest, query) == Routed(Decide(first.text, query))
  {
  }

  /** A string made of line feeds only disappears when line feeds are deleted. */
  lemma {:induction false} LineFeedsVanish(n: string)
    requires forall j :: 0 <= j < |n| ==> n[j] == LINE_FEED
    ensures RemoveChar(n, LINE_FEED) == []
  {
    if n != [] {
      LineFeedsVanish(n[1..]);
    }
  }

  /** Inserting any run of line feeds anywhere in a reply never changes the route. */
  lemma {:induction false} LineFeedsIgnored(a: string, n: string, b: string, query: string)
    requires forall j :: 0 <= j < |n| ==> n[j] == LINE_FEED
    ensures RemoveChar(a + n + b, LINE_FEED) == RemoveChar(a + b, LINE_FEED)
    ensures Decide(a + n + b, query).GoWeb? == Decide(a + b, query).GoWeb?
  {
    LineFeedsVanish(n);
    RemoveCharAppend(a + n, b, LINE_FEED);
    RemoveCharAppend(a, n, LINE_FEED);
    RemoveCharAppend(a, b, LINE_FEED);
    assert RemoveChar(a + n, LINE_FEED) == RemoveChar(a, LINE_FEED);
  }

  /** The sentinel broken up by line feeds, with any text around it, still sends the query to the web. */
  lemma SentinelBrokenByLineFeedsGoesWeb(a: string, k: nat, n: string, b: string, query: string)
    requires k <= |NO_ANSWER|
    requires forall j :: 0 <= j < |n| ==> n[j] == LINE_FEED
    ensures Decide(a + NO_ANSWER[..k] + n + NO_ANSWER[k..] + b, query) == GoWeb(query)
  {
    var head, tail := a + NO_ANSWER[..k], NO_ANSWER[k..] + b;
    var whole := a + NO_ANSWER[..k] + n + NO_ANSWER[k..] + b;
    Regroup(a, NO_ANSWER[..k], n, NO_ANSWER[k..], b);
    LineFeedsIgnored(head, n, tail, query);
    Regroup(a, NO_ANSWER[..k], [], NO_ANSWER[k..], b);
    assert NO_ANSWER[..k] + [] + NO_ANSWER[k..] == NO_ANSWER;
    SentinelSurvivesLineFeedRemoval(a, b);
  }

  /** Concatenation regrouped around its middle part. */
  lemma Regroup(a: string, s1: string, n: string, s2: string, b: string)
    ensures a + s1 + n + s2 + b == (a + s1) + n + (s2 + b)
    ensures (a + s1) + (s2 + b) == a + (s1 + s2) + b
  {
  }

  /** Deleting line feeds from a text that spells out the sentinel keeps the sentinel. */
  lemma SentinelSurvivesLineFeedRemoval(a: string, b: string)
    ensures IsSubstring(NO_ANSWER, RemoveChar(a + NO_ANSWER + b, LINE_FEED))
  {
    var ra, rb := RemoveChar(a, LINE_FEED), RemoveChar(b, LINE_FEED);
    RemoveCharAppend(a + NO_ANSWER, b, LINE_FEED);
    RemoveCharAppend(a, NO_ANSWER, LINE_FEED);
    assert LINE_FEED !in NO_ANSWER;
    assert RemoveChar(a + NO_ANSWER + b, LINE_FEED) == ra + NO_ANSWER + rb;
    SubstringSelf(NO_ANSWER);
    SubstringOfAppend(NO_ANSWER, ra, NO_ANSWER);
    SubstringOfAppend(NO_ANSWER, ra + NO_ANSWER, rb);
  }

  /** No two neighbouring letters of the sentinel are equal. */
  lemma NoDoubledLetter()
    ensures forall j :: 0 <= j < |NO_ANSWER| - 1 ==> NO_ANSWER[j] != NO_ANSWER[j + 1]
  {
  }

  /** The sentinel with one character inserted at inner position `k`. */
  function InsertInSentinel(k: nat, x: char): string
    requires 0 < k < |NO_ANSWER|
  {
    NO_ANSWER[..k] + [x] + NO_ANSWER[k..]
  }

  /** The first window of the longer text is the sentinel only when `x` ends it after the last letter. */
  lemma FirstWindow(k: nat, x: char)
    requires 0 < k < |NO_ANSWER|
    ensures OccursAt(NO_ANSWER, InsertInSentinel(k, x), 0) <==> (k == |NO_ANSWER| - 1 && x == 'R')
  {
    var t := InsertInSentinel(k, x);
    NoDoubledLetter();
    assert t[k] == x;
    assert k + 1 < |NO_ANSWER| ==> t[k + 1] == NO_ANSWER[k];
    if OccursAt(NO_ANSWER, t, 0) {
      assert t[k] == NO_ANSWER[k];
      assert k == |NO_ANSWER| - 1;
    }
    if k == |NO_ANSWER| - 1 && x == 'R' {
      assert t[0..|NO_ANSWER|] == NO_ANSWER;
    }
  }

  /** The second window of the longer text is the sentinel only when `x` starts it before the first letter. */
  lemma SecondWindow(k: nat, x: char)
    requires 0 < k < |NO_ANSWER|
    ensures OccursAt(NO_ANSWER, InsertInSentinel(k, x), 1) <==> (k == 1 && x == 'N')
  {
    var t := InsertInSentinel(k, x);
    assert k > 1 ==> t[1] == NO_ANSWER[1];
    assert k == 1 ==> t[1] == x;
    if OccursAt(NO_ANSWER, t, 1) {
      assert t[1] == NO_ANSWER[0];
    }
    if k == 1 && x == 'N' {
      assert t[1..1 + |NO_ANSWER|] == NO_ANSWER;
    }
  }

  /**
   * The sentinel with one character inserted at an inner position sends the query
   * to the web exactly when that character is a line feed, or when it merely
   * repeats the first or last letter next to it so that the sentinel is still
   * spelled out whole; any other character leaves the reply an answer.
   */
  lemma SentinelSplitByOneCharacter(k: nat, x: char, query: string)
    requires 0 < k < |NO_ANSWER|
    ensures Decide(InsertInSentinel(k, x), query).GoWeb?
        <==> (x == LINE_FEED || (k == 1 && x == 'N') || (k == |NO_ANSWER| - 1 && x == 'R'))
  {
    var t := InsertInSentinel(k, x);
    if x == LINE_FEED {
      LineFeedInsertedGoesWeb(k, query);
    } else {
      NoLineFeedInserted(k, x);
      FirstWindow(k, x);
      SecondWindow(k, x);
      OneLongerWindows(NO_ANSWER, t);
    }
  }

  /** A single line feed inside the sentinel is deleted before the test. */
  lemma LineFeedInsertedGoesWeb(k: nat, query: string)
    requires 0 < k < |NO_ANSWER|
    ensures Decide(InsertInSentinel(k, LINE_FEED), query) == GoWeb(query)
  {
    SentinelBrokenByLineFeedsGoesWeb([], k, [LINE_FEED], [], query);
    assert [] + NO_ANSWER[..k] + [LINE_FEED] + NO_ANSWER[k..] + [] == InsertInSentinel(k, LINE_FEED);
  }

  /** With a character other than a line feed inserted, there is no line feed to delete. */
  lemma NoLineFeedInserted(k: nat, x: char)
    requires 0 < k < |NO_ANSWER| && x != LINE_FEED
    ensures RemoveChar(InsertInSentinel(k, x), LINE_FEED) == InsertInSentinel(k, x)
  {
    assert LINE_FEED !in NO_ANSWER;
    assert forall j :: 0 <= j < k ==> NO_ANSWER[..k][j] == NO_ANSWER[j];
    assert forall j :: 0 <= j < |NO_ANSWER| - k ==> NO_ANSWER[k..][j] == NO_ANSWER[k + j];
  }
}
