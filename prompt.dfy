/**
 * The prompt composer of the query pipeline: a chat-prompt template with two
 * branches. When web documents are supplied (a non-empty list) the web branch
 * renders the query and, for every web document, a separator, its link and its
 * content; otherwise the local branch renders the query and, for every retrieved
 * document, a separator and its content. Both branches tell the model to answer
 * with the sentinel when the context is not enough.
 *
 * A rendered prompt is modelled as a sequence of segments: fixed instruction
 * text of the template, the sentinel inside that text, the query, and the
 * per-document pieces. The template engine's exact line layout is not modelled;
 * `Render` joins the segments into one text.
 */
module PromptTemplate {
  import opened Strings
  import opened Sentinel

  datatype Option<T> = None | Some(value: T)

  /** A document handed to the template: its text and its metadata. */
  datatype Document = Document(content: string, meta: map<string, string>)

  /** One piece of a rendered prompt. */
  datatype Segment =
    | Text(text: string)       // fixed instruction text of the template
    | Marker                   // the sentinel, spelled out inside an instruction line
    | Query(query: string)     // the user's question
    | Separator                // the `---` line that opens every document
    | Link(url: string)        // the `**URL:**` line of a web document
    | Content(content: string) // a document's content

  type Prompt = seq<Segment>

  /** The outcome of the prompt builder, which refuses to render without its required `query`. */
  datatype BuildResult = Built(prompt: Prompt) | MissingQuery

  // Fixed text of the web branch, cut where the query and the sentinel are interpolated.
  const WEB_INTRO: string :=
    "You are an expert AI assistant focused on technical questions about Python libraries such as "
    + "Pandas, NumPy, TensorFlow, PyTorch, LangChain, and Haystack.\n\n"
    + "A user has asked the following question:\n**\""
  const WEB_TASK: string :=
    "\"**\n\nYou are given web-retrieved documents that may help. Your goal is:\n\n"
    + "- If the user asks a code-related question, provide:\n"
    + "  - A **short but functional Python code snippet**\n"
    + "  - A **step-by-step explanation** of how it works\n"
    + "- Otherwise, provide a clear, accurate technical answer.\n"
    + "- Use only the content in the documents.\n"
    + "- If useful, include source links from the documents.\n"
    + "- If there is not enough context, respond with `"
  const WEB_CONTEXT_HEADER: string := "`.\n\n**Web Context:**\n"

  // Fixed text of the local branch, cut the same way.
  const LOCAL_INTRO: string :=
    "You are an AI assistant for answering detailed technical questions about libraries like "
    + "Pandas, NumPy, TensorFlow, PyTorch, LangChain, and Haystack.\n\n"
    + "Here is the user's question:\n**\""
  const LOCAL_DOCUMENTS_HEADER: string :=
    "\"**\n\nBelow are documents retrieved from the internal documentation.\n\n**Documents:**\n"
  const LOCAL_INSTRUCTIONS: string :=
    "\n**Instructions:**\n"
    + "- If the question includes code or syntax, return:\n"
    + "  - A working Python example\n"
    + "  - An explanation of how and when to use it\n"
    + "- Otherwise, answer clearly and directly.\n"
    + "- Do not guess or invent answers. Say `"
  const LOCAL_TAIL: string := "` if unsure.\n"

  /** `document.meta.link`: an absent key renders as the empty text. */
  function LinkOf(d: Document): string {
    if "link" in d.meta then d.meta["link"] else ""
  }

  /** The loop over web documents: separator, link, content, in list order. */
  function WebBlocks(docs: seq<Document>): (p: Prompt)
    ensures |p| == 3 * |docs|
    ensures forall i :: 0 <= i < |p| ==> p[i].Separator? || p[i].Link? || p[i].Content?
  {
    if docs == [] then []
    else [Separator, Link(LinkOf(docs[0])), Content(docs[0].content)] + WebBlocks(docs[1..])
  }

  /** The loop over retrieved documents: separator, content, in list order. */
  function LocalBlocks(docs: seq<Document>): (p: Prompt)
    ensures |p| == 2 * |docs|
    ensures forall i :: 0 <= i < |p| ==> p[i].Separator? || p[i].Content?
  {
    if docs == [] then []
    else [Separator, Content(docs[0].content)] + LocalBlocks(docs[1..])
  }

  /** The k-th web document is rendered at positions 3k, 3k+1 and 3k+2 of the web loop. */
  lemma {:induction false} WebBlockAt(docs: seq<Document>, k: nat)
    requires k < |docs|
    ensures var p := WebBlocks(docs);
      p[3 * k] == Separator && p[3 * k + 1] == Link(LinkOf(docs[k])) && p[3 * k + 2] == Content(docs[k].content)
  {
    if k > 0 {
      WebBlockAt(docs[1..], k - 1);
      assert docs[1..][k - 1] == docs[k];
    }
  }

  /** The k-th retrieved document is rendered at positions 2k and 2k+1 of the local loop. */
  lemma {:induction false} LocalBlockAt(docs: seq<Document>, k: nat)
    requires k < |docs|
    ensures var p := LocalBlocks(docs);
      p[2 * k] == Separator && p[2 * k + 1] == Content(docs[k].content)
  {
    if k > 0 {
      LocalBlockAt(docs[1..], k - 1);
      assert docs[1..][k - 1] == docs[k];
    }
  }

  /**
   * The web branch of the template: its own opening text, the query right after
   * it, the sentinel instruction, then three segments per web document.
   */
  function WebPrompt(query: string, webDocuments: seq<Document>): (p: Prompt)
    ensures IsWebPrompt(p) && !IsLocalPrompt(p)
    ensures |p| == 5 + 3 * |webDocuments|
    ensures p[1] == Query(query) && p[3] == Marker
  {
    assert |WEB_INTRO| != |LOCAL_INTRO|;
    [Text(WEB_INTRO), Query(query), Text(WEB_TASK), Marker, Text(WEB_CONTEXT_HEADER)] + WebBlocks(webDocuments)
  }

  /**
   * The local branch of the template: its own opening text, the query right
   * after it, two segments per retrieved document, then the sentinel instruction
   * second from the end, just before the closing text.
   */
  function LocalPrompt(query: string, documents: seq<Document>): (p: Prompt)
    ensures IsLocalPrompt(p) && !IsWebPrompt(p)
    ensures |p| == 6 + 2 * |documents|
    ensures p[1] == Query(query) && p[|p| - 2] == Marker
  {
    assert |WEB_INTRO| != |LOCAL_INTRO|;
    [Text(LOCAL_INTRO), Query(query), Text(LOCAL_DOCUMENTS_HEADER)]
    + LocalBlocks(documents)
    + [Text(LOCAL_INSTRUCTIONS), Marker, Text(LOCAL_TAIL)]
  }

  /**
   * The template: a non-empty list of web documents selects the web branch, and
   * an empty one (or none supplied) the local branch.
   */
  function Compose(query: string, documents: seq<Document>, webDocuments: seq<Document>): (p: Prompt)
    ensures IsWebPrompt(p) <==> |webDocuments| > 0
    ensures IsLocalPrompt(p) <==> |webDocuments| == 0
  {
    if |webDocuments| > 0 then WebPrompt(query, webDocuments) else LocalPrompt(query, documents)
  }

  /** The prompt builder: `query` is a required variable, the document lists are optional. */
  function Build(query: Option<string>, documents: seq<Document>, webDocuments: seq<Document>): (b: BuildResult)
    ensures b.MissingQuery? <==> query.None?
    ensures b.Built? ==> b.prompt == Compose(query.value, documents, webDocuments)
    ensures b.Built? ==> (IsWebPrompt(b.prompt) <==> |webDocuments| > 0)
    ensures b.Built? ==>
      IsSubstring(query.value, Render(b.prompt)) && IsSubstring(NO_ANSWER, Render(b.prompt))
  {
    match query
    case None => MissingQuery
    case Some(q) =>
      RenderedPromptMentionsQueryAndSentinel(q, documents, webDocuments);
      Built(Compose(q, documents, webDocuments))
  }

  // ---- Observers of a rendered prompt, used to state what the template promises ----

  /** The prompt was rendered from the web branch: it opens with that branch's text. */
  predicate IsWebPrompt(p: Prompt) {
    |p| > 0 && p[0] == Text(WEB_INTRO)
  }

  /** The prompt was rendered from the local branch. */
  predicate IsLocalPrompt(p: Prompt) {
    |p| > 0 && p[0] == Text(LOCAL_INTRO)
  }

  /** The contents of the prompt's document segments, in order. */
  function ContentsOf(p: Prompt): seq<string> {
    if p == [] then []
    else (if p[0].Content? then [p[0].content] else []) + ContentsOf(p[1..])
  }

  /** The links of the prompt's link segments, in order. */
  function LinksOf(p: Prompt): seq<string> {
    if p == [] then []
    else (if p[0].Link? then [p[0].url] else []) + LinksOf(p[1..])
  }

  /** The text one segment contributes. */
  function RenderSegment(s: Segment): string {
    match s
    case Text(t) => t
    case Marker => NO_ANSWER
    case Query(q) => q
    case Separator => "---\n"
    case Link(u) => "**URL:** " + u + "\n"
    case Content(c) => c + "\n"
  }

  /** The prompt as one text, in which the text of every segment appears. */
  function Render(p: Prompt): (r: string)
    ensures forall i :: 0 <= i < |p| ==> IsSubstring(RenderSegment(p[i]), r)
  {
    if p == [] then []
    else
      var first, rest := RenderSegment(p[0]), Render(p[1..]);
      assert forall i :: 0 <= i < |p| ==> IsSubstring(RenderSegment(p[i]), first + rest) by {
        SubstringSelf(first);
        SubstringOfAppend(first, first, rest);
        forall i | 1 <= i < |p| ensures IsSubstring(RenderSegment(p[i]), first + rest) {
          assert p[1..][i - 1] == p[i];
          SubstringOfAppend(RenderSegment(p[i]), first, rest);
        }
      }
      first + rest
  }

  // ---- Lemmas about the observers ----

  lemma {:induction false} ContentsOfAppend(a: Prompt, b: Prompt)
    ensures ContentsOf(a + b) == ContentsOf(a) + ContentsOf(b)
  {
    if a == [] {
      assert a + b == b;
    } else {
      assert (a + b)[1..] == a[1..] + b;
      ContentsOfAppend(a[1..], b);
    }
  }

  lemma {:induction false} LinksOfAppend(a: Prompt, b: Prompt)
    ensures LinksOf(a + b) == LinksOf(a) + LinksOf(b)
  {
    if a == [] {
      assert a + b == b;
    } else {
      assert (a + b)[1..] == a[1..] + b;
      LinksOfAppend(a[1..], b);
    }
  }

  /** The contents and links of a one-segment prompt. */
  lemma ObserveOne(s: Segment)
    ensures ContentsOf([s]) == if s.Content? then [s.content] else []
    ensures LinksOf([s]) == if s.Link? then [s.url] else []
  {
    assert [s][1..] == [];
  }

  /** A prompt without document segments has no contents. */
  lemma {:induction false} ContentsOfNone(p: Prompt)
    requires forall i :: 0 <= i < |p| ==> !p[i].Content?
    ensures ContentsOf(p) == []
  {
    if p != [] {
      ContentsOfNone(p[1..]);
    }
  }

  /** A prompt without link segments has no links. */
  lemma {:induction false} LinksOfNone(p: Prompt)
    requires forall i :: 0 <= i < |p| ==> !p[i].Link?
    ensures LinksOf(p) == []
  {
    if p != [] {
      LinksOfNone(p[1..]);
    }
  }

  /** The contents and links of one web document's block. */
  lemma WebBlockObserved(d: Document)
    ensures ContentsOf([Separator, Link(LinkOf(d)), Content(d.content)]) == [d.content]
    ensures LinksOf([Separator, Link(LinkOf(d)), Content(d.content)]) == [LinkOf(d)]
  {
    var head: Prompt := [Separator, Link(LinkOf(d)), Content(d.content)];
    assert head == [head[0]] + ([head[1]] + [head[2]]);
    ObserveOne(head[0]);
    ObserveOne(head[1]);
    ObserveOne(head[2]);
    ContentsOfAppend([head[1]], [head[2]]);
    LinksOfAppend([head[1]], [head[2]]);
    ContentsOfAppend([head[0]], [head[1]] + [head[2]]);
    LinksOfAppend([head[0]], [head[1]] + [head[2]]);
  }

  /** The contents and links of one retrieved document's block. */
  lemma LocalBlockObserved(d: Document)
    ensures ContentsOf([Separator, Content(d.content)]) == [d.content]
    ensures LinksOf([Separator, Content(d.content)]) == []
  {
    var head: Prompt := [Separator, Content(d.content)];
    assert head == [head[0]] + [head[1]];
    ObserveOne(head[0]);
    ObserveOne(head[1]);
    ContentsOfAppend([head[0]], [head[1]]);
    LinksOfAppend([head[0]], [head[1]]);
  }

  /** The contents and links of the web loop are those of its documents, each once and in order. */
  lemma {:induction false} WebBlocksObserved(docs: seq<Document>)
    ensures |ContentsOf(WebBlocks(docs))| == |docs| && |LinksOf(WebBlocks(docs))| == |docs|
    ensures forall k :: 0 <= k < |docs| ==>
      ContentsOf(WebBlocks(docs))[k] == docs[k].content && LinksOf(WebBlocks(docs))[k] == LinkOf(docs[k])
  {
    if docs != [] {
      var head: Prompt := [Separator, Link(LinkOf(docs[0])), Content(docs[0].content)];
      var rest := WebBlocks(docs[1..]);
      assert WebBlocks(docs) == head + rest;
      WebBlocksObserved(docs[1..]);
      WebBlockObserved(docs[0]);
      ContentsOfAppend(head, rest);
      LinksOfAppend(head, rest);
      assert ContentsOf(WebBlocks(docs)) == [docs[0].content] + ContentsOf(rest);
      assert LinksOf(WebBlocks(docs)) == [LinkOf(docs[0])] + LinksOf(rest);
      forall k | 1 <= k < |docs|
        ensures ContentsOf(WebBlocks(docs))[k] == docs[k].content && LinksOf(WebBlocks(docs))[k] == LinkOf(docs[k])
      {
        assert docs[k] == docs[1..][k - 1];
      }
    }
  }

  /** The contents of the local loop are those of its documents, each once and in order; it has no links. */
  lemma {:induction false} LocalBlocksObserved(docs: seq<Document>)
    ensures |ContentsOf(LocalBlocks(docs))| == |docs|
    ensures forall k :: 0 <= k < |docs| ==> ContentsOf(LocalBlocks(docs))[k] == docs[k].content
    ensures LinksOf(LocalBlocks(docs)) == []
  {
    if docs != [] {
      var head: Prompt := [Separator, Content(docs[0].content)];
      var rest := LocalBlocks(docs[1..]);
      assert LocalBlocks(docs) == head + rest;
      LocalBlocksObserved(docs[1..]);
      LocalBlockObserved(docs[0]);
      ContentsOfAppend(head, rest);
      LinksOfAppend(head, rest);
      assert ContentsOf(LocalBlocks(docs)) == [docs[0].content] + ContentsOf(rest);
      forall k | 1 <= k < |docs| ensures ContentsOf(LocalBlocks(docs))[k] == docs[k].content {
        assert docs[k] == docs[1..][k - 1];
      }
    }
  }

  // ---- What the template promises ----

  /**
   * The web branch: the retrieved documents play no part, and every web document
   * appears once, in list order, as a separator, then its link, then its content.
   */
  lemma {:induction false} WebBranchLayout(query: string, documents: seq<Document>, other: seq<Document>, webDocuments: seq<Document>)
    requires |webDocuments| > 0
    ensures Compose(query, documents, webDocuments) == Compose(query, other, webDocuments)
    ensures var p := Compose(query, documents, webDocuments);
      |p| == 5 + 3 * |webDocuments| &&
      forall k :: 0 <= k < |webDocuments| ==>
        p[5 + 3 * k] == Separator && p[6 + 3 * k] == Link(LinkOf(webDocuments[k]))
        && p[7 + 3 * k] == Content(webDocuments[k].content)
    ensures var p := Compose(query, documents, webDocuments);
      |ContentsOf(p)| == |webDocuments| && |LinksOf(p)| == |webDocuments| &&
      forall k :: 0 <= k < |webDocuments| ==>
        ContentsOf(p)[k] == webDocuments[k].content && LinksOf(p)[k] == LinkOf(webDocuments[k])
  {
    WebBranchPositions(query, webDocuments);
    WebBranchObserved(query, webDocuments);
  }

  lemma WebBranchPositions(query: string, webDocuments: seq<Document>)
    ensures var p := WebPrompt(query, webDocuments);
      |p| == 5 + 3 * |webDocuments| &&
      forall k :: 0 <= k < |webDocuments| ==>
        p[5 + 3 * k] == Separator && p[6 + 3 * k] == Link(LinkOf(webDocuments[k]))
        && p[7 + 3 * k] == Content(webDocuments[k].content)
  {
    var head: Prompt := [Text(WEB_INTRO), Query(query), Text(WEB_TASK), Marker, Text(WEB_CONTEXT_HEADER)];
    var blocks := WebBlocks(webDocuments);
    var p := head + blocks;
    forall k | 0 <= k < |webDocuments|
      ensures p[5 + 3 * k] == Separator && p[6 + 3 * k] == Link(LinkOf(webDocuments[k]))
        && p[7 + 3 * k] == Content(webDocuments[k].content)
    {
      WebBlockAt(webDocuments, k);
      assert p[5 + 3 * k] == blocks[3 * k] && p[6 + 3 * k] == blocks[3 * k + 1] && p[7 + 3 * k] == blocks[3 * k + 2];
    }
  }

  lemma WebBranchObserved(query: string, webDocuments: seq<Document>)
    ensures var p := WebPrompt(query, webDocuments);
      |ContentsOf(p)| == |webDocuments| && |LinksOf(p)| == |webDocuments| &&
      forall k :: 0 <= k < |webDocuments| ==>
        ContentsOf(p)[k] == webDocuments[k].content && LinksOf(p)[k] == LinkOf(webDocuments[k])
  {
    var head: Prompt := [Text(WEB_INTRO), Query(query), Text(WEB_TASK), Marker, Text(WEB_CONTEXT_HEADER)];
    var blocks := WebBlocks(webDocuments);
    WebBlocksObserved(webDocuments);
    ContentsOfAppend(head, blocks);
    LinksOfAppend(head, blocks);
    ContentsOfNone(head);
    LinksOfNone(head);
  }

  /**
   * The local branch: the web list is empty, and every retrieved document appears
   * once, in list order, as a separator and then its content; no link is rendered.
   */
  lemma {:induction false} LocalBranchLayout(query: string, documents: seq<Document>)
    ensures var p := Compose(query, documents, []);
      |p| == 6 + 2 * |documents| &&
      forall k :: 0 <= k < |documents| ==>
        p[3 + 2 * k] == Separator && p[4 + 2 * k] == Content(documents[k].content)
    ensures var p := Compose(query, documents, []);
      |ContentsOf(p)| == |documents| && LinksOf(p) == [] &&
      forall k :: 0 <= k < |documents| ==> ContentsOf(p)[k] == documents[k].content
  {
    LocalBranchPositions(query, documents);
    LocalBranchObserved(query, documents);
  }

  lemma LocalBranchPositions(query: string, documents: seq<Document>)
    ensures var p := LocalPrompt(query, documents);
      |p| == 6 + 2 * |documents| &&
      forall k :: 0 <= k < |documents| ==>
        p[3 + 2 * k] == Separator && p[4 + 2 * k] == Content(documents[k].content)
  {
    var head: Prompt := [Text(LOCAL_INTRO), Query(query), Text(LOCAL_DOCUMENTS_HEADER)];
    var tail: Prompt := [Text(LOCAL_INSTRUCTIONS), Marker, Text(LOCAL_TAIL)];
    var blocks := LocalBlocks(documents);
    var p := head + blocks + tail;
    forall k | 0 <= k < |documents|
      ensures p[3 + 2 * k] == Separator && p[4 + 2 * k] == Content(documents[k].content)
    {
      LocalBlockAt(documents, k);
      assert p[3 + 2 * k] == blocks[2 * k] && p[4 + 2 * k] == blocks[2 * k + 1];
    }
  }

  lemma LocalBranchObserved(query: string, documents: seq<Document>)
    ensures var p := LocalPrompt(query, documents);
      |ContentsOf(p)| == |documents| && LinksOf(p) == [] &&
      forall k :: 0 <= k < |documents| ==> ContentsOf(p)[k] == documents[k].content
  {
    var head: Prompt := [Text(LOCAL_INTRO), Query(query), Text(LOCAL_DOCUMENTS_HEADER)];
    var tail: Prompt := [Text(LOCAL_INSTRUCTIONS), Marker, Text(LOCAL_TAIL)];
    var blocks := LocalBlocks(documents);
    LocalBlocksObserved(documents);
    ContentsOfNone(head);
    LinksOfNone(head);
    ContentsOfNone(tail);
    LinksOfNone(tail);
    ContentsOfAppend(head, blocks);
    LinksOfAppend(head, blocks);
    ContentsOfAppend(head + blocks, tail);
    LinksOfAppend(head + blocks, tail);
  }

  /** With nothing retrieved, the local prompt has no documents yet keeps the sentinel instruction. */
  lemma EmptyRetrieval(query: string)
    ensures IsLocalPrompt(Compose(query, [], []))
    ensures ContentsOf(Compose(query, [], [])) == []
    ensures Marker in Compose(query, [], [])
  {
    LocalBranchLayout(query, []);
  }

  /**
   * Every prompt, in either branch, interpolates the query exactly once, right
   * after the opening text, and carries the sentinel instruction.
   */
  lemma QueryInterpolatedOnce(query: string, documents: seq<Document>, webDocuments: seq<Document>)
    ensures var p := Compose(query, documents, webDocuments);
      |p| > 3 && p[1] == Query(query) && p[SentinelPosition(p)] == Marker
      && (forall i :: 0 <= i < |p| && p[i].Query? ==> i == 1)
  {
    if |webDocuments| > 0 {
      QueryOnlyInHead(query, webDocuments);
    } else {
      LocalBranchLayout(query, documents);
      QueryOnlyInHeadLocal(query, documents);
    }
  }

  /** Where the sentinel stands: fourth in the web branch, second from the end in the local branch. */
  function SentinelPosition(p: Prompt): nat
    requires |p| > 3
  {
    if IsWebPrompt(p) then 3 else |p| - 2
  }

  /** The rendered text of every prompt, in either branch, contains the query and `NO_ANSWER`. */
  lemma RenderedPromptMentionsQueryAndSentinel(query: string, documents: seq<Document>, webDocuments: seq<Document>)
    ensures IsSubstring(query, Render(Compose(query, documents, webDocuments)))
    ensures IsSubstring(NO_ANSWER, Render(Compose(query, documents, webDocuments)))
  {
    var p := Compose(query, documents, webDocuments);
    QueryInterpolatedOnce(query, documents, webDocuments);
    assert RenderSegment(p[1]) == query;
    assert RenderSegment(p[SentinelPosition(p)]) == NO_ANSWER;
  }

  /**
   * Each web document's URL line shows its `link` metadata, and shows nothing
   * after the label when the document has no link.
   */
  lemma LinkRendered(query: string, documents: seq<Document>, webDocuments: seq<Document>, k: nat)
    requires k < |webDocuments|
    ensures IsSubstring("**URL:** " + LinkOf(webDocuments[k]) + "\n", Render(Compose(query, documents, webDocuments)))
    ensures "link" in webDocuments[k].meta ==>
      IsSubstring("**URL:** " + webDocuments[k].meta["link"] + "\n", Render(Compose(query, documents, webDocuments)))
    ensures "link" !in webDocuments[k].meta ==>
      IsSubstring("**URL:** \n", Render(Compose(query, documents, webDocuments)))
  {
    var link := LinkOf(webDocuments[k]);
    LinkLineRendered(query, webDocuments, k);
    assert "link" !in webDocuments[k].meta ==> "**URL:** " + link + "\n" == "**URL:** \n";
  }

  /** The URL line of the k-th web document appears in the rendered web branch. */
  lemma LinkLineRendered(query: string, webDocuments: seq<Document>, k: nat)
    requires k < |webDocuments|
    ensures IsSubstring("**URL:** " + LinkOf(webDocuments[k]) + "\n", Render(WebPrompt(query, webDocuments)))
  {
    var p := WebPrompt(query, webDocuments);
    var i := 6 + 3 * k;
    WebBranchPositions(query, webDocuments);
    assert p[i] == Link(LinkOf(webDocuments[k]));
    assert IsSubstring(RenderSegment(p[i]), Render(p));
  }

  lemma QueryOnlyInHead(query: string, webDocuments: seq<Document>)
    ensures forall i :: 0 <= i < |WebPrompt(query, webDocuments)| && WebPrompt(query, webDocuments)[i].Query? ==> i == 1
  {
    var head: Prompt := [Text(WEB_INTRO), Query(query), Text(WEB_TASK), Marker, Text(WEB_CONTEXT_HEADER)];
    var blocks := WebBlocks(webDocuments);
    assert forall i :: 5 <= i < |head + blocks| ==> (head + blocks)[i] == blocks[i - 5];
  }

  lemma QueryOnlyInHeadLocal(query: string, documents: seq<Document>)
    ensures forall i :: 0 <= i < |LocalPrompt(query, documents)| && LocalPrompt(query, documents)[i].Query? ==> i == 1
  {
    var head: Prompt := [Text(LOCAL_INTRO), Query(query), Text(LOCAL_DOCUMENTS_HEADER)];
    var tail: Prompt := [Text(LOCAL_INSTRUCTIONS), Marker, Text(LOCAL_TAIL)];
    var blocks := LocalBlocks(documents);
    var n := |blocks|;
    assert forall i :: 3 <= i < 3 + n ==> (head + blocks + tail)[i] == blocks[i - 3];
    assert forall i :: 3 + n <= i < 6 + n ==> (head + blocks + tail)[i] == tail[i - 3 - n];
  }
}
