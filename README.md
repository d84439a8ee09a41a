# Query resolution core of the AI Documentation Assistant, in Dafny

The assistant answers questions about Python library documentation with a
retrieval-augmented pipeline: the question is embedded, the nearest indexed
passages are retrieved, a chat prompt is composed from them, a language model
answers, and a conditional router checks that answer for the sentinel
`NO_ANSWER`. When the sentinel is there, the query is sent to a web search and
the prompt is composed again from the web results. `process_query` runs that
pipeline once and turns its outcome into the text shown to the user.

This project models the three pieces of that core which the repository writes
itself, all as pure functions with lemmas:

- `strings.dfy` (module `Strings`): Python's substring test `pat in s`, as a
  scanning function proved equal to "some window equals `pat`". Also
  `s.replace(c, '')` for one character, proved to keep the order and count of
  every other character.
- `sentinel.dfy` (module `Sentinel`): the sentinel text that the template and
  the router share.
- `router.dfy` (module `Router`): the two route conditions of the conditional
  router. It tries `go_web` first, then `answer`.
- `prompt.dfy` (module `PromptTemplate`): the active chat-prompt template, with
  its web branch and its local branch, rendered as a sequence of segments.
- `dispatch.dfy` (module `QueryDispatch`): the result and exception dispatch of
  `process_query`. The pipeline run is taken as an input.

Behaviour of the code worth knowing, which the model follows:

- The router deletes only line-feed characters (`'\n'`). A carriage return is
  kept and can split the sentinel.
- The prompt builder requires only that `query` is supplied. An empty or blank
  query is rendered like any other.
- `process_query` returns plain strings. It does not return typed outcomes.
  Every `Exception` raised by the run becomes `"Hata: "` followed by the
  exception's message.
- When the router's outputs hold both `answer` and `go_web`, `answer` wins.

## Model

| member | source | states |
|---|---|---|
| `Strings.Contains` | scripts/query_processing.py:114 | the scan returns true exactly when some window of the text equals the pattern (Python's `in` on strings, empty pattern included) |
| `Strings.RemoveChar` | scripts/query_processing.py:114 | `replace('\n', '')`: the result has no such character, is no longer than the input, and is the input itself when the character is absent |
| `Strings.RemoveCharKeepsOthers` | scripts/query_processing.py:114 | deleting a character keeps every other character exactly as often as it occurred |
| `Strings.RemoveCharAppend` | scripts/query_processing.py:114 | deleting a character commutes with concatenation, so what remains keeps its order |
| `Router.Decide` | scripts/query_processing.py:112-125 | the reply goes to the web exactly when the sentinel is a substring of the reply with its line feeds deleted; `go_web` carries the original query, and `answer` carries the reply text unmodified |
| `Router.GoWebCondition` | scripts/query_processing.py:114 | the `go_web` condition holds exactly when the sentinel is a substring of the reply with its line feeds deleted |
| `Router.AnswerCondition` | scripts/query_processing.py:120 | the `answer` condition holds exactly when the sentinel is not a substring of the reply with its line feeds deleted |
| `Router.ExactlyOneConditionHolds` | scripts/query_processing.py:112-125 | the two route conditions are exact negations, so exactly one route fires for every reply, and the route chosen is the one whose condition holds |
| `Router.RouteReplies` | scripts/query_processing.py:114-121 | the router fails exactly when there is no reply; otherwise it goes to the web exactly when the sentinel is a substring of the first reply's text with its line feeds deleted, `go_web` carries the query and `answer` carries the first reply's text |
| `Router.OnlyFirstReplyCounts` | scripts/query_processing.py:114-121 | replies after the first never influence the route |
| `Router.Outputs` | scripts/query_processing.py:115-123 | the router reports exactly one named output: `go_web` holding the query, or `answer` holding the reply text |
| `Router.LineFeedsIgnored` | scripts/query_processing.py:114-120 | inserting any run of line feeds anywhere in a reply never changes whether it goes to the web |
| `Router.SentinelBrokenByLineFeedsGoesWeb` | scripts/query_processing.py:114-115 | the sentinel split at any point by line feeds, with any text around it, still sends the query to the web |
| `Router.SentinelSurvivesLineFeedRemoval` | scripts/query_processing.py:114 | a reply that spells out the sentinel still contains it after its line feeds are deleted |
| `Router.SentinelSplitByOneCharacter` | scripts/query_processing.py:114-120 | the sentinel with one character inserted inside it goes to the web exactly when that character is a line feed, or when it repeats the first or last letter so the whole sentinel is still spelled out; any other character makes it an answer |
| `PromptTemplate.WebBlocks` | scripts/query_processing.py:80-84 | the web loop renders three segments per web document, each a separator, a link or a content, and nothing else |
| `PromptTemplate.LocalBlocks` | scripts/query_processing.py:95-98 | the local loop renders two segments per document, each a separator or a content, and nothing else |
| `PromptTemplate.WebBlockAt` | scripts/query_processing.py:80-84 | the k-th web document is rendered as a separator, then its link, then its content, at positions 3k, 3k+1 and 3k+2 of the loop |
| `PromptTemplate.LocalBlockAt` | scripts/query_processing.py:95-98 | the k-th retrieved document is rendered as a separator and then its content, at positions 2k and 2k+1 of the loop |
| `PromptTemplate.WebBlocksObserved` | scripts/query_processing.py:80-84 | the contents and links the web loop renders are exactly those of its documents, in list order |
| `PromptTemplate.LocalBlocksObserved` | scripts/query_processing.py:95-98 | the contents the local loop renders are exactly those of its documents, in list order, and it renders no link |
| `PromptTemplate.WebPrompt` | scripts/query_processing.py:63-85 | the web branch opens with its own text and never the local one, has the query right after it and the sentinel instruction fourth, and then three segments per web document |
| `PromptTemplate.LocalPrompt` | scripts/query_processing.py:86-106 | the local branch opens with its own text and never the web one, has the query right after it, two segments per retrieved document, and the sentinel second from the end, just before the closing text |
| `PromptTemplate.Compose` | scripts/query_processing.py:63-107 | the web branch is rendered exactly when the web document list is non-empty, and the local branch exactly when it is empty; layouts in `WebBranchLayout` and `LocalBranchLayout` |
| `PromptTemplate.Render` | scripts/query_processing.py:63-107 | the text of every segment of a prompt appears in its rendered text |
| `PromptTemplate.Build` | scripts/query_processing.py:131 | `query` is a required variable: the builder refuses exactly when it is missing; otherwise the prompt takes the web branch exactly when web documents are given, and its rendered text contains the query and `NO_ANSWER` |
| `PromptTemplate.WebBranchLayout` | scripts/query_processing.py:63-85 | the web branch ignores the retrieved documents; each web document appears exactly once, in list order, after a separator, with its link immediately before its content |
| `PromptTemplate.LocalBranchLayout` | scripts/query_processing.py:86-106 | the local branch renders each retrieved document exactly once, in list order, after a separator, and renders no link |
| `PromptTemplate.EmptyRetrieval` | scripts/query_processing.py:86-106 | with no retrieved and no web documents the local prompt has no document but still carries the sentinel instruction |
| `PromptTemplate.QueryInterpolatedOnce` | scripts/query_processing.py:63-107 | every prompt, in either branch, interpolates the query exactly once and carries the sentinel instruction |
| `PromptTemplate.RenderedPromptMentionsQueryAndSentinel` | scripts/query_processing.py:63-107 | the rendered text of every prompt, in either branch, contains both the query and `NO_ANSWER` |
| `PromptTemplate.LinkRendered` | scripts/query_processing.py:82 | the rendered web prompt shows each web document's URL line with its `link` metadata, and with nothing after the label when the document has no link |
| `QueryDispatch.ProcessQuery` | scripts/query_processing.py:147-169 | the shown text is never made up: a raised run shows the error prefix followed by its message; a completed run shows one of the router's values, the redirect prefix followed by one of them, or the fixed failure text; the exact case analysis is in the four lemmas below |
| `QueryDispatch.AnswerTakesPriority` | scripts/query_processing.py:159-161 | an `answer` output is shown verbatim, even when a `go_web` output is present too |
| `QueryDispatch.RedirectIsPrefixed` | scripts/query_processing.py:162-163 | without an answer, a `go_web` output is shown as the fixed redirect prefix followed by exactly its value |
| `QueryDispatch.NoRouteGivesFailureText` | scripts/query_processing.py:159-165 | with neither output, or no router outputs at all, the fixed failure text is shown |
| `QueryDispatch.ExceptionIsShown` | scripts/query_processing.py:167-169 | every `Exception` raised by the run is caught and shown as `"Hata: "` followed by exactly its message |
| `QueryDispatch.OnlyRouterOutputsMatter` | scripts/query_processing.py:159 | the outputs of components other than the router never change what is shown |
| `QueryDispatch.RoutedRunShows` | scripts/query_processing.py:112-165 | for a completed run whose result reports a route's outputs as the router's, the dispatch shows the reply text if the sentinel is absent, and the redirect prefix followed by the query if it is present; whether the pipeline reports `go_web` this way, rather than only passing it on to the web search (line 141), is not modelled |

## Left out

- Embedding, nearest-neighbour retrieval and its top-k ordering, the Gemini chat generator and the Serper web search (scripts/query_processing.py:129-134). These are library components and external services whose code is not part of this model, and embeddings are floating point. Their results are inputs here: the reply text, the document lists, and the pipeline run.
- Pipeline graph scheduling and the `max_runs_per_component=5` bound on re-entry (scripts/query_processing.py:128, 137-142). The pipeline runtime enforces them, and its code is not part of this model. As a consequence, which component outputs end up in a run's result is not modelled either: `QueryDispatch` takes that result as given.
- `build_query_pipeline`'s `add_component` and `connect` calls, and the hard-coded API-key environment writes (scripts/query_processing.py:20-21). They are configuration.
- The commented-out earlier template (scripts/query_processing.py:36-62). It is an unused string literal.
- The template engine's exact whitespace and line layout, and its autoescaping. `PromptTemplate.Render` joins the segments with a plausible layout, but it does not reproduce the engine's output byte for byte.
- Template-engine behaviour on values that are not strings. A document's content is taken to be a string; a missing content rendering as `None` is not modelled. A missing `meta.link` renders as the empty text.
- `Router.Decide`: the router's outputs are taken to be the rendered text itself. The router library's own post-processing of a rendered output (for instance re-reading a text that looks like a Python literal) is library code that is not part of this model.
- Exceptions that are not an `Exception` (for instance `KeyboardInterrupt` or `SystemExit`), which `except Exception` at scripts/query_processing.py:167 lets through, and a failure of the log call at line 148, which sits outside the `try`. A `PipelineRun` is either a caught `Exception`'s message or a completed result, so these are not modelled.
- Logging (`log_message`) and the text form of an exception: the message is taken as given, as `str(e)` would produce it.
- `Router.RouteReplies`: an empty reply list is modelled as a failure of the router's conditions only. The exact exception type and message, which come from the template engine and the router library, are not modelled.
- scripts/indexing.py, app.py, scripts/config.py and scripts/utils.py are not part of this model. They hold the indexing batch job, the web front end, constants and logging, none of which is decision logic.
