# Law-RAG request pipeline: nodes and edge decisions

A Dafny model of the request-time logic of the Law-RAG chatbot, which answers
questions about the Constitution of India by corrective retrieval-augmented
generation. The model covers the node functions and edge-decision functions of
`src/bot.py`:

- `route` asks the language model whether the question belongs to the vector
  store or is out of context;
- `retrieve` fetches passages for the question;
- `Grade_Docs` asks the model, document by document, whether each passage is
  relevant and keeps the relevant ones;
- `decide_to_generate` picks query rewriting or generation;
- `transform_query` rewrites the question;
- `generation` produces the answer;
- `AnswerGrader` decides whether the answer is useful;
- `out_of_context` is the terminal node for out-of-scope questions.

Every call to the language model or the retriever is a function-typed parameter
(an oracle). It is applied to the same inputs the source passes to that call and
returns `Ok(value)` or `Failure`. `Failure` stands for any exception the node's
`except Exception` catches. For the structured calls, a reply that does not fit
the output schema is also `Failure`: the router's `datasource` is limited to two
literals, and so is the document grader's `binary_score`. The answer grader's
`Binary_Score` is a free string.

The graph state is `Bot.GraphState` with the three keys of the source's
`GraphState` (`question`, `documents`, `generation`). Each key is an `Option`,
because nodes return partial dictionaries and read keys with
`state.get(key, default)`. `QuestionOf`, `DocumentsOf` and `GenerationOf`
supply the same defaults (`""`, `[]`, `""`). Edge labels are the enum
`Bot.Edge`. `Bot.Label` maps each label to the exact string the source returns.

`Grade_Docs` builds its result in a loop, so it is the method `Bot.GradeDocs`.
That method is proved against the specification function `Bot.Filtered`. The
lemmas about `Filtered` prove three things:

- the result is an order-preserving subsequence of the input (`EmbeddedAt`
  with the positions `KeptIndices`);
- exactly the relevant positions are kept;
- a document survives exactly when its grading call returned `"yes"`.

The other nodes are pure functions of the state and the oracle.

Files: `wrappers.dfy` (module `Wrappers`: `Option`, `Outcome`) and `bot.dfy`
(module `Bot`).

`src/bot.py` contains no graph wiring: `StateGraph` is imported at
`src/bot.py:8` and never used. It has no rewrite counter and no loop cap. So the
model has no transition table, no counter and no loop bound.

## Model

| member | source | states |
|---|---|---|
| `Bot.Route` | src/bot.py:46-72 | The result is always the vector-store or the out-of-context edge. It is the vector-store edge exactly when the router call on the state's question succeeds with "vector-store". A failed call or an "out_of_context" reply gives out-of-context (fails closed). |
| `Bot.RouteLabels` | src/bot.py:62-72 | The returned string is "vector-store" or "out_of_context". On a successful call it is the router's own datasource string, unchanged. |
| `Bot.Retrieve` | src/bot.py:74-84 | The update holds only the `documents` key. It is exactly the retriever's list for the state's question on success, and the empty list on failure. The retrieval call's exceptions are caught, under the tracing assumption stated under Left out. |
| `Bot.Generation` | src/bot.py:86-100 | `question` and `documents` are returned unchanged, with their defaults when absent. `generation` is the model's text on success and "" on failure. |
| `Bot.AnswerGrader` | src/bot.py:102-133 | "useful" exactly when the answer-grading call on (question, generation) succeeds with the exact string "yes". Any other string, including other casings, gives "not useful", and so does a failed call. |
| `Bot.Filtered` | src/bot.py:156-169 | The documents kept by the grading loop, in input order. The result is never longer than the input. |
| `Bot.GradeDocs` | src/bot.py:135-170 | The loop returns the input question and exactly `Filtered` of the state's documents. The update has no `generation` key. A failed grading call drops only that document. |
| `Bot.KeptIndicesExact` | src/bot.py:157-165 | A position is among the kept positions exactly when it lies within the input and the document there was graded "yes". |
| `Bot.FilteredEmbedding` | src/bot.py:156-170 | The kept positions are strictly increasing and map each output document to an equal input document. The output is therefore the input with some documents removed and nothing reordered. |
| `Bot.FilteredIsSubsequence` | src/bot.py:156-170 | The grading result is a subsequence of the input documents: some documents removed, none added, edited or reordered. |
| `Bot.RetrievalFailureLeadsToRewrite` | src/bot.py:81-84 | When the retrieval call fails, grading the returned update leaves no documents, and the decision is "transform_query" whatever the document grader replies. |
| `Bot.FilteredMembership` | src/bot.py:157-169 | A document is in the result exactly when it is in the input and its grading call succeeded with "yes". Failed calls and "no" replies drop it. |
| `Bot.FilteredKeepsAll` | src/bot.py:157-169 | The result equals the whole input exactly when every input document is graded "yes". |
| `Bot.DecideToGenerate` | src/bot.py:197-204 | The result is "transform_query" exactly when `documents` is empty or absent, and "generate" otherwise. |
| `Bot.DecisionAfterGrading` | src/bot.py:197-204 | Applied to the state that grading returns, the decision is "generate" exactly when some input document was graded relevant. |
| `Bot.TransformQuery` | src/bot.py:172-195 | `documents` passes through unchanged and no `generation` key is written. The question is the rewriter's output on success and the original question on failure. |
| `Bot.OutOfContext` | src/bot.py:206-208 | The terminal node writes no key of the state. |
| `Bot.FailuresDegrade` | src/bot.py:69-193 | When every external call fails, each node falls back to its safe default, as its `except` branch does (tracing assumed not to raise, see Left out): out-of-context route, no documents, a rewrite decision after grading, the unchanged question, an empty answer and a "not useful" grade. |

## Left out

- Module-level setup (`src/bot.py:15-39`) is not modelled: environment loading, API keys, the Gemini client, embeddings, the AstraDB vector store and the retriever are foreign-library construction and network configuration.
- Prompt texts, `ChatPromptTemplate`, `hub.pull` and the pydantic schema classes are configuration. Each appears only as its oracle's input and result type. If `hub.pull` fails inside `generation`, the model counts that as the same `Failure` as the model call.
- `print` and `traceback.print_exc` tracing: the model assumes tracing never raises. A raising print inside a `try` block (`src/bot.py:64`, `:79`, `:95`, `:125`, `:162`, `:189`) would send the node to its fallback even though the external call succeeded; the model folds that case into the call's `Failure`. A raising print outside a `try` block, or in an `except` handler (`src/bot.py:48`, `:70`, `:76`, `:82`, `:89`, `:98`, `:105`, `:131`, `:138`, `:167`, `:174`, `:191`), would let the exception escape the node; the model does not capture that.
- `out_of_context` only prints a fixed message; the model keeps only the fact that it writes no state.
- Oracles are functions of their prompt inputs. Two calls with the same inputs therefore get the same reply in the model, but the source samples the model at temperature 1. This matters only for `Bot.GradeDocs` when two documents have the same page content and the same question.
- Graph wiring, the corrective loop, a rewrite counter and a loop cap do not appear in `src/bot.py`, so the model has none of them.
- The source's `GraphState` annotation declares `documents` as `List[str]`, but `Grade_Docs` reads `d.page_content`. The model follows the code: a document is a record with page content and metadata.
- Only an empty list counts as "no documents" in `Bot.DecideToGenerate`. A `documents` key holding `None`, which is also falsy in Python, cannot occur in the model.
- `src/ingest.py` (vector-store upsert) and `src/data_converter.py` (PDF loading and text splitting through a library whose algorithm is not visible) are I/O and batch preprocessing. They are not part of this model.
- The Flask front end is UI plumbing and is not part of this model.
