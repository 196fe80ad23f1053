/** The request-time nodes and edge decisions of the Indian-Constitution
    question-answering bot (src/bot.py): routing, retrieval, per-document
    relevance grading, the generate-or-rewrite decision, query rewriting,
    answer generation and answer grading.

    Every call to the language model or to the vector-store retriever is a
    function-typed parameter (an oracle) applied to the inputs the source
    passes to that call; it returns `Ok(value)` or `Failure`, the latter
    standing for any exception caught by the node's `except Exception`.
    Tracing output is assumed not to raise. */
module Bot {
  import opened Wrappers

  /** A retrieved passage: its text, which is what the relevance grader
      reads, and whatever metadata the vector store attaches to it. */
  datatype Document = Document(pageContent: string, metadata: map<string, string>)

  /** The graph's state dictionary, or the partial dictionary a node returns.
      A key the dictionary does not hold is `None`. */
  datatype GraphState = GraphState(
    question: Option<string>,
    documents: Option<seq<Document>>,
    generation: Option<string>)

  /** `state.get("question", "")` */
  function QuestionOf(s: GraphState): string { s.question.GetOr("") }

  /** `state.get("documents", [])` */
  function DocumentsOf(s: GraphState): seq<Document> { s.documents.GetOr([]) }

  /** `state.get("generation", "")` */
  function GenerationOf(s: GraphState): string { s.generation.GetOr("") }

  /** The labels the edge-decision functions return. */
  datatype Edge = ToVectorStore | ToOutOfContext | ToTransformQuery | ToGenerate | Useful | NotUseful

  /** The string the source returns for each edge. */
  function Label(e: Edge): string
  {
    match e
    case ToVectorStore => "vector-store"
    case ToOutOfContext => "out_of_context"
    case ToTransformQuery => "transform_query"
    case ToGenerate => "generate"
    case Useful => "useful"
    case NotUseful => "not useful"
  }

  /** The router's output schema: a field restricted to two literals. A reply
      outside them fails schema validation and arrives as `Failure`. */
  datatype Datasource = VectorStoreSource | OutOfContextSource

  function DatasourceLabel(d: Datasource): string
  {
    match d
    case VectorStoreSource => "vector-store"
    case OutOfContextSource => "out_of_context"
  }

  /** The document grader's output schema: "yes" or "no". */
  datatype BinaryScore = Yes | No

  /** The structured router call, applied to the question. */
  type RouterCall = string -> Outcome<Datasource>
  /** The retriever call, applied to the question. */
  type RetrieverCall = string -> Outcome<seq<Document>>
  /** The RAG prompt + model + string parser, applied to (context documents, question). */
  type RagCall = (seq<Document>, string) -> Outcome<string>
  /** The structured answer grader, applied to (question, generation); its
      score field is a free string. */
  type AnswerScoreCall = (string, string) -> Outcome<string>
  /** The structured document grader, applied to (question, page content). */
  type RelevanceCall = (string, string) -> Outcome<BinaryScore>
  /** The question re-writer, applied to the question. */
  type RewriteCall = string -> Outcome<string>

  // ---------------------------------------------------------------------
  // Router

  /** `route`: asks the router for a datasource. Only a successful
      "vector-store" reply leads to retrieval; a failed call fails closed. */
  function Route(state: GraphState, router: RouterCall): (e: Edge)
    ensures e == ToVectorStore || e == ToOutOfContext
    ensures e == ToVectorStore <==> router(QuestionOf(state)) == Ok(VectorStoreSource)
    ensures e == ToOutOfContext <==> router(QuestionOf(state)) in {Failure, Ok(OutOfContextSource)}
  {
    match router(QuestionOf(state))
    case Ok(OutOfContextSource) => ToOutOfContext
    case Ok(VectorStoreSource) => ToVectorStore
    case Failure => ToOutOfContext
  }

  /** On a successful call the router's decision is returned under the
      datasource's own label; in every case the label is one of the two. */
  lemma RouteLabels(state: GraphState, router: RouterCall)
    ensures Label(Route(state, router)) in {"vector-store", "out_of_context"}
    ensures router(QuestionOf(state)).Ok? ==>
              Label(Route(state, router)) == DatasourceLabel(router(QuestionOf(state)).value)
  {
  }

  // ---------------------------------------------------------------------
  // Retrieval

  /** `retrieve`: the update holds only `documents`: the retriever's list
      for the question, or the empty list when the call fails. */
  function Retrieve(state: GraphState, retriever: RetrieverCall): (u: GraphState)
    ensures u.question.None? && u.generation.None? && u.documents.Some?
    ensures retriever(QuestionOf(state)).Ok? ==> DocumentsOf(u) == retriever(QuestionOf(state)).value
    ensures retriever(QuestionOf(state)).Failure? ==> DocumentsOf(u) == []
  {
    GraphState(None, Some(retriever(QuestionOf(state)).OrElse([])), None)
  }

  // ---------------------------------------------------------------------
  // Generation

  /** `generation`: passes the question and documents through and records
      the model's answer, or "" when the call fails. */
  function Generation(state: GraphState, rag: RagCall): (u: GraphState)
    ensures u.question == Some(QuestionOf(state))
    ensures u.documents == Some(DocumentsOf(state))
    ensures rag(DocumentsOf(state), QuestionOf(state)).Ok? ==>
              u.generation == Some(rag(DocumentsOf(state), QuestionOf(state)).value)
    ensures rag(DocumentsOf(state), QuestionOf(state)).Failure? ==> u.generation == Some("")
  {
    var text := rag(DocumentsOf(state), QuestionOf(state)).OrElse("");
    GraphState(Some(QuestionOf(state)), Some(DocumentsOf(state)), Some(text))
  }

  // ---------------------------------------------------------------------
  // Answer grader

  /** `AnswerGrader`: "useful" exactly when the answer-grading call's score is the
      string "yes"; any other score, and a failed call, give "not useful". */
  function AnswerGrader(state: GraphState, grader: AnswerScoreCall): (e: Edge)
    ensures e == Useful || e == NotUseful
    ensures e == Useful <==> grader(QuestionOf(state), GenerationOf(state)) == Ok("yes")
  {
    match grader(QuestionOf(state), GenerationOf(state))
    case Ok(score) => if score == "yes" then Useful else NotUseful
    case Failure => NotUseful
  }

  // ---------------------------------------------------------------------
  // Document relevance grading

  /** A document is relevant when its grading call succeeds with "yes". */
  predicate Relevant(grader: RelevanceCall, question: string, d: Document)
  {
    grader(question, d.pageContent) == Ok(Yes)
  }

  /** The documents the grading loop keeps, in their original order. */
  function Filtered(question: string, docs: seq<Document>, grader: RelevanceCall): (r: seq<Document>)
    ensures |r| <= |docs|
    decreases |docs|
  {
    if docs == [] then []
    else
      var last := docs[|docs| - 1];
      Filtered(question, docs[..|docs| - 1], grader) + (if Relevant(grader, question, last) then [last] else [])
  }

  /** The positions of the relevant documents, in increasing order. */
  function KeptIndices(question: string, docs: seq<Document>, grader: RelevanceCall): seq<int>
    decreases |docs|
  {
    if docs == [] then []
    else
      KeptIndices(question, docs[..|docs| - 1], grader)
        + (if Relevant(grader, question, docs[|docs| - 1]) then [|docs| - 1] else [])
  }

  /** `sub` is `s` with some elements removed: `idx` gives, in strictly
      increasing order, the position in `s` of each element of `sub`. */
  ghost predicate EmbeddedAt<T>(sub: seq<T>, s: seq<T>, idx: seq<int>)
  {
    && |idx| == |sub|
    && (forall k :: 0 <= k < |idx| ==> 0 <= idx[k] < |s| && sub[k] == s[idx[k]])
    && (forall j, k :: 0 <= j < k < |idx| ==> idx[j] < idx[k])
  }

  ghost predicate IsSubsequence<T>(sub: seq<T>, s: seq<T>)
  {
    exists idx :: EmbeddedAt(sub, s, idx)
  }

  /** The state update `Grade_Docs` returns: the question and the relevant
      documents; it holds no `generation` key. */
  function Graded(state: GraphState, grader: RelevanceCall): GraphState
  {
    GraphState(Some(QuestionOf(state)), Some(Filtered(QuestionOf(state), DocumentsOf(state), grader)), None)
  }

  /** `Grade_Docs`: grades each document in turn and keeps the relevant ones.
      A failed grading call drops that document and grading goes on. */
  method GradeDocs(state: GraphState, grader: RelevanceCall) returns (u: GraphState)
    ensures u == Graded(state, grader)
  {
    var question := QuestionOf(state);
    var documents := DocumentsOf(state);
    var filtered: seq<Document> := [];
    for i := 0 to |documents|
      invariant filtered == Filtered(question, documents[..i], grader)
    {
      var d := documents[i];
      assert documents[..i + 1][..i] == documents[..i];
      match grader(question, d.pageContent)
      case Ok(grade) =>
        if grade == Yes {
          filtered := filtered + [d];
        }
      case Failure =>
    }
    assert documents[..|documents|] == documents;
    u := GraphState(Some(question), Some(filtered), None);
  }

  /** A position is kept exactly when the document there is relevant. */
  lemma {:induction false} KeptIndicesExact(question: string, docs: seq<Document>, grader: RelevanceCall)
    ensures forall i :: i in KeptIndices(question, docs, grader) <==>
              0 <= i < |docs| && Relevant(grader, question, docs[i])
    decreases |docs|
  {
    if docs != [] {
      var prefix := docs[..|docs| - 1];
      KeptIndicesExact(question, prefix, grader);
      forall i
        ensures i in KeptIndices(question, docs, grader) <==>
                  0 <= i < |docs| && Relevant(grader, question, docs[i])
      {
        if 0 <= i < |prefix| {
          assert prefix[i] == docs[i];
        }
      }
    }
  }

  /** The kept positions embed the filtered list into the input, in order. */
  lemma {:induction false} FilteredEmbedding(question: string, docs: seq<Document>, grader: RelevanceCall)
    ensures EmbeddedAt(Filtered(question, docs, grader), docs, KeptIndices(question, docs, grader))
    decreases |docs|
  {
    if docs != [] {
      var prefix := docs[..|docs| - 1];
      FilteredEmbedding(question, prefix, grader);
      var sub, idx := Filtered(question, docs, grader), KeptIndices(question, docs, grader);
      var subP, idxP := Filtered(question, prefix, grader), KeptIndices(question, prefix, grader);
      forall k | 0 <= k < |idx|
        ensures 0 <= idx[k] < |docs| && sub[k] == docs[idx[k]]
      {
        if k < |idxP| {
          assert idx[k] == idxP[k] && sub[k] == subP[k] && prefix[idxP[k]] == docs[idxP[k]];
        }
      }
    }
  }

  /** Grading only removes documents: the result is an order-preserving
      subsequence of the input, with exactly the relevant positions kept. */
  lemma FilteredIsSubsequence(question: string, docs: seq<Document>, grader: RelevanceCall)
    ensures IsSubsequence(Filtered(question, docs, grader), docs)
  {
    FilteredEmbedding(question, docs, grader);
  }

  /** A document is in the result exactly when it is in the input and its
      grading call succeeded with "yes". */
  lemma {:induction false} FilteredMembership(question: string, docs: seq<Document>, grader: RelevanceCall, d: Document)
    ensures d in Filtered(question, docs, grader) <==> d in docs && Relevant(grader, question, d)
    decreases |docs|
  {
    if docs != [] {
      var prefix := docs[..|docs| - 1];
      FilteredMembership(question, prefix, grader, d);
      assert docs == prefix + [docs[|docs| - 1]];
    }
  }

  /** Grading keeps the whole list exactly when every document is relevant. */
  lemma {:induction false} FilteredKeepsAll(question: string, docs: seq<Document>, grader: RelevanceCall)
    ensures Filtered(question, docs, grader) == docs <==>
              forall d :: d in docs ==> Relevant(grader, question, d)
    decreases |docs|
  {
    if docs != [] {
      var prefix := docs[..|docs| - 1];
      var last := docs[|docs| - 1];
      assert docs == prefix + [last];
      FilteredKeepsAll(question, prefix, grader);
      if Relevant(grader, question, last) {
        forall d | d in prefix ensures d in docs { }
      } else {
        assert |Filtered(question, docs, grader)| < |docs|;
      }
    }
  }

  // ---------------------------------------------------------------------
  // Generate-or-rewrite decision

  /** `decide_to_generate`: rewrite the query when no document is left,
      generate otherwise. */
  function DecideToGenerate(state: GraphState): (e: Edge)
    ensures e == ToTransformQuery || e == ToGenerate
    ensures e == ToTransformQuery <==> DocumentsOf(state) == []
  {
    if DocumentsOf(state) == [] then ToTransformQuery else ToGenerate
  }

  /** After grading, the pipeline generates exactly when at least one
      retrieved document was graded relevant. */
  lemma DecisionAfterGrading(state: GraphState, grader: RelevanceCall)
    ensures DecideToGenerate(Graded(state, grader)) == ToGenerate <==>
              exists d :: d in DocumentsOf(state) && Relevant(grader, QuestionOf(state), d)
  {
    var q, docs := QuestionOf(state), DocumentsOf(state);
    var r := Filtered(q, docs, grader);
    if r != [] {
      FilteredMembership(q, docs, grader, r[0]);
    } else {
      forall d | d in docs ensures !Relevant(grader, q, d) {
        FilteredMembership(q, docs, grader, d);
      }
    }
  }

  /** A failed retrieval leaves nothing to grade, so the pipeline rewrites
      the query whatever the document grader would have replied. */
  lemma RetrievalFailureLeadsToRewrite(state: GraphState, retriever: RetrieverCall, grader: RelevanceCall)
    requires retriever(QuestionOf(state)) == Failure
    ensures DocumentsOf(Graded(Retrieve(state, retriever), grader)) == []
    ensures DecideToGenerate(Graded(Retrieve(state, retriever), grader)) == ToTransformQuery
  {
  }

  // ---------------------------------------------------------------------
  // Query rewriting

  /** `transform_query`: the documents pass through unchanged; the question
      becomes the re-writer's output, or stays as it was when the call fails. */
  function TransformQuery(state: GraphState, rewriter: RewriteCall): (u: GraphState)
    ensures u.documents == Some(DocumentsOf(state)) && u.generation.None?
    ensures rewriter(QuestionOf(state)).Ok? ==> u.question == Some(rewriter(QuestionOf(state)).value)
    ensures rewriter(QuestionOf(state)).Failure? ==> u.question == Some(QuestionOf(state))
  {
    var revised := rewriter(QuestionOf(state)).OrElse(QuestionOf(state));
    GraphState(Some(revised), Some(DocumentsOf(state)), None)
  }

  // ---------------------------------------------------------------------
  // Out-of-context terminal node

  /** `out_of_context`: only tells the user the question is out of scope;
      it returns no update, so no key of the state changes. */
  function OutOfContext(state: GraphState): (u: GraphState)
    ensures u.question.None? && u.documents.None? && u.generation.None?
  {
    GraphState(None, None, None)
  }

  // ---------------------------------------------------------------------
  // Degradation on failure

  /** When every external call fails, each node substitutes its fail-closed
      default instead of raising: out-of-context routing, no documents, no
      relevant documents and hence a rewrite, the unchanged question, an
      empty answer, and a "not useful" grade. */
  lemma FailuresDegrade(state: GraphState, router: RouterCall, retriever: RetrieverCall,
                        grader: RelevanceCall, rewriter: RewriteCall, rag: RagCall,
                        scorer: AnswerScoreCall)
    requires forall q :: router(q) == Failure
    requires forall q :: retriever(q) == Failure
    requires forall q, c :: grader(q, c) == Failure
    requires forall q :: rewriter(q) == Failure
    requires forall ds, q :: rag(ds, q) == Failure
    requires forall q, g :: scorer(q, g) == Failure
    ensures Route(state, router) == ToOutOfContext
    ensures DocumentsOf(Retrieve(state, retriever)) == []
    ensures DecideToGenerate(Graded(state, grader)) == ToTransformQuery
    ensures QuestionOf(TransformQuery(state, rewriter)) == QuestionOf(state)
    ensures GenerationOf(Generation(state, rag)) == ""
    ensures AnswerGrader(state, scorer) == NotUseful
  {
    DecisionAfterGrading(state, grader);
  }
}
