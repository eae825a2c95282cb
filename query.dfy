/** Query answering: the decision logic of the retrieval service's query
    handler and of the HTTP endpoint in front of it. The sentence embedder,
    the vector store and the generative model are parameters; an `Err` from
    one of them stands for the exception its client raises. */
module Query {
  import opened Strings

  datatype Option<T> = None | Some(value: T)

  datatype Result<T> = Ok(value: T) | Err(error: string)

  /** A metadata filter: field name to the value the field must equal. */
  type Filter = map<string, string>

  /** The `documents` field of a vector-store answer: one list of texts per
      query vector, or nothing when the field is empty. */
  datatype QueryResults = QueryResults(documents: Option<seq<seq<string>>>)

  /** An embedding vector. */
  type Vector = seq<real>

  /** The external services the handler calls. */
  datatype Services = Services(
    embed: string -> Result<Vector>,
    search: (Vector, nat, Option<Filter>) -> Result<QueryResults>,
    generate: string -> Result<string>)

  /** Number of nearest documents asked of the vector store. */
  const TopK := 5
  const CaseIdField := "case_id"
  const GeneralNotFound := "No relevant information found in the database."
  const CaseNotFoundPrefix := "No documents found specifically for Case ID: "

  /** A case id is in effect when it is present and not empty. */
  predicate HasCase(caseId: Option<string>)
  {
    caseId.Some? && caseId.value != ""
  }

  /** The metadata filter: an equality on the case-id field exactly when a
      case id is in effect, no filter otherwise. */
  function WhereFilter(caseId: Option<string>): (f: Option<Filter>)
    ensures f.Some? <==> HasCase(caseId)
    ensures f.Some? ==> f.value.Keys == {CaseIdField} && f.value[CaseIdField] == caseId.value
  {
    if HasCase(caseId) then Some(map[CaseIdField := caseId.value]) else None
  }

  /** The texts retrieved for the single query vector; a missing or empty
      `documents` field means nothing was retrieved. */
  function RetrievedDocs(results: QueryResults): (docs: seq<string>)
    ensures results.documents.None? ==> docs == []
    ensures results.documents.Some? && results.documents.value == [] ==> docs == []
    ensures results.documents.Some? && results.documents.value != [] ==> docs == results.documents.value[0]
  {
    match results.documents
    case Some(lists) => if |lists| > 0 then lists[0] else []
    case None => []
  }

  /** The answer when nothing was found for a given case id. */
  function CaseNotFound(caseId: string): string
  {
    CaseNotFoundPrefix + caseId + "."
  }

  /** The two "not found" answers never coincide, and the case-specific one
      names the case id verbatim, so different case ids give different
      answers. */
  lemma NotFoundMessagesDistinct(caseId: string, other: string)
    ensures CaseNotFound(caseId) != GeneralNotFound
    ensures OccursAt(caseId, CaseNotFound(caseId), |CaseNotFoundPrefix|)
    ensures caseId != other ==> CaseNotFound(caseId) != CaseNotFound(other)
  {
    assert CaseNotFound(caseId)[3] == CaseNotFoundPrefix[3] == 'd';
    assert GeneralNotFound[3] == 'r';
    InfixOccurs(CaseNotFoundPrefix, caseId, ".");
    InfixOccurs(CaseNotFoundPrefix, other, ".");
    if CaseNotFound(caseId) == CaseNotFound(other) {
      assert |caseId| == |other|;
    }
  }

  /** The context block: the documents in returned order, separated by a
      blank line. */
  function ContextText(docs: seq<string>): string
  {
    Join("\n\n", docs)
  }

  /** Every retrieved document appears verbatim in the context block, the
      documents in returned order with a blank line after each but the last. */
  lemma ContextHasEveryDocument(docs: seq<string>, i: nat)
    requires i < |docs|
    ensures OccursAt(docs[i], ContextText(docs), JoinOffset("\n\n", docs, i))
    ensures i + 1 < |docs| ==> OccursAt("\n\n", ContextText(docs), JoinOffset("\n\n", docs, i) + |docs[i]|)
    ensures i + 1 < |docs| ==> JoinOffset("\n\n", docs, i) + |docs[i]| + 2 == JoinOffset("\n\n", docs, i + 1)
  {
    JoinLayout("\n\n", docs, i);
  }

  const PromptPreamble := "\n        You are an intelligent legal assistant. Answer the question based ONLY on the context below.\n        \n        "
  const ContextGap := ":\n        "
  const QuestionGap := "\n        \n        QUESTION: \n        "
  const PromptTail := "\n        "

  /** The heading of the context: the case id in effect, or `General`. */
  function ContextHeading(caseId: Option<string>): (h: string)
    ensures HasCase(caseId) ==> h == "CONTEXT (Case " + caseId.value + ")"
    ensures !HasCase(caseId) ==> h == "CONTEXT (Case General)"
  {
    "CONTEXT (Case " + (if HasCase(caseId) then caseId.value else "General") + ")"
  }

  /** The generation prompt: the instruction to answer only from the
      context, the labelled context, then the question. */
  function QueryPrompt(caseId: Option<string>, context: string, query: string): string
  {
    PromptPreamble + ContextHeading(caseId) + ContextGap + context + QuestionGap + query + PromptTail
  }

  /** The prompt carries the context heading, the context and the question
      verbatim and in that order: the context follows the heading after
      only the fixed `:` line break, and the question follows the context
      after only the fixed `QUESTION:` line. */
  lemma QueryPromptShape(caseId: Option<string>, context: string, query: string)
    ensures var p := QueryPrompt(caseId, context, query);
            var heading := ContextHeading(caseId);
            var contextAt := |PromptPreamble| + |heading| + |ContextGap|;
            var queryAt := contextAt + |context| + |QuestionGap|;
            OccursAt(heading, p, |PromptPreamble|)
            && OccursAt(context, p, contextAt)
            && OccursAt(query, p, queryAt)
            && Contains(p, heading) && Contains(p, context) && Contains(p, query)
  {
    InsertedAt(PromptPreamble, ContextHeading(caseId), ContextGap, context, QuestionGap, query, PromptTail);
    ContainsInserted(PromptPreamble, ContextHeading(caseId), ContextGap, context, QuestionGap, query, PromptTail);
  }

  /** Embedding the question and asking the vector store for the nearest
      documents, filtered by the case id when one is in effect. */
  function Retrieve(svc: Services, query: string, caseId: Option<string>): Result<seq<string>>
  {
    match svc.embed(query)
    case Err(e) => Err(e)
    case Ok(vector) =>
      match svc.search(vector, TopK, WhereFilter(caseId))
      case Err(e) => Err(e)
      case Ok(results) => Ok(RetrievedDocs(results))
  }

  /** The query handler. A failure of embedding or retrieval is passed on;
      with nothing retrieved the answer is the fixed "not found" message for
      the case id in effect, or the general one; otherwise the answer is the
      generator's result for the prompt built from the documents, unchanged. */
  function ProcessQuery(svc: Services, query: string, caseId: Option<string>): (r: Result<string>)
    ensures Retrieve(svc, query, caseId).Err? ==> r == Err(Retrieve(svc, query, caseId).error)
    ensures Retrieve(svc, query, caseId) == Ok([]) && HasCase(caseId) ==> r == Ok(CaseNotFound(caseId.value))
    ensures Retrieve(svc, query, caseId) == Ok([]) && !HasCase(caseId) ==> r == Ok(GeneralNotFound)
    ensures Retrieve(svc, query, caseId).Ok? && Retrieve(svc, query, caseId).value != [] ==>
              r == svc.generate(QueryPrompt(caseId, ContextText(Retrieve(svc, query, caseId).value), query))
  {
    match Retrieve(svc, query, caseId)
    case Err(e) => Err(e)
    case Ok(docs) =>
      if docs == [] then
        if HasCase(caseId) then Ok(CaseNotFound(caseId.value)) else Ok(GeneralNotFound)
      else
        svc.generate(QueryPrompt(caseId, ContextText(docs), query))
  }

  /** When nothing is retrieved the generator is not consulted: replacing it
      by any other generator gives the same result. */
  lemma GeneratorUnusedWhenNothingFound(svc: Services, other: string -> Result<string>,
                                           query: string, caseId: Option<string>)
    requires Retrieve(svc, query, caseId) == Ok([])
    ensures ProcessQuery(svc, query, caseId) == ProcessQuery(svc.(generate := other), query, caseId)
  {
    assert Retrieve(svc.(generate := other), query, caseId) == Retrieve(svc, query, caseId);
  }

  /** With documents retrieved, the generator is asked once with a prompt
      holding the case heading, every document and the question, and its
      text is the answer. */
  lemma AnswerFromContext(svc: Services, query: string, caseId: Option<string>)
    requires Retrieve(svc, query, caseId).Ok? && Retrieve(svc, query, caseId).value != []
    ensures var docs := Retrieve(svc, query, caseId).value;
            var p := QueryPrompt(caseId, ContextText(docs), query);
            ProcessQuery(svc, query, caseId) == svc.generate(p)
            && Contains(p, ContextHeading(caseId)) && Contains(p, query)
            && forall i :: 0 <= i < |docs| ==> Contains(p, docs[i])
  {
    var docs := Retrieve(svc, query, caseId).value;
    var context := ContextText(docs);
    var p := QueryPrompt(caseId, context, query);
    QueryPromptShape(caseId, context, query);
    forall i | 0 <= i < |docs| ensures Contains(p, docs[i]) {
      ContextHasEveryDocument(docs, i);
      var k :| 0 <= k <= |p| && OccursAt(context, p, k);
      ContainedWithin(docs[i], context, p, JoinOffset("\n\n", docs, i), k);
    }
  }

  /** An occurrence inside an occurrence is an occurrence. */
  lemma ContainedWithin(inner: string, mid: string, outer: string, i: int, k: int)
    requires OccursAt(inner, mid, i) && OccursAt(mid, outer, k)
    ensures Contains(outer, inner)
  {
    forall j | 0 <= j < |inner| ensures outer[k + i + j] == inner[j] {
      assert outer[k..k + |mid|][i + j] == mid[i + j];
      assert mid[i..i + |inner|][j] == inner[j];
    }
    assert outer[k + i..k + i + |inner|] == inner;
    assert OccursAt(inner, outer, k + i);
  }

  /** The answer to the case "CASE123" when nothing is found for it. */
  lemma NotFoundForCase123(svc: Services, query: string)
    requires Retrieve(svc, query, Some("CASE123")) == Ok([])
    ensures ProcessQuery(svc, query, Some("CASE123"))
            == Ok("No documents found specifically for Case ID: CASE123.")
  {
    assert HasCase(Some("CASE123"));
    assert CaseNotFound("CASE123") == "No documents found specifically for Case ID: CASE123.";
  }

  // ---------------------------------------------------------------------
  // HTTP endpoint

  datatype QueryResponse = QueryResponse(answer: string, retrievedCount: int)

  datatype HttpResult = Success(response: QueryResponse) | HttpError(status: int, detail: string)

  const ServiceStarting := "Service starting up..."

  /** The retrieved count every successful response reports: a fixed number,
      written independently of the number of documents asked for. */
  const ReportedCount := 5

  /** The `POST /query/{case_id}` endpoint. `service` is `None` until start-up
      has created the service. */
  function QueryCase(service: Option<Services>, caseId: string, query: string): (r: HttpResult)
    ensures service.None? <==> r == HttpError(503, ServiceStarting)
    ensures r.Success? ==> r.response.retrievedCount == ReportedCount
    ensures service.Some? ==>
              match ProcessQuery(service.value, query, Some(caseId))
              case Ok(answer) => r.Success? && r.response.answer == answer
              case Err(e) => r == HttpError(500, e)
  {
    match service
    case None => HttpError(503, ServiceStarting)
    case Some(svc) =>
      match ProcessQuery(svc, query, Some(caseId))
      case Ok(answer) => Success(QueryResponse(answer, ReportedCount))
      case Err(e) => HttpError(500, e)
  }
}
