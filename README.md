# Chargesheet drafting and case-document retrieval

This is a Dafny model of two pieces of a legal-drafting assistant for police
chargesheets (final reports under Indian criminal law), with proofs about
them.

- **Drafting** (`prompt.py`). A fixed, ordered registry holds four chargesheet
  sections: initial details, properties seized, witnesses and brief facts.
  Each section has a drafting instruction and a list of example
  input/output pairs. For every section in order, the script does three
  things:
  - it formats the examples into a few-shot fragment;
  - it builds a system prompt and a user prompt from the section and the
    case facts;
  - it asks a language model once.

  A non-empty reply is appended to the document under a banner naming the
  section. An empty reply means the call failed; the section is skipped and
  the loop moves on.
- **Query answering** (`main.py`). The question is embedded and the five
  nearest documents are fetched from a vector store, filtered by case id
  when one is given.
  - If nothing comes back, the handler answers with a fixed "not found"
    message.
  - Otherwise it joins the documents into a context block, asks a
    generative model with a prompt that holds the context and the question,
    and returns the model's text.

  An HTTP endpoint wraps the handler. It answers 503 while the service is
  still starting. Any error becomes a 500 carrying the error text. It
  reports a retrieved count of 5 on every success.

The model has three modules:

- `Strings` (`strings.dfy`) covers substring occurrence, Python's `c * n`
  (`Repeat`) and Python's `sep.join(parts)` (`Join`), together with their
  layout lemmas.
- `Prompt` (`prompt.dfy`) covers the few-shot formatter, the section
  registry, the prompts, and the generation loop as a method proved against
  the specification function `Assembled`. The loop asks the model through a
  `Gateway` object that records each conversation sent, so the number and
  order of calls are part of the loop's contract.
- `Query` (`query.dfy`) covers the query handler and the endpoint. The
  embedder, the vector store and the generator are function parameters. An
  `Err` from any of them stands for the exception its client raises.

## Model

| member | source | states |
|---|---|---|
| Strings.Repeat | prompt.py:145 | `'=' * 30` is a string of exactly 30 characters, each of them `=` |
| Strings.JoinLength | main.py:67 | the joined context is as long as the documents plus one separator between each neighbouring pair |
| Strings.JoinLayout | main.py:67 | for `Join` (Python's `sep.join`): each joined document appears verbatim at its offset; the documents keep their returned order; a separator follows every document but the last |
| Prompt.FewShotText | prompt.py:94-100 | the few-shot fragment is empty exactly when there are no examples; otherwise it starts with the "Here are examples…" header |
| Prompt.FormatFewShot | prompt.py:94-100 | the formatter loop (empty-input early return, header, then one block appended per example) produces exactly `FewShotText` |
| Prompt.FewShotLayout | prompt.py:97-99 | with `ExampleBlock` (one example's f-string, prompt.py:99): the fragment is the header, the blocks of the earlier examples, this example's block, then the blocks of the later examples |
| Prompt.FewShotVerbatim | prompt.py:98-99 | every example's input and output appear verbatim in the fragment, the input before the output |
| Prompt.FewShotOrder | prompt.py:98-99 | consecutive examples' blocks are adjacent and appear in list order |
| Prompt.Registry | prompt.py:58-75 | four sections in declared order with their names and instruction texts; the first section has no examples and so no few-shot text; the other three carry their example lists |
| Prompt.SectionMessagesShape | prompt.py:123-139 | for `SectionMessages`, `SystemPrompt` and `UserPrompt`: two messages, system then user; the system one holds the section name, then its instruction, then its few-shot text, each at its fixed offset right after its template text; the user one holds the name right after its template text and ends with the case facts |
| Prompt.SectionBlockShape | prompt.py:145 | for `SectionBlock`: the appended block, position by position: blank line, rule of 30 `=`, `SECTION: ` and name, a second rule, then the reply unchanged |
| Prompt.Attempts | prompt.py:119-142 | every section, in registry order, is paired with the model's reply to its own two messages, whatever the other replies were |
| Prompt.Requests | prompt.py:119-139 | the conversations the loop sends: exactly one per section, the i-th being the i-th section's two messages |
| Prompt.Gateway.Ask | prompt.py:142 | one model call: the reply is the model's reply to the conversation, and the conversation is appended once to the record of calls |
| Prompt.DraftSection | prompt.py:123-142 | one section's drafting adds exactly one call to the record, the section's two messages, and yields the model's reply to them (no retry) |
| Prompt.GenerateChargesheet | prompt.py:115-150 | the loop's final document equals `Assembled` of the attempts, and the record of calls grows by exactly `Requests`: one call per section, in registry order, none repeated or skipped |
| Prompt.GenerateSection | prompt.py:120-148 | one loop iteration keeps both loop invariants: the document grows by the section's contribution and the record of calls by that section's conversation |
| Prompt.GenerationStep | prompt.py:144-148 | with `Contribution` (the `if content:` append): one iteration extends the document by the section's block when the reply is non-empty, and by nothing otherwise |
| Prompt.AssembledRendersSuccesses | prompt.py:115-148 | the document is exactly the blocks of the sections that produced content, in registry order, and nothing else |
| Prompt.AllSucceed | prompt.py:144-145 | when every call succeeds, every section is kept |
| Prompt.RegistryAllSucceed | prompt.py:119-148 | with every call succeeding, the document has four blocks: the four section names in declared order, each with its own reply |
| Prompt.FailureSkipsOnlyItself | prompt.py:144-148 | a failed section adds nothing and does not stop later sections: the document is the earlier sections' text followed by the later sections' text |
| Prompt.SpanEmptyIff | prompt.py:144-148 | the text from the first sections is empty exactly when each of them failed |
| Prompt.AssembledEmptyIff | prompt.py:115-148 | the document is empty exactly when every section failed |
| Prompt.AssembledPrefix | prompt.py:145 | appending never rewrites: the text from the first k sections is a prefix of the final document |
| Query.WhereFilter | main.py:50 | with `HasCase` (Python truthiness of `case_id`, also used at main.py:62 and 71): a filter exists exactly when the case id is present and non-empty; it then has only the `case_id` field, equal to the id |
| Query.RetrievedDocs | main.py:59 | a missing or empty `documents` field gives no documents; otherwise the result is the list for the one query vector |
| Query.NotFoundMessagesDistinct | main.py:61-64 | for `CaseNotFound` and `GeneralNotFound`: the case-specific and the general "not found" answers differ; the case-specific one holds the id verbatim after its fixed prefix; different ids give different answers |
| Query.ContextHasEveryDocument | main.py:67 | for `ContextText`: every retrieved document appears verbatim in the context block, in returned order, with a blank line between neighbours |
| Query.ContextHeading | main.py:71 | the context is headed `CONTEXT (Case <id>)` when a case id is in effect, `CONTEXT (Case General)` otherwise |
| Query.QueryPromptShape | main.py:68-76 | for `QueryPrompt`: the generation prompt holds the context heading, then the context block right after the fixed `:` line break, then the question right after the fixed `QUESTION:` line, all verbatim |
| Query.ProcessQuery | main.py:43-79 | with `Retrieve` (embed, then search with `TopK` and the filter, main.py:47-59): embedding and retrieval errors propagate; with nothing retrieved the answer is the case-specific or the general "not found" message; otherwise the answer is the generator's result for the prompt, unchanged |
| Query.GeneratorUnusedWhenNothingFound | main.py:61-64 | when nothing is retrieved the generator is not consulted: any other generator gives the same answer |
| Query.AnswerFromContext | main.py:66-79 | with documents retrieved, the answer is the generator's text for a prompt that holds the heading, every retrieved document and the question |
| Query.NotFoundForCase123 | main.py:62-63 | for case `CASE123` with nothing retrieved the answer is `No documents found specifically for Case ID: CASE123.` |
| Query.QueryCase | main.py:91-99 | 503 `Service starting up...` exactly when the service does not exist yet; a handler error becomes 500 with the error text; a success returns the handler's answer with retrieved count `ReportedCount` (5, main.py:97, independent of the `TopK` of main.py:55), whatever number of documents was retrieved |

## Left out

- `askGemini` (prompt.py:78-92) is modelled by the `Gateway` class: a fixed total function from the conversation to a reply, plus a ghost record of every conversation sent. The same conversation always gets the same reply. The HTTP request, JSON decoding, model id, token limit and temperature are not modelled. Every kind of failure shows up only as the empty reply.
- The case facts and the three example lists are parameters, not their literal texts (prompt.py:12-55, 104-112).
- The registry entry whose `examples` is the empty string `""` (prompt.py:61) is modelled as an empty example list. The formatter treats both as "no examples".
- The progress prints, the one-second delay (prompt.py:150) and the write of the finished document to `Generated_Chargesheet.txt` (prompt.py:153-156) are left out. The model's result is the document text that gets written.
- `RAGService.__init__` (main.py:23-41), the start-up event, the FastAPI app and uvicorn are left out. A running service is modelled as `Some(services)`, one still starting as `None`.
- Pydantic validation of the request and response bodies is left out.
- The sentence embedder, the Chroma collection and the Gemini model are function parameters. The vector type is an arbitrary sequence of reals. No ranking or similarity property is modelled.
- Query.RetrievedDocs: a `documents` key missing from the store's answer would raise in the source; here it is not distinguished from an empty field. A `None` inside the outer list is not modelled either.
- Query.QueryCase: exceptions raised anywhere other than by the three services are not modelled. Only service errors, carried as `Err`, turn into a 500.
- The generator's reply is modelled as text; the `.text` accessor and its own failure modes are part of the generator parameter.
