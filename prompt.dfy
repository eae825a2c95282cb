/** Chargesheet assembly: the few-shot formatter, the ordered registry of the
    four chargesheet sections and the generation loop that asks the language
    model for each section and appends the successful ones to the document. */
module Prompt {
  import opened Strings

  /** One input/output pair shown to the model as an example. */
  datatype Example = Example(input: string, output: string)

  /** A chargesheet section: its name, drafting instruction and examples. */
  datatype Section = Section(name: string, instruction: string, examples: seq<Example>)

  datatype Role = System | User

  /** A role-tagged chat message sent to the language model. */
  datatype Message = Message(role: Role, content: string)

  /** The language-model call: some reply for every conversation, where the
      empty reply stands for every kind of failure. */
  type Oracle = seq<Message> -> string

  /** A section name with the model's reply to it; the reply is empty when
      the call failed. */
  datatype GeneratedSection = GeneratedSection(name: string, content: string)

  // ---------------------------------------------------------------------
  // Few-shot formatting

  const FewShotHeader := "Here are examples of the expected output format:\n"
  const InputLabel := "\n[EXAMPLE INPUT]:\n"
  const OutputLabel := "\n[EXAMPLE OUTPUT]:\n"

  /** The text one example contributes to the few-shot fragment. */
  function ExampleBlock(e: Example): string
  {
    InputLabel + e.input + OutputLabel + e.output + "\n"
  }

  /** The blocks of `examples[lo..hi]`, in list order. */
  function ExampleSpan(examples: seq<Example>, lo: nat, hi: nat): string
    requires lo <= hi <= |examples|
    decreases hi
  {
    if hi == lo then "" else ExampleSpan(examples, lo, hi - 1) + ExampleBlock(examples[hi - 1])
  }

  /** The few-shot fragment of a list of examples: nothing at all for no
      examples, otherwise the header and then one block per example. */
  function FewShotText(examples: seq<Example>): (r: string)
    ensures r == "" <==> examples == []
    ensures examples != [] ==> |FewShotHeader| <= |r| && r[..|FewShotHeader|] == FewShotHeader
  {
    if |examples| == 0 then "" else FewShotHeader + ExampleSpan(examples, 0, |examples|)
  }

  /** The few-shot formatter, building the text block by block. */
  method FormatFewShot(examples: seq<Example>) returns (text: string)
    ensures text == FewShotText(examples)
  {
    if |examples| == 0 {
      return "";
    }
    text := FewShotHeader;
    for i := 0 to |examples|
      invariant text == FewShotHeader + ExampleSpan(examples, 0, i)
    {
      text := text + ExampleBlock(examples[i]);
    }
  }

  lemma {:induction false} ExampleSpanSplit(examples: seq<Example>, lo: nat, mid: nat, hi: nat)
    requires lo <= mid <= hi <= |examples|
    ensures ExampleSpan(examples, lo, hi) == ExampleSpan(examples, lo, mid) + ExampleSpan(examples, mid, hi)
    decreases hi
  {
    if hi > mid {
      ExampleSpanSplit(examples, lo, mid, hi - 1);
    }
  }

  /** The few-shot text is the header, the blocks of the examples before the
      `i`-th one, the `i`-th example's block, and the blocks after it. */
  lemma FewShotLayout(examples: seq<Example>, i: nat)
    requires i < |examples|
    ensures FewShotText(examples)
            == FewShotHeader + ExampleSpan(examples, 0, i) + ExampleBlock(examples[i])
               + ExampleSpan(examples, i + 1, |examples|)
  {
    ExampleSpanSplit(examples, 0, i, |examples|);
    ExampleSpanSplit(examples, i, i + 1, |examples|);
    var a, b, c := ExampleSpan(examples, 0, i), ExampleBlock(examples[i]), ExampleSpan(examples, i + 1, |examples|);
    assert ExampleSpan(examples, i, i + 1) == b;
    AppendAssoc4(FewShotHeader, a, b, c);
  }

  /** Every example's input and output appear verbatim in the few-shot text,
      the input before the output. */
  lemma FewShotVerbatim(examples: seq<Example>, i: nat)
    requires i < |examples|
    ensures exists p, q :: OccursAt(examples[i].input, FewShotText(examples), p)
                           && OccursAt(examples[i].output, FewShotText(examples), q)
                           && p + |examples[i].input| < q
  {
    var e := examples[i];
    var before := FewShotHeader + ExampleSpan(examples, 0, i);
    var after := ExampleSpan(examples, i + 1, |examples|);
    FewShotLayout(examples, i);
    var p := |before| + |InputLabel|;
    var q := p + |e.input| + |OutputLabel|;
    OccursInBlock(e, before, after);
  }

  /** Where the input and output of one example sit inside a text that holds
      its block. */
  lemma OccursInBlock(e: Example, before: string, after: string)
    ensures var t := before + ExampleBlock(e) + after;
            var p := |before| + |InputLabel|;
            OccursAt(e.input, t, p) && OccursAt(e.output, t, p + |e.input| + |OutputLabel|)
  {
    var t := before + ExampleBlock(e) + after;
    var p := |before| + |InputLabel|;
    assert |InputLabel| == 18 && |OutputLabel| == 19;
    assert t[p..p + |e.input|] == e.input;
    var q := p + |e.input| + |OutputLabel|;
    assert t[q..q + |e.output|] == e.output;
  }

  /** Consecutive examples keep their order: the whole block of the `i`-th
      example ends where the block of the `(i+1)`-th begins. */
  lemma FewShotOrder(examples: seq<Example>, i: nat)
    requires i + 1 < |examples|
    ensures var t := FewShotText(examples);
            var p := |FewShotHeader| + |ExampleSpan(examples, 0, i)|;
            OccursAt(ExampleBlock(examples[i]), t, p)
            && OccursAt(ExampleBlock(examples[i + 1]), t, p + |ExampleBlock(examples[i])|)
  {
    var before := FewShotHeader + ExampleSpan(examples, 0, i);
    FewShotLayout(examples, i);
    InfixOccurs(before, ExampleBlock(examples[i]), ExampleSpan(examples, i + 1, |examples|));
    FewShotLayout(examples, i + 1);
    assert ExampleSpan(examples, 0, i + 1) == ExampleSpan(examples, 0, i) + ExampleBlock(examples[i]);
    InfixOccurs(FewShotHeader + ExampleSpan(examples, 0, i + 1), ExampleBlock(examples[i + 1]),
                ExampleSpan(examples, i + 2, |examples|));
  }

  // ---------------------------------------------------------------------
  // Section registry

  const InitialDetailsInstruction := "Generate the 'Final Form/Report' header table (Form 5.4). Include District, PS, FIR No, Date, and Sections. Use standard format."
  const PropertiesSeizedInstruction := "Generate the table for 'Details of properties/Articles/Documents recovered/Seized'. Use the exact table headers: Sl. No., Property Description, Estimated Value, P.S. Property Register No., From whom/where recovered, Disposal."
  const WitnessesInstruction := "Generate the table for 'Particulars of witnesses to be examined'. Columns: Sr. No., Name, Father's/Husband's Name, Age, Occupation, Address, Type of evidence."
  const BriefFactsInstruction := "Generate 'Brief Facts of the case'. Start strictly with 'MAY IT PLEASE YOUR HONOUR'. Narrate the incident chronologically. End with 'Hence the charge.' or 'HENCE THE CHARGE'."

  /** The four chargesheet sections in their declared order. The example
      lists are reference data passed in; the first section has none. */
  function Registry(propertiesExamples: seq<Example>, witnessExamples: seq<Example>,
                    briefFactsExamples: seq<Example>): (r: seq<Section>)
    ensures |r| == 4
    ensures r[0].name == "1_Initial_Details" && r[1].name == "2_Properties_Seized"
            && r[2].name == "3_Witnesses" && r[3].name == "4_Brief_Facts"
    ensures FewShotText(r[0].examples) == ""
    ensures r[1].examples == propertiesExamples && r[2].examples == witnessExamples
            && r[3].examples == briefFactsExamples
    ensures r[0].instruction == InitialDetailsInstruction && r[1].instruction == PropertiesSeizedInstruction
            && r[2].instruction == WitnessesInstruction && r[3].instruction == BriefFactsInstruction
  {
    [ Section("1_Initial_Details", InitialDetailsInstruction, []),
      Section("2_Properties_Seized", PropertiesSeizedInstruction, propertiesExamples),
      Section("3_Witnesses", WitnessesInstruction, witnessExamples),
      Section("4_Brief_Facts", BriefFactsInstruction, briefFactsExamples) ]
  }

  // ---------------------------------------------------------------------
  // Prompts for one section

  const SystemIntro := "You are a Legal Drafting Assistant for Indian Criminal Law. \n    Task: Draft the section '"
  const SystemGuidelines := "' for a Police Final Report (Chargesheet).\n    \n    GUIDELINES:\n    "
  const SystemGap := "\n    \n    "
  const SystemTail := "\n    "
  const UserIntro := "Using the following facts, generate the section '"
  const UserFacts := "':\n\n"

  /** The system prompt: the drafting role, the section name, its
      instruction and its few-shot text. */
  function SystemPrompt(name: string, instruction: string, fewShot: string): string
  {
    SystemIntro + name + SystemGuidelines + instruction + SystemGap + fewShot + SystemTail
  }

  /** The user prompt: the section requested, then the case facts. */
  function UserPrompt(name: string, facts: string): string
  {
    UserIntro + name + UserFacts + facts
  }

  /** The conversation sent to the model for one section: system, then user. */
  function SectionMessages(s: Section, facts: string): seq<Message>
  {
    [ Message(System, SystemPrompt(s.name, s.instruction, FewShotText(s.examples))),
      Message(User, UserPrompt(s.name, facts)) ]
  }

  /** Exactly two messages, system then user. The system message carries
      the section name, then its instruction, then its few-shot text, each
      right after its fixed template text; the user message carries the
      section name and then the case facts verbatim, facts last. */
  lemma SectionMessagesShape(s: Section, facts: string)
    ensures var m := SectionMessages(s, facts);
            var fewShot := FewShotText(s.examples);
            var instructionAt := |SystemIntro| + |s.name| + |SystemGuidelines|;
            var fewShotAt := instructionAt + |s.instruction| + |SystemGap|;
            |m| == 2 && m[0].role == System && m[1].role == User
            && OccursAt(s.name, m[0].content, |SystemIntro|)
            && OccursAt(s.instruction, m[0].content, instructionAt)
            && OccursAt(fewShot, m[0].content, fewShotAt)
            && Contains(m[0].content, s.name)
            && Contains(m[0].content, s.instruction)
            && Contains(m[0].content, fewShot)
            && OccursAt(s.name, m[1].content, |UserIntro|)
            && Contains(m[1].content, s.name)
            && |m[1].content| - |facts| == |UserIntro| + |s.name| + |UserFacts|
            && OccursAt(facts, m[1].content, |m[1].content| - |facts|)
  {
    InsertedAt(SystemIntro, s.name, SystemGuidelines, s.instruction, SystemGap, FewShotText(s.examples), SystemTail);
    ContainsInserted(SystemIntro, s.name, SystemGuidelines, s.instruction, SystemGap, FewShotText(s.examples), SystemTail);
    EndsWithInserted(UserIntro, s.name, UserFacts, facts);
  }

  // ---------------------------------------------------------------------
  // Document assembly

  const RuleWidth := 30
  const BlockOpen := "\n\n"
  const SectionLabel := "\nSECTION: "

  /** The block appended to the document for a section that produced content. */
  function SectionBlock(name: string, content: string): string
  {
    BlockOpen + Repeat('=', RuleWidth) + SectionLabel + name + "\n" + Repeat('=', RuleWidth) + "\n" + content
  }

  /** The block's layout, position by position: a blank line, a rule of 30
      '=' characters, the `SECTION:` label with the name, a second rule, and
      then the content unchanged up to the end. */
  lemma SectionBlockShape(name: string, content: string)
    ensures var b := SectionBlock(name, content);
            var n := |name|;
            |b| == 74 + n + |content|
            && b[..2] == "\n\n"
            && (forall i :: 2 <= i < 32 ==> b[i] == '=')
            && b[32..42] == "\nSECTION: "
            && b[42..42 + n] == name
            && b[42 + n] == '\n'
            && (forall i :: 43 + n <= i < 73 + n ==> b[i] == '=')
            && b[73 + n] == '\n'
            && b[74 + n..] == content
  {
    var rule := Repeat('=', RuleWidth);
    var b := SectionBlock(name, content);
    var n := |name|;
    var pre := BlockOpen + rule + SectionLabel;
    assert b == pre + name + "\n" + rule + "\n" + content;
    assert |pre| == 42;
    assert b[..2] == "\n\n";
    forall i | 2 <= i < 32 ensures b[i] == '=' {
      assert b[i] == rule[i - 2];
    }
    assert b[32..42] == "\nSECTION: ";
    assert b[42..42 + n] == name;
    forall i | 43 + n <= i < 73 + n ensures b[i] == '=' {
      assert b[i] == rule[i - 43 - n];
    }
    assert b[74 + n..] == content;
  }

  /** A block is never empty: it starts with a blank line. */
  lemma SectionBlockNonEmpty(name: string, content: string)
    ensures |SectionBlock(name, content)| > 0
  {
    assert SectionBlock(name, content)[0] == BlockOpen[0];
  }

  /** The model's reply for one section. */
  function Reply(ask: Oracle, s: Section, facts: string): string
  {
    ask(SectionMessages(s, facts))
  }

  /** Every section paired with the model's reply to it, in registry order;
      a failed section has empty content. */
  function Attempts(sections: seq<Section>, facts: string, ask: Oracle): (gs: seq<GeneratedSection>)
    ensures |gs| == |sections|
    ensures forall i :: 0 <= i < |sections| ==>
              gs[i].name == sections[i].name && gs[i].content == Reply(ask, sections[i], facts)
  {
    seq(|sections|, i requires 0 <= i < |sections| =>
      GeneratedSection(sections[i].name, Reply(ask, sections[i], facts)))
  }

  /** What one attempt appends to the document: its block when the content
      is non-empty, nothing otherwise. */
  function Contribution(g: GeneratedSection): string
  {
    if g.content != "" then SectionBlock(g.name, g.content) else ""
  }

  /** The text appended by `attempts[lo..hi]`, in order. */
  function Span(attempts: seq<GeneratedSection>, lo: nat, hi: nat): string
    requires lo <= hi <= |attempts|
    decreases hi
  {
    if hi == lo then "" else Span(attempts, lo, hi - 1) + Contribution(attempts[hi - 1])
  }

  /** The final document: the text appended by all attempts, starting from
      the empty document. */
  function Assembled(attempts: seq<GeneratedSection>): string
  {
    Span(attempts, 0, |attempts|)
  }

  /** The connection to the language model. `respond` is the model's reply
      to a conversation; `calls` records every conversation sent, in order. */
  class Gateway {
    const respond: Oracle
    ghost var calls: seq<seq<Message>>

    constructor(respond: Oracle)
      ensures this.respond == respond && calls == []
    {
      this.respond := respond;
      calls := [];
    }

    /** One model call: the conversation is sent once and recorded. */
    method Ask(messages: seq<Message>) returns (reply: string)
      modifies this
      ensures reply == respond(messages)
      ensures calls == old(calls) + [messages]
    {
      reply := respond(messages);
      calls := calls + [messages];
    }
  }

  /** The conversations the generation loop sends: one per section, in
      registry order. */
  function Requests(sections: seq<Section>, facts: string): (rs: seq<seq<Message>>)
    ensures |rs| == |sections|
    ensures forall i :: 0 <= i < |sections| ==> rs[i] == SectionMessages(sections[i], facts)
  {
    seq(|sections|, i requires 0 <= i < |sections| => SectionMessages(sections[i], facts))
  }

  /** Drafting one section: format its examples, build the two prompts and
      ask the model exactly once. */
  method DraftSection(section: Section, facts: string, gateway: Gateway) returns (content: string)
    modifies gateway
    ensures content == Reply(gateway.respond, section, facts)
    ensures gateway.calls == old(gateway.calls) + [SectionMessages(section, facts)]
  {
    var fewShotText := FormatFewShot(section.examples);
    var messages := [ Message(System, SystemPrompt(section.name, section.instruction, fewShotText)),
                      Message(User, UserPrompt(section.name, facts)) ];
    content := gateway.Ask(messages);
  }

  /** The generation loop over the sections: one model call per section, in
      registry order, whatever earlier calls returned; a non-empty reply
      appends the section's block to the document. */
  method GenerateChargesheet(sections: seq<Section>, facts: string, gateway: Gateway) returns (document: string)
    modifies gateway
    ensures document == Assembled(Attempts(sections, facts, gateway.respond))
    ensures gateway.calls == old(gateway.calls) + Requests(sections, facts)
  {
    ghost var attempts := Attempts(sections, facts, gateway.respond);
    ghost var requests := Requests(sections, facts);
    document := "";
    for i := 0 to |sections|
      invariant document == Span(attempts, 0, i)
      invariant gateway.calls == old(gateway.calls) + requests[..i]
    {
      document := GenerateSection(sections, facts, gateway, i, document, old(gateway.calls));
    }
    assert requests[..|sections|] == requests;
  }

  /** One iteration of the generation loop: draft the `i`-th section, append
      its block when the reply is non-empty, and record the one call made.
      `initial` is the record of calls from before the loop. */
  method GenerateSection(sections: seq<Section>, facts: string, gateway: Gateway, i: nat, document: string,
                         ghost initial: seq<seq<Message>>)
    returns (extended: string)
    requires i < |sections|
    requires document == Span(Attempts(sections, facts, gateway.respond), 0, i)
    requires gateway.calls == initial + Requests(sections, facts)[..i]
    modifies gateway
    ensures extended == Span(Attempts(sections, facts, gateway.respond), 0, i + 1)
    ensures gateway.calls == initial + Requests(sections, facts)[..i + 1]
  {
    var content := DraftSection(sections[i], facts, gateway);
    AppendNext(Requests(sections, facts), i, initial, old(gateway.calls));
    extended := document;
    if content != "" {
      extended := extended + SectionBlock(sections[i].name, content);
    }
  }

  /** Extending a record by the next element of a sequence extends the
      recorded prefix by one. */
  lemma AppendNext<T>(rs: seq<T>, i: nat, initial: seq<T>, before: seq<T>)
    requires i < |rs|
    requires before == initial + rs[..i]
    ensures before + [rs[i]] == initial + rs[..i + 1]
  {
    assert rs[..i + 1] == rs[..i] + [rs[i]];
  }

  /** One iteration of the generation loop extends the document by the
      current section's contribution. */
  lemma GenerationStep(sections: seq<Section>, facts: string, ask: Oracle, i: nat)
    requires i < |sections|
    ensures var attempts := Attempts(sections, facts, ask);
            var content := Reply(ask, sections[i], facts);
            Span(attempts, 0, i + 1)
            == Span(attempts, 0, i) + (if content != "" then SectionBlock(sections[i].name, content) else "")
  {
    var attempts := Attempts(sections, facts, ask);
    assert attempts[i] == GeneratedSection(sections[i].name, Reply(ask, sections[i], facts));
  }

  // ---------------------------------------------------------------------
  // Properties of the assembled document

  lemma {:induction false} SpanSplit(attempts: seq<GeneratedSection>, lo: nat, mid: nat, hi: nat)
    requires lo <= mid <= hi <= |attempts|
    ensures Span(attempts, lo, hi) == Span(attempts, lo, mid) + Span(attempts, mid, hi)
    decreases hi
  {
    if hi > mid {
      SpanSplit(attempts, lo, mid, hi - 1);
    }
  }

  /** Reference definition: the attempts with non-empty content, in order. */
  function Successes(attempts: seq<GeneratedSection>): seq<GeneratedSection>
  {
    if |attempts| == 0 then []
    else (if attempts[0].content != "" then [attempts[0]] else []) + Successes(attempts[1..])
  }

  /** Rendering of a list of generated sections: their blocks in order. */
  function Render(gs: seq<GeneratedSection>): string
  {
    if |gs| == 0 then "" else SectionBlock(gs[0].name, gs[0].content) + Render(gs[1..])
  }

  lemma {:induction false} SpanRendersSuccesses(attempts: seq<GeneratedSection>, lo: nat)
    requires lo <= |attempts|
    ensures Span(attempts, lo, |attempts|) == Render(Successes(attempts[lo..]))
    decreases |attempts| - lo
  {
    var n := |attempts|;
    if lo == n {
      assert attempts[lo..] == [];
    } else {
      SpanRendersSuccesses(attempts, lo + 1);
      SpanSplit(attempts, lo, lo + 1, n);
      assert Span(attempts, lo, lo + 1) == Contribution(attempts[lo]);
      var rest := attempts[lo..];
      assert rest[0] == attempts[lo] && rest[1..] == attempts[lo + 1..];
      var later := Successes(attempts[lo + 1..]);
      if attempts[lo].content != "" {
        assert ([attempts[lo]] + later)[1..] == later;
      } else {
        assert [] + later == later;
      }
    }
  }

  /** The final document is exactly the blocks of the sections that
      produced content, in registry order, and nothing else. */
  lemma AssembledRendersSuccesses(attempts: seq<GeneratedSection>)
    ensures Assembled(attempts) == Render(Successes(attempts))
  {
    SpanRendersSuccesses(attempts, 0);
    assert attempts[0..] == attempts;
  }

  /** When every section produces content, the successes are all the
      attempts, one per section, in registry order. */
  lemma {:induction false} AllSucceed(attempts: seq<GeneratedSection>)
    requires forall i :: 0 <= i < |attempts| ==> attempts[i].content != ""
    ensures Successes(attempts) == attempts
  {
    if |attempts| > 0 {
      AllSucceed(attempts[1..]);
      assert [attempts[0]] + attempts[1..] == attempts;
    }
  }

  /** The registry scenario with every call succeeding: exactly four blocks,
      labelled with the four section names in declared order, each holding
      that section's reply. */
  lemma RegistryAllSucceed(propertiesExamples: seq<Example>, witnessExamples: seq<Example>,
                           briefFactsExamples: seq<Example>, facts: string, ask: Oracle)
    requires var r := Registry(propertiesExamples, witnessExamples, briefFactsExamples);
             forall i :: 0 <= i < |r| ==> Reply(ask, r[i], facts) != ""
    ensures var r := Registry(propertiesExamples, witnessExamples, briefFactsExamples);
            var gs := Successes(Attempts(r, facts, ask));
            Assembled(Attempts(r, facts, ask)) == Render(gs)
            && |gs| == 4
            && gs[0].name == "1_Initial_Details" && gs[1].name == "2_Properties_Seized"
            && gs[2].name == "3_Witnesses" && gs[3].name == "4_Brief_Facts"
            && forall i :: 0 <= i < 4 ==> gs[i].content == Reply(ask, r[i], facts)
  {
    var r := Registry(propertiesExamples, witnessExamples, briefFactsExamples);
    var attempts := Attempts(r, facts, ask);
    AllSucceed(attempts);
    AssembledRendersSuccesses(attempts);
  }

  /** A failed section contributes nothing and does not stop the later
      sections: the document is what the earlier sections append followed by
      what the later sections append. */
  lemma FailureSkipsOnlyItself(attempts: seq<GeneratedSection>, k: nat)
    requires k < |attempts|
    requires attempts[k].content == ""
    ensures Assembled(attempts) == Span(attempts, 0, k) + Span(attempts, k + 1, |attempts|)
  {
    SpanSplit(attempts, 0, k, |attempts|);
    SpanSplit(attempts, k, k + 1, |attempts|);
    SingleSpan(attempts, k);
    DropEmpty(Span(attempts, 0, k), Span(attempts, k, k + 1), Span(attempts, k + 1, |attempts|));
  }

  lemma SingleSpan(attempts: seq<GeneratedSection>, k: nat)
    requires k < |attempts|
    ensures Span(attempts, k, k + 1) == Contribution(attempts[k])
  {
    assert Span(attempts, k, k) == "";
  }

  lemma DropEmpty(a: string, b: string, c: string)
    requires b == ""
    ensures a + (b + c) == a + c
  {
  }

  /** The text appended by the first `hi` attempts is empty exactly when every
      one of them failed. */
  lemma {:induction false} SpanEmptyIff(attempts: seq<GeneratedSection>, hi: nat)
    requires hi <= |attempts|
    ensures Span(attempts, 0, hi) == "" <==> forall i :: 0 <= i < hi ==> attempts[i].content == ""
  {
    if hi > 0 {
      SpanEmptyIff(attempts, hi - 1);
      var g := attempts[hi - 1];
      if g.content != "" {
        SectionBlockNonEmpty(g.name, g.content);
      }
    }
  }

  /** The document is empty exactly when every section failed. */
  lemma AssembledEmptyIff(attempts: seq<GeneratedSection>)
    ensures Assembled(attempts) == "" <==> forall i :: 0 <= i < |attempts| ==> attempts[i].content == ""
  {
    SpanEmptyIff(attempts, |attempts|);
  }

  /** Text already in the document is never changed by later sections: what
      the first `k` attempts appended is a prefix of the final document. */
  lemma AssembledPrefix(attempts: seq<GeneratedSection>, k: nat)
    requires k <= |attempts|
    ensures var doc := Assembled(attempts);
            var part := Span(attempts, 0, k);
            |part| <= |doc| && doc[..|part|] == part
  {
    SpanSplit(attempts, 0, k, |attempts|);
  }
}
