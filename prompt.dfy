/**
 * Building the system message that is sent to the completion provider: a fixed
 * persona, the instruction for the requested brand tone, the house rules (among
 * them the `ESCALATE:` convention) and the knowledge-base text.
 */
module Prompt {
  import opened Wrappers
  import opened Text

  /** The three brand tones that have their own instruction. */
  datatype Tone = Friendly | Formal | Casual

  /** The tone that applies to a request: an unknown tone name falls back to friendly. */
  function ToneOf(brandTone: string): (t: Tone)
    ensures t == Formal <==> brandTone == "formal"
    ensures t == Casual <==> brandTone == "casual"
    ensures t == Friendly <==> brandTone != "formal" && brandTone != "casual"
  {
    if brandTone == "formal" then Formal
    else if brandTone == "casual" then Casual
    else Friendly
  }

  /** The words every tone instruction opens with. */
  const InstructionLead: string := "You are a "

  const FriendlyInstruction: string :=
    InstructionLead + "friendly" + " and helpful customer support AI. Use a warm, approachable tone with empathy. Use casual language and express genuine care for the customer's needs."
  const FormalInstruction: string :=
    InstructionLead + "professional" + " customer support AI. Maintain a courteous and respectful tone. Use proper grammar and formal language while remaining helpful."
  const CasualInstruction: string :=
    InstructionLead + "relaxed" + " and easy-going customer support AI. Use a conversational, informal tone. Be helpful while keeping things light and approachable."

  /** The instruction table. */
  function Instruction(t: Tone): string
  {
    match t
    case Friendly => FriendlyInstruction
    case Formal => FormalInstruction
    case Casual => CasualInstruction
  }

  /** `tone_instructions.get(brand_tone, tone_instructions['friendly'])`. */
  function ToneInstruction(brandTone: string): (r: string)
    ensures brandTone == "formal" ==> r == FormalInstruction
    ensures brandTone == "casual" ==> r == CasualInstruction
    ensures brandTone != "formal" && brandTone != "casual" ==> r == FriendlyInstruction
  {
    Instruction(ToneOf(brandTone))
  }

  const Opening: string := "You are SupportGenie, an AI-powered customer support assistant. "

  /** The marker the model is told to open a reply with when a human must take over. */
  const Marker: string := "ESCALATE:"

  /** The house rules up to the quoted marker. */
  const RulesLead: string :=
    "\n\nKey responsibilities:\n"
    + "- Answer customer queries accurately and helpfully\n"
    + "- Maintain the specified brand tone consistently\n"
    + "- If you cannot answer something or it requires human intervention, respond with \""

  /** The house rules after the quoted marker, up to the knowledge-base text. */
  const RulesTail: string :=
    "\" followed by a brief explanation of why escalation is needed\n"
    + "- Use the knowledge base information provided when relevant\n"
    + "\nKnowledge Base Information:\n"

  const Guidelines: string := RulesLead + Marker + RulesTail

  const Closing: string := "\n\nAlways be concise but thorough in your responses."

  /** Everything of a system message that comes before the knowledge-base text. */
  function Header(t: Tone): string
  {
    Opening + Instruction(t) + Guidelines
  }

  /** `get_system_message(brand_tone, knowledge_base)`. */
  function SystemMessage(brandTone: string, knowledgeBase: string): (r: string)
  {
    Header(ToneOf(brandTone)) + knowledgeBase + Closing
  }

  /** The knowledge-base text handed to the prompt: every stored content, newline-separated. */
  function KnowledgeText(contents: seq<string>): string
  {
    Join(contents, "\n")
  }

  /**
   * Reads a system message back: which tone's header it starts with and what
   * knowledge-base text sits between that header and the closing line.
   */
  function ParseSystemMessage(msg: string): Option<(Tone, string)>
  {
    if |msg| < |Closing| || msg[|msg| - |Closing|..] != Closing then None
    else
      var body := msg[..|msg| - |Closing|];
      if StartsWith(body, Header(Friendly)) then Some((Friendly, body[|Header(Friendly)|..]))
      else if StartsWith(body, Header(Formal)) then Some((Formal, body[|Header(Formal)|..]))
      else if StartsWith(body, Header(Casual)) then Some((Casual, body[|Header(Casual)|..]))
      else None
  }

  /** The character that tells the three headers apart. */
  function MarkOf(t: Tone): char
  {
    match t
    case Friendly => 'f'
    case Formal => 'p'
    case Casual => 'r'
  }

  lemma HeaderMark(t: Tone)
    ensures |Opening| + |InstructionLead| < |Header(t)|
    ensures Header(t)[|Opening| + |InstructionLead|] == MarkOf(t)
  {
    match t
    case Friendly =>
      FirstOfPiece(Opening, InstructionLead, "friendly", FriendlyInstruction[|InstructionLead| + 8..], Guidelines);
    case Formal =>
      FirstOfPiece(Opening, InstructionLead, "professional", FormalInstruction[|InstructionLead| + 12..], Guidelines);
    case Casual =>
      FirstOfPiece(Opening, InstructionLead, "relaxed", CasualInstruction[|InstructionLead| + 7..], Guidelines);
  }

  /** A message built for one tone does not start with another tone's header. */
  lemma HeadersDistinct(t: Tone, u: Tone, rest: string)
    requires t != u
    ensures !StartsWith(Header(t) + rest, Header(u))
  {
    HeaderMark(t);
    HeaderMark(u);
    DiffersAt(Header(t), Header(u), rest, |Opening| + |InstructionLead|);
  }

  /**
   * The system message carries the effective tone and the knowledge-base text
   * verbatim: parsing it gives both back.
   */
  lemma ParseSystemMessageInverts(brandTone: string, knowledgeBase: string)
    ensures ParseSystemMessage(SystemMessage(brandTone, knowledgeBase)) == Some((ToneOf(brandTone), knowledgeBase))
  {
    var t := ToneOf(brandTone);
    var msg := SystemMessage(brandTone, knowledgeBase);
    var body := Header(t) + knowledgeBase;
    assert msg == body + Closing;
    assert msg[|msg| - |Closing|..] == Closing;
    assert msg[..|msg| - |Closing|] == body;
    assert StartsWith(body, Header(t));
    assert body[|Header(t)|..] == knowledgeBase;
    if t != Friendly {
      HeadersDistinct(t, Friendly, knowledgeBase);
    }
    if t == Casual {
      HeadersDistinct(t, Formal, knowledgeBase);
    }
  }

  /**
   * Two requests produce the same system message exactly when they select the same
   * tone and carry the same knowledge-base text.
   */
  lemma SystemMessageInjective(tone1: string, kb1: string, tone2: string, kb2: string)
    ensures SystemMessage(tone1, kb1) == SystemMessage(tone2, kb2) <==> ToneOf(tone1) == ToneOf(tone2) && kb1 == kb2
  {
    if SystemMessage(tone1, kb1) == SystemMessage(tone2, kb2) {
      ParseSystemMessageInverts(tone1, kb1);
      ParseSystemMessageInverts(tone2, kb2);
    }
  }

  /** The prompt always asks the model to use the escalation marker. */
  lemma SystemMessageNamesMarker(brandTone: string, knowledgeBase: string)
    ensures Contains(SystemMessage(brandTone, knowledgeBase), Marker)
  {
    var i := Instruction(ToneOf(brandTone));
    OccursNested(Opening, i, RulesLead, Marker, RulesTail, knowledgeBase, Closing);
  }

  /**
   * Every stored document appears verbatim in the knowledge-base text, in store
   * order: the `k`-th starts after the `k` before it and one newline after each.
   */
  lemma KnowledgeTextHolds(contents: seq<string>, k: int)
    requires 0 <= k < |contents|
    ensures OccursAt(KnowledgeText(contents), contents[k], SumLengths(contents[..k]) + k)
  {
    JoinHolds(contents, "\n", k);
  }

  /**
   * When no document contains a newline, the knowledge-base text even determines the
   * documents: splitting it at newlines gives them back.
   */
  lemma KnowledgeTextKeepsDocuments(contents: seq<string>)
    requires contents != []
    requires forall k :: 0 <= k < |contents| ==> '\n' !in contents[k]
    ensures Split(KnowledgeText(contents), '\n') == contents
  {
    SplitJoin(contents, '\n');
  }
}
