/**
 * Turning what the completion provider returns into the reply the customer sees:
 * the `ESCALATE:` convention, and the fixed apology that replaces any failure.
 */
module Escalation {
  import opened Wrappers
  import opened Text
  import opened Prompt

  /**
   * What is put in front of a reply that asks for a human agent. It is written in two
   * pieces so that its first character is known without unfolding the whole literal.
   */
  const Handoff: string := "I need to connect you " + "with a human agent for this. "

  /** The reply given when the knowledge-base read or the provider call raises. */
  const Apology: string :=
    "I apologize, but I'm having trouble processing your request right now. Let me connect you with a human agent."

  /** The reply text together with whether the conversation needs a human. */
  datatype AIReply = AIReply(text: string, escalated: bool)

  /** What the provider is given for one turn. */
  datatype CompletionRequest = CompletionRequest(sessionId: string, systemMessage: string, userText: string)

  /** What the provider gives back: generated text, or an exception. */
  datatype Completion = Replied(text: string) | Raised

  /** The completion provider, of which nothing is known but its signature. */
  type Provider = CompletionRequest -> Completion

  /**
   * The escalation check on a provider reply: a reply that opens with the marker is
   * flagged, loses every marker the one left-to-right scan finds, is trimmed and is
   * put behind the hand-off sentence; any other reply passes through unchanged.
   */
  function PostProcess(response: string): (r: AIReply)
    ensures r.escalated <==> StartsWith(response, Marker)
    ensures !r.escalated ==> r.text == response
    ensures r.escalated ==> StartsWith(r.text, Handoff) && r.text[|Handoff|..] == Strip(RemoveAll(response, Marker))
    ensures !StartsWith(r.text, Marker)
  {
    if StartsWith(response, Marker) then
      var text := Handoff + Strip(RemoveAll(response, Marker));
      assert text[0] == 'I' && Marker[0] == 'E';
      assert text[|Handoff|..] == Strip(RemoveAll(response, Marker));
      AIReply(text, true)
    else
      AIReply(response, false)
  }

  /**
   * A reply that is the marker followed by an explanation without further markers
   * becomes the hand-off sentence followed by the trimmed explanation.
   */
  lemma EscalationKeepsExplanation(explanation: string)
    requires !Contains(explanation, Marker)
    ensures PostProcess(Marker + explanation) == AIReply(Handoff + Strip(explanation), true)
  {
    PostProcessFlagged(explanation);
    RemoveAllUnchanged(explanation, Marker);
  }

  /** A reply opening with the marker: the rest, scanned and trimmed, behind the hand-off. */
  lemma PostProcessFlagged(rest: string)
    ensures PostProcess(Marker + rest) == AIReply(Handoff + Strip(RemoveAll(rest, Marker)), true)
  {
    assert StartsWith(Marker + rest, Marker);
    RemoveAllLeading(Marker, rest);
  }

  /**
   * The marker is removed in one pass: in a flagged reply whose rest reads
   * `ESCESCALATE:ALATE:`, deleting the inner marker leaves `ESC` and `ALATE:` side
   * by side, and the marker they spell out reaches the customer.
   */
  lemma MarkerCanSurvive()
    ensures PostProcess(Marker + ("ESC" + Marker + "ALATE:")) == AIReply(Handoff + Marker, true)
    ensures Contains(PostProcess(Marker + ("ESC" + Marker + "ALATE:")).text, Marker)
  {
    var rest := "ESC" + Marker + "ALATE:";
    PostProcessFlagged(rest);
    ScanLeavesMarker();
    StripKeeps(Marker);
    OccursAtEnd(Handoff, Marker);
  }

  /** The marker is its first three characters followed by the rest. */
  lemma MarkerPieces()
    ensures Marker == ['E', 'S', 'C'] + "ALATE:"
  {
  }

  /** The single scan over `ESCESCALATE:ALATE:` leaves the marker behind. */
  lemma ScanLeavesMarker()
    ensures RemoveAll("ESC" + Marker + "ALATE:", Marker) == Marker
  {
    MarkerPieces();
    RemoveAllSinglePass(Marker, 'E', 'S', 'C', "ALATE:");
  }

  /** No proper prefix of the marker is also a suffix of it: its `:` occurs only at the end. */
  lemma MarkerBorderless()
    ensures Borderless(Marker)
  {
    BorderlessByLast(Marker);
  }

  /**
   * A reply part without the marker, then a marker, then anything: the part is kept,
   * that marker is deleted and the scan goes on in what follows.
   */
  lemma RemoveMarkerAfter(a: string, b: string)
    requires !Contains(a, Marker)
    ensures RemoveAll(a + Marker + b, Marker) == a + RemoveAll(b, Marker)
  {
    MarkerBorderless();
    RemoveAllAfterClean(a, Marker, b);
  }

  /**
   * A flagged reply made of marker-free parts separated by markers, such as
   * `ESCALATE: a ESCALATE: b`: every marker is deleted, the parts are kept in order
   * and the result is stripped behind the hand-off sentence.
   */
  lemma PostProcessMarkedParts(parts: seq<string>)
    requires parts != []
    requires forall k :: 0 <= k < |parts| ==> !Contains(parts[k], Marker)
    ensures PostProcess(Marker + Join(parts, Marker)) == AIReply(Handoff + Strip(Join(parts, [])), true)
  {
    var joined := Join(parts, Marker);
    assert RemoveAll(joined, Marker) == Join(parts, []) by {
      MarkerBorderless();
      RemoveAllJoined(parts, Marker);
    }
    PostProcessFlagged(joined);
  }

  /**
   * Post-processing is stable: a reply that has been through it is never flagged a
   * second time and comes back unchanged.
   */
  lemma PostProcessStable(response: string)
    ensures PostProcess(PostProcess(response).text) == AIReply(PostProcess(response).text, false)
  {
  }

  /**
   * `get_ai_response`: `knowledge` is the list of stored contents, or `None` when
   * reading the knowledge base raised. Every failure becomes the apology, flagged
   * for a human; there is no exception path.
   */
  function AIResponse(message: string, sessionId: string, brandTone: string,
                      knowledge: Option<seq<string>>, provider: Provider): (r: AIReply)
    ensures knowledge.None? ==> r == AIReply(Apology, true)
    ensures knowledge.Some? ==>
      var completion := provider(CompletionRequest(sessionId, SystemMessage(brandTone, KnowledgeText(knowledge.value)), message));
      (completion.Raised? ==> r == AIReply(Apology, true)) &&
      (completion.Replied? ==> r == PostProcess(completion.text))
  {
    match knowledge
    case None => AIReply(Apology, true)
    case Some(contents) =>
      var request := CompletionRequest(sessionId, SystemMessage(brandTone, KnowledgeText(contents)), message);
      match provider(request)
      case Raised => AIReply(Apology, true)
      case Replied(text) => PostProcess(text)
  }

  /**
   * A turn is flagged for a human exactly when something failed or the provider's
   * reply opened with the marker.
   */
  lemma AIResponseEscalation(message: string, sessionId: string, brandTone: string,
                             knowledge: Option<seq<string>>, provider: Provider)
    ensures AIResponse(message, sessionId, brandTone, knowledge, provider).escalated <==>
      knowledge.None? ||
      var completion := provider(CompletionRequest(sessionId, SystemMessage(brandTone, KnowledgeText(knowledge.value)), message));
      completion.Raised? || StartsWith(completion.text, Marker)
  {
  }

  /**
   * The reply is empty only when the provider itself answered with empty text: a
   * failure or an escalation always yields a non-empty message.
   */
  lemma AIResponseEmpty(message: string, sessionId: string, brandTone: string,
                        knowledge: Option<seq<string>>, provider: Provider)
    ensures AIResponse(message, sessionId, brandTone, knowledge, provider).text == [] <==>
      knowledge.Some? &&
      provider(CompletionRequest(sessionId, SystemMessage(brandTone, KnowledgeText(knowledge.value)), message)) == Replied([])
  {
    assert |Apology| > 0;
    assert |Handoff| > 0;
  }
}
