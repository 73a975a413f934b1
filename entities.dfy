/** The records the backend stores and exchanges. */
module Entities {

  /** Who wrote a chat message. */
  datatype Sender = User | Ai

  /**
   * One stored chat turn. Ids and timestamps come from outside the model (a UUID
   * generator and the clock); timestamps are plain integers.
   */
  datatype ChatMessage = ChatMessage(
    id: string,
    sessionId: string,
    message: string,
    sender: Sender,
    timestamp: int,
    escalated: bool)

  /** The body of a chat request. */
  datatype ChatRequest = ChatRequest(message: string, sessionId: string, brandTone: string)

  /** The body of a chat response. */
  datatype ChatResponse = ChatResponse(message: string, escalated: bool, sessionId: string)

  /** One uploaded knowledge-base document. */
  datatype KnowledgeItem = KnowledgeItem(
    id: string,
    filename: string,
    content: string,
    contentType: string,
    uploadedAt: int)
}
