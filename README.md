# SupportGenie backend, modelled in Dafny

SupportGenie is a customer-support service. A FastAPI backend relays chat messages
to a language model, stores conversations and uploaded knowledge-base documents in
MongoDB, and reports simple analytics. This project models the request logic of
`backend/server.py`:

- the system message sent to the model: a persona, a brand-tone instruction with a
  fallback to "friendly", the house rules, and every knowledge-base document joined by
  newlines (`prompt.dfy`);
- the escalation convention: a reply that opens with `ESCALATE:` is rewritten behind a
  hand-off sentence and flagged, and any failure becomes a fixed apology, also flagged
  (`escalation.dfy`);
- the two collections, `chat_messages` and `knowledge_base`, as `seq` fields of the
  class `Server.SupportDesk`, with the chat, history, upload, list, delete and analytics
  handlers as its methods (`server.dfy`);
- the analytics counts over distinct sessions (`analytics.dfy`);
- the Python string operations these rely on (`text.dfy`) and the sort the store
  performs (`ordering.dfy`).

The language model is a parameter of type `Escalation.Provider`: a function from the
session id, system message and user text to `Replied(text)` or `Raised`. Whether the
knowledge-base read raises, whether each insert reaches the store, and whether an
upload decodes as UTF-8 are parameters too. So are record ids and timestamps, which
come from UUID generation and the clock. Timestamps are integers.

Some behaviours of the code worth knowing, all modelled as written:

- The code accepts an empty chat message and stores it like any other.
- A failed knowledge-base read or provider call gives a fixed apology flagged
  `escalated = true` (backend/server.py:112-114).
- The knowledge-base list is ordered newest upload first (backend/server.py:181).
- Uploads have no size or file-type check.
- `total_conversations` counts distinct session ids, not messages
  (backend/server.py:196).
- A reply is empty exactly when the provider answered with empty text, so a chat
  response can be empty (`Escalation.AIResponseEmpty`).
- `replace("ESCALATE:", "")` makes one left-to-right pass, so a flagged reply can
  still show the marker to the customer (`Escalation.MarkerCanSurvive`).

## Model

| member | source | states |
|---|---|---|
| `Text.StartsWith` | backend/server.py:106 | `response.startswith("ESCALATE:")`: the text's first characters are the prefix |
| `Text.RemoveAll` | backend/server.py:108 | `replace(pat, "")` as one left-to-right scan that deletes each occurrence it meets; the result is never longer than the input |
| `Text.RemoveAllAfterClean` | backend/server.py:108 | for a pattern with no border, text without the pattern followed by one occurrence keeps the text, loses the occurrence, and the scan goes on after it |
| `Text.RemoveAllJoined` | backend/server.py:108 | marker-free parts separated by a border-free pattern come out as the parts, in order, with every separator deleted |
| `Text.Strip` | backend/server.py:108 | `strip()`: drop leading whitespace, then trailing whitespace; characterised by `Text.StripFrames` |
| `Text.Join` | backend/server.py:91 | `sep.join(parts)`: the pieces in order with the separator between neighbours; characterised by `Text.JoinHolds`, `Text.JoinLength` and `Text.SplitJoin` |
| `Text.JoinHolds` | backend/server.py:91 | every piece occurs in the joined text at the offset of the pieces and separators before it |
| `Text.RemoveAllUnchanged` | backend/server.py:108 | `replace("ESCALATE:", "")` leaves text that has no marker exactly as it is |
| `Text.RemoveAllSinglePass` | backend/server.py:108 | the removal is one left-to-right pass: a marker that only forms once an inner one is deleted survives |
| `Text.TrimStart` | backend/server.py:108 | the result is a suffix of the input, everything dropped is whitespace, and it does not start with whitespace (Python's whitespace set) |
| `Text.TrimEnd` | backend/server.py:108 | the result is a prefix of the input, everything dropped is whitespace, and it does not end with whitespace |
| `Text.StripFrames` | backend/server.py:108 | `strip()` returns a contiguous piece of its input with only whitespace around it, and the piece neither starts nor ends with whitespace |
| `Text.StripIdempotent` | backend/server.py:108 | stripping twice is the same as stripping once |
| `Text.SplitJoin` | backend/server.py:91 | joining with a one-character separator loses nothing: splitting gives back the same pieces in order when none contains the separator |
| `Text.JoinLength` | backend/server.py:91 | the joined text is as long as the pieces plus one separator between each neighbouring pair |
| `Prompt.ToneOf` | backend/server.py:65-71 | "formal" and "casual" select their own tone; every other name, including unknown ones, selects friendly and never fails |
| `Prompt.ToneInstruction` | backend/server.py:65-71 | the instruction used is the formal or casual text for those names and the friendly text for any other name |
| `Prompt.SystemMessage` | backend/server.py:64-84 | `get_system_message`: the opening, the tone's instruction, the house rules, the knowledge-base text and the closing line, in that order; characterised by `Prompt.ParseSystemMessageInverts` and `Prompt.SystemMessageInjective` |
| `Prompt.KnowledgeText` | backend/server.py:91 | the stored contents joined by newlines, in store order |
| `Prompt.KnowledgeTextHolds` | backend/server.py:90-91 | every stored document occurs verbatim in the knowledge-base text, newlines or not, at the offset of the documents and newlines before it, so in store order |
| `Prompt.ParseSystemMessageInverts` | backend/server.py:64-84 | the system message carries the selected tone and the knowledge-base text verbatim: reading it back gives both |
| `Prompt.SystemMessageInjective` | backend/server.py:64-84 | two requests get the same system message exactly when they select the same tone and carry the same knowledge-base text |
| `Prompt.SystemMessageNamesMarker` | backend/server.py:76 | every system message tells the model to use the `ESCALATE:` marker |
| `Prompt.KnowledgeTextKeepsDocuments` | backend/server.py:90-91 | when no document contains a newline, the knowledge-base text also determines the documents: splitting it at newlines gives them back in store order |
| `Escalation.PostProcess` | backend/server.py:105-111 | flagged exactly when the reply starts with `ESCALATE:`; a flagged reply becomes the hand-off sentence followed by the stripped text with every marker the single left-to-right scan finds removed; an unflagged one is unchanged; the result never starts with the marker |
| `Escalation.EscalationKeepsExplanation` | backend/server.py:106-109 | `ESCALATE:` followed by an explanation with no further marker becomes the hand-off sentence followed by the trimmed explanation |
| `Escalation.PostProcessFlagged` | backend/server.py:105-109 | a reply that opens with the marker becomes the hand-off sentence followed by the rest of the reply, markers removed and stripped |
| `Escalation.MarkerCanSurvive` | backend/server.py:106-109 | the removal is a single pass: a flagged reply `ESCALATE:ESCESCALATE:ALATE:` reaches the customer as the hand-off sentence followed by `ESCALATE:`, so the customer can still see the marker |
| `Escalation.MarkerBorderless` | backend/server.py:108 | no proper prefix of `ESCALATE:` is also a suffix of it, so two markers never overlap |
| `Escalation.RemoveMarkerAfter` | backend/server.py:108 | text without the marker, then a marker, then anything: the text is kept, that marker is deleted and the scan continues after it |
| `Escalation.PostProcessMarkedParts` | backend/server.py:106-109 | a flagged reply made of marker-free parts separated by markers, such as `ESCALATE: a ESCALATE: b`, becomes the hand-off sentence followed by the stripped concatenation of the parts |
| `Escalation.PostProcessStable` | backend/server.py:106-111 | a reply that has been post-processed is never flagged again and passes through unchanged |
| `Escalation.AIResponse` | backend/server.py:87-115 | a raising knowledge-base read or provider call gives the apology flagged escalated; otherwise the provider's reply to the tone's system message with the joined knowledge base is post-processed |
| `Escalation.AIResponseEscalation` | backend/server.py:106-115 | a turn is flagged exactly when something raised or the provider's reply starts with the marker |
| `Escalation.AIResponseEmpty` | backend/server.py:87-115 | the reply text is empty exactly when the provider answered with empty text |
| `Ordering.InsertBy` | backend/server.py:157 | inserting into a key-ordered sequence keeps it ordered and adds exactly that element |
| `Ordering.SortBy` | backend/server.py:157 | the store's sort gives a key-ordered permutation of its input |
| `Analytics.Sessions` | backend/server.py:196 | `distinct("session_id")`: the set of session ids of all messages |
| `Analytics.EscalatedSessions` | backend/server.py:197 | `distinct("session_id", {"escalated": True})`: the set of session ids of the escalated messages |
| `Analytics.Summarize` | backend/server.py:195-207 | total is the number of distinct sessions; escalated is the number of distinct sessions with an escalated message; `ai_handled` is their difference, never negative, and with `escalated` adds up to the total; time saved is 2 minutes per handled session |
| `Analytics.AiHandledCountsCalmSessions` | backend/server.py:196-199 | `ai_handled` is the number of sessions in which no message is escalated |
| `Analytics.ChatTurnCounts` | backend/server.py:122-143 | a complete chat turn raises the total by one only for a new session, and raises the escalated count by one only when the reply is escalated and the session was not escalated before |
| `Analytics.CountsGrowWithLog` | backend/server.py:196-197 | appending messages never lowers the conversation or escalation count |
| `Server.Contents` | backend/server.py:91 | the contents are read from the stored documents one for one, in store order |
| `Server.FindId` | backend/server.py:186 | finds the first document with the id, or reports that none has it |
| `Server.InSession` | backend/server.py:157 | `find({"session_id": ...})`: the log's messages of that session in store order; never longer than the log, and every message it returns has the session id |
| `Server.InSessionCounts` | backend/server.py:157 | selecting a session keeps each of its messages exactly as often as the log holds it, and no message of another session |
| `Server.InSessionAfterTurn` | backend/server.py:122-143 | a complete chat turn adds the user message and then the assistant message to the end of that session's conversation |
| `Server.UserTurn` | backend/server.py:122-126 | the stored user message: the request's session id and text, sender `user`, not escalated |
| `Server.ReplyTo` | backend/server.py:130-134 | the reply for a request: `get_ai_response` on its text, session id and brand tone, over the stored contents in store order, or over a failed read |
| `Server.AiTurn` | backend/server.py:137-142 | the stored assistant message: the request's session id, the reply text and the reply's escalation flag, sender `ai` |
| `Server.SupportDesk.Chat` | backend/server.py:118-153 | stores the user turn first; with both inserts stored, appends the user then the assistant message (same session id, reply text, reply flag) and echoes the session id; a failed insert gives HTTP 500 and keeps only what was stored before it; the knowledge base is untouched |
| `Server.SupportDesk.History` | backend/server.py:155-158 | returns every message of the session and no other, each as often as stored, ordered by timestamp ascending |
| `Server.SupportDesk.Upload` | backend/server.py:160-177 | a decoded and stored upload appends exactly one document with the given filename, content, type, id and time; a decode or insert failure appends nothing and gives HTTP 500 |
| `Server.SupportDesk.ListKnowledge` | backend/server.py:179-182 | returns every stored document exactly once, newest upload first |
| `Server.SupportDesk.Delete` | backend/server.py:184-189 | an existing id removes that document and keeps the others in order; a missing id gives 404 and changes nothing |
| `Server.SupportDesk.GetAnalytics` | backend/server.py:191-212 | the snapshot counts distinct sessions, distinct escalated sessions and sessions without escalation, and the last two add up to the first |

## Left out

- The `LlmChat` client and the OpenAI call (backend/server.py:96-103): a foreign library, modelled as an opaque `Provider` function. Whatever conversation memory the client keeps per session is not modelled.
- UUID generation and `datetime.now` (backend/server.py:31, 35, 49, 53): ids and times are method parameters, and times are integers.
- The float fields of the analytics response: `avg_response_time = 0.8`, `satisfaction_score = 4.6` and `round(time_saved, 1)` (backend/server.py:203-211). Time saved is kept in whole minutes, 2 per handled session, before the division by 60.
- The unused `count_documents` call (backend/server.py:195): it does not affect the response.
- UTF-8 decoding (backend/server.py:164): the upload takes the decoded text, or `None` when decoding fails.
- Storage failures in the history, list and delete handlers, and the analytics catch-all that answers with a default `Analytics()` (backend/server.py:214-216). Only the chat and upload insert failures are modelled.
- Server.SupportDesk.Upload: requires the new id to be unused by any stored document. UUID generation provides this; the model takes it as given.
- The order `find()` returns without a sort is taken to be insertion order.
- MongoDB and motor calls, FastAPI routing, response-model validation, CORS, `.env` loading, logging and shutdown (backend/server.py:1-27, 218-238).
- Concurrent requests: each handler runs to completion before the next starts.
