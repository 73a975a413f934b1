/**
 * The analytics snapshot: distinct sessions, distinct sessions with an escalated
 * message, and what is derived from the two.
 */
module Analytics {
  import opened Entities

  /** `distinct("session_id")`. */
  function Sessions(log: seq<ChatMessage>): set<string>
  {
    set m | m in log :: m.sessionId
  }

  /** `distinct("session_id", {"escalated": True})`. */
  function EscalatedSessions(log: seq<ChatMessage>): set<string>
  {
    set m | m in log && m.escalated :: m.sessionId
  }

  /** A session in which no message is escalated. */
  predicate Unescalated(log: seq<ChatMessage>, session: string)
  {
    forall m :: m in log && m.sessionId == session ==> !m.escalated
  }

  /** The sessions the assistant handled on its own, defined directly. */
  function HandledSessions(log: seq<ChatMessage>): set<string>
  {
    set m | m in log && Unescalated(log, m.sessionId) :: m.sessionId
  }

  /** Minutes saved for each session the assistant handles alone. */
  const MinutesPerHandledSession: int := 2

  /** The integer-valued fields of the analytics response. */
  datatype Snapshot = Snapshot(
    totalConversations: int,
    aiHandled: int,
    escalated: int,
    timeSavedMinutes: int)

  /** Every escalated session is a session. */
  lemma EscalatedAreSessions(log: seq<ChatMessage>)
    ensures EscalatedSessions(log) <= Sessions(log)
    ensures |EscalatedSessions(log)| <= |Sessions(log)|
  {
    SubsetCardinality(EscalatedSessions(log), Sessions(log));
  }

  /** Removing part of a finite set leaves the rest of its elements. */
  lemma SubsetCardinality(a: set<string>, b: set<string>)
    requires a <= b
    ensures |b - a| == |b| - |a|
  {
    assert b == (b - a) + a;
    assert (b - a) * a == {};
  }

  /** `get_analytics`, without the float-valued fields. */
  function Summarize(log: seq<ChatMessage>): (a: Snapshot)
    ensures a.totalConversations == |Sessions(log)|
    ensures a.escalated == |EscalatedSessions(log)|
    ensures 0 <= a.aiHandled && a.aiHandled + a.escalated == a.totalConversations
    ensures a.timeSavedMinutes == MinutesPerHandledSession * a.aiHandled
  {
    EscalatedAreSessions(log);
    var total := |Sessions(log)|;
    var escalated := |EscalatedSessions(log)|;
    var handled := total - escalated;
    Snapshot(total, handled, escalated, handled * MinutesPerHandledSession)
  }

  /**
   * `ai_handled` counts exactly the sessions in which no message was escalated,
   * each once however many messages it has.
   */
  lemma AiHandledCountsCalmSessions(log: seq<ChatMessage>)
    ensures Summarize(log).aiHandled == |HandledSessions(log)|
  {
    var all := Sessions(log);
    var esc := EscalatedSessions(log);
    assert HandledSessions(log) == all - esc by {
      forall s | s in all - esc ensures s in HandledSessions(log) {
        var m :| m in log && m.sessionId == s;
        assert Unescalated(log, s);
      }
    }
    SubsetCardinality(esc, all);
  }

  /**
   * The effect of one complete chat turn on the counts: the session is counted once
   * more only if it is new, and it joins the escalated sessions only if the reply
   * was escalated and it had not been escalated before.
   */
  lemma ChatTurnCounts(log: seq<ChatMessage>, user: ChatMessage, ai: ChatMessage)
    requires user.sessionId == ai.sessionId
    requires !user.escalated
    ensures var before, after := Summarize(log), Summarize(log + [user, ai]);
      after.totalConversations == before.totalConversations + (if user.sessionId in Sessions(log) then 0 else 1) &&
      after.escalated == before.escalated + (if ai.escalated && user.sessionId !in EscalatedSessions(log) then 1 else 0)
  {
    var s := user.sessionId;
    AppendTurn(log, user, ai);
    AddOne(Sessions(log), s);
    AddOne(EscalatedSessions(log), s);
  }

  /** How one complete turn changes the two session sets. */
  lemma AppendTurn(log: seq<ChatMessage>, user: ChatMessage, ai: ChatMessage)
    requires user.sessionId == ai.sessionId
    requires !user.escalated
    ensures Sessions(log + [user, ai]) == Sessions(log) + {user.sessionId}
    ensures EscalatedSessions(log + [user, ai]) == EscalatedSessions(log) + (if ai.escalated then {ai.sessionId} else {})
  {
    AppendOne(log, user);
    AppendOne(log + [user], ai);
    assert log + [user] + [ai] == log + [user, ai];
  }

  /** Adding one element grows a set by one unless it was already there. */
  lemma AddOne(a: set<string>, s: string)
    ensures |a + {s}| == |a| + (if s in a then 0 else 1)
  {
    if s in a {
      assert a + {s} == a;
    }
  }

  /** How one appended message changes the two session sets. */
  lemma AppendOne(log: seq<ChatMessage>, m: ChatMessage)
    ensures Sessions(log + [m]) == Sessions(log) + {m.sessionId}
    ensures EscalatedSessions(log + [m]) == EscalatedSessions(log) + (if m.escalated then {m.sessionId} else {})
  {
    assert forall n :: n in log + [m] <==> n in log || n == m;
  }

  /** Appending messages never lowers the conversation or escalation counts. */
  lemma CountsGrowWithLog(log: seq<ChatMessage>, more: seq<ChatMessage>)
    ensures Summarize(log).totalConversations <= Summarize(log + more).totalConversations
    ensures Summarize(log).escalated <= Summarize(log + more).escalated
  {
    assert Sessions(log) <= Sessions(log + more);
    assert EscalatedSessions(log) <= EscalatedSessions(log + more);
    SubsetCardinality(Sessions(log), Sessions(log + more));
    SubsetCardinality(EscalatedSessions(log), EscalatedSessions(log + more));
  }
}
