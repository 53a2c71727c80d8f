/** Tool groups in a transcript: an assistant message with tool requests, followed by
    exactly its results. */
module Transcript {
  import opened Contracts

  /** `m` answers `request`: same identifier, same tool name. */
  predicate Answers(m: Message, request: ToolRequest) {
    && m.role.Tool?
    && m.toolRequests == []
    && m.toolRequestId == Some(request.id)
    && m.toolName == Some(request.name)
  }

  /** The `n` messages after position `at` answer that message's requests in order. */
  predicate Answered(ms: seq<Message>, at: nat)
    requires at < |ms|
  {
    && at + |ms[at].toolRequests| < |ms|
    && forall j | 0 <= j < |ms[at].toolRequests| :: Answers(ms[at + 1 + j], ms[at].toolRequests[j])
  }

  /** Position `at` holds the answer to one request of an earlier assistant message. */
  predicate IsAnswer(ms: seq<Message>, at: nat, owner: nat)
    requires at < |ms|
  {
    && owner < at <= owner + |ms[owner].toolRequests|
    && Answers(ms[at], ms[owner].toolRequests[at - owner - 1])
  }

  /** Every request is answered at once, in order, and no result stands alone. */
  ghost predicate ToolClosed(ms: seq<Message>) {
    && (forall i {:trigger ms[i].toolRequests} | 0 <= i < |ms| ::
          ms[i].toolRequests != [] ==> ms[i].role.Assistant? && Answered(ms, i))
    && (forall i {:trigger ms[i].role} | 0 <= i < |ms| ::
          ms[i].role.Tool? ==> exists owner: nat :: IsAnswer(ms, i, owner))
  }

  /** An ordinary message closes nothing and opens nothing. */
  predicate Standalone(m: Message) {
    !m.role.Tool? && m.toolRequests == []
  }

  lemma ClosedAppend(a: seq<Message>, b: seq<Message>)
    requires ToolClosed(a) && ToolClosed(b)
    ensures ToolClosed(a + b)
  {
    var c := a + b;
    forall i | 0 <= i < |c| && c[i].toolRequests != []
      ensures c[i].role.Assistant? && Answered(c, i)
    {
      if i < |a| {
        assert a[i].toolRequests != [];
        assert Answered(a, i);
        forall j | 0 <= j < |c[i].toolRequests| ensures Answers(c[i + 1 + j], c[i].toolRequests[j]) {
          assert c[i + 1 + j] == a[i + 1 + j];
        }
      } else {
        var k := i - |a|;
        assert b[k].toolRequests != [];
        assert Answered(b, k);
        forall j | 0 <= j < |c[i].toolRequests| ensures Answers(c[i + 1 + j], c[i].toolRequests[j]) {
          assert c[i + 1 + j] == b[k + 1 + j];
        }
      }
    }
    forall i | 0 <= i < |c| && c[i].role.Tool?
      ensures exists owner: nat :: IsAnswer(c, i, owner)
    {
      if i < |a| {
        assert a[i].role.Tool?;
        var owner: nat :| IsAnswer(a, i, owner);
        assert IsAnswer(c, i, owner);
      } else {
        assert b[i - |a|].role.Tool?;
        var owner: nat :| IsAnswer(b, i - |a|, owner);
        assert c[owner + |a|] == b[owner];
        assert IsAnswer(c, i, owner + |a|);
      }
    }
  }

  lemma AnswerFollows(ms: seq<Message>, owner: nat, at: nat)
    requires ToolClosed(ms)
    requires owner < at < |ms| && at <= owner + |ms[owner].toolRequests|
    ensures ms[at].role.Tool?
  {
    assert ms[owner].toolRequests != [];
    assert Answered(ms, owner);
    assert Answers(ms[owner + 1 + (at - owner - 1)], ms[owner].toolRequests[at - owner - 1]);
  }

  /** Cutting a closed transcript just before a standalone message splits no tool group. */
  lemma ClosedSuffix(ms: seq<Message>, at: nat)
    requires ToolClosed(ms) && at <= |ms|
    requires at < |ms| ==> !ms[at].role.Tool?
    ensures ToolClosed(ms[at..])
  {
    var t := ms[at..];
    forall i | 0 <= i < |t| && t[i].toolRequests != []
      ensures t[i].role.Assistant? && Answered(t, i)
    {
      assert ms[at + i].toolRequests != [];
      assert Answered(ms, at + i);
      forall j | 0 <= j < |t[i].toolRequests| ensures Answers(t[i + 1 + j], t[i].toolRequests[j]) {
        assert t[i + 1 + j] == ms[at + i + 1 + j];
      }
    }
    forall i | 0 <= i < |t| && t[i].role.Tool?
      ensures exists owner: nat :: IsAnswer(t, i, owner)
    {
      assert ms[at + i].role.Tool?;
      var owner: nat :| IsAnswer(ms, at + i, owner);
      if owner < at {
        AnswerFollows(ms, owner, at);
        assert false;
      }
      assert t[owner - at] == ms[owner];
      assert IsAnswer(t, i, owner - at);
    }
  }

  lemma ClosedStandalone(ms: seq<Message>)
    requires forall i | 0 <= i < |ms| :: Standalone(ms[i])
    ensures ToolClosed(ms)
  {
  }

  /** An assistant message and the answers to its pending requests form a closed group. */
  lemma ClosedGroup(head: Message, answers: seq<Message>)
    requires head.role.Assistant? && |answers| == |head.toolRequests|
    requires forall j | 0 <= j < |answers| :: Answers(answers[j], head.toolRequests[j])
    ensures ToolClosed([head] + answers)
  {
    var g := [head] + answers;
    forall i | 0 <= i < |g| && g[i].toolRequests != []
      ensures g[i].role.Assistant? && Answered(g, i)
    {
      assert forall k | 0 < k < |g| :: g[k] == answers[k - 1];
      assert i == 0;
      forall j | 0 <= j < |g[0].toolRequests| ensures Answers(g[1 + j], g[0].toolRequests[j]) {
        assert g[1 + j] == answers[j];
      }
    }
    forall i | 0 <= i < |g| && g[i].role.Tool?
      ensures exists owner: nat :: IsAnswer(g, i, owner)
    {
      assert g[i] == answers[i - 1];
      assert IsAnswer(g, i, 0);
    }
  }
}
