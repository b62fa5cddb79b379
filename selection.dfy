/** Picking the assistant's answer out of a fetched conversation: flatten the
    message groups one level, keep the agent messages with non-empty content,
    and take the last of them. */
module Selection {
  import opened Wire

  const AgentMessageType := "agent_message"

  /** A message that counts as the assistant's answer: its type is
      `agent_message` and its content is truthy. */
  predicate IsReply(m: Message)
    ensures IsReply(m) ==> m.kind == Some(AgentMessageType) && m.content.Some? && |m.content.value| > 0
  {
    m.kind == Some(AgentMessageType) && Truthy(m.content)
  }

  /** One-level flattening of the message groups, in order. */
  function Flatten(groups: seq<seq<Message>>): (ms: seq<Message>)
    ensures forall m :: m in ms <==> exists g :: 0 <= g < |groups| && m in groups[g]
  {
    if groups == [] then [] else groups[0] + Flatten(groups[1..])
  }

  /** The replies among `ms`, in their original order. */
  function Replies(ms: seq<Message>): (rs: seq<Message>)
    ensures |rs| <= |ms|
    ensures forall m :: m in rs <==> m in ms && IsReply(m)
  {
    if ms == [] then []
    else if IsReply(ms[0]) then [ms[0]] + Replies(ms[1..])
    else Replies(ms[1..])
  }

  /** The last reply of the flattened conversation, if there is one. */
  function LastReply(groups: seq<seq<Message>>): (r: Option<Message>)
    ensures r.Some? ==> IsReply(r.value) && r.value in Flatten(groups)
  {
    var rs := Replies(Flatten(groups));
    if rs == [] then None
    else
      assert rs[|rs| - 1] in rs;
      Some(rs[|rs| - 1])
  }

  /** Position `i` of `ms` holds a reply and no reply follows it. */
  predicate LastMatchAt(ms: seq<Message>, i: int) {
    0 <= i < |ms| && IsReply(ms[i]) && forall j :: i < j < |ms| ==> !IsReply(ms[j])
  }

  /** The last element of `Replies(ms)` is the reply at the last matching
      position of `ms`. */
  lemma {:induction false} LastOfReplies(ms: seq<Message>)
    requires Replies(ms) != []
    ensures exists i :: LastMatchAt(ms, i) && ms[i] == Replies(ms)[|Replies(ms)| - 1]
  {
    var tail := ms[1..];
    var rest := Replies(tail);
    if rest != [] {
      LastOfReplies(tail);
      var i :| LastMatchAt(tail, i) && tail[i] == rest[|rest| - 1];
      assert Replies(ms)[|Replies(ms)| - 1] == rest[|rest| - 1];
      forall j | i + 1 < j < |ms|
        ensures !IsReply(ms[j])
      {
        assert ms[j] == tail[j - 1];
      }
      assert ms[i + 1] == tail[i];
      assert LastMatchAt(ms, i + 1);
    } else {
      assert Replies(ms) == [ms[0]];
      forall j | 0 < j < |ms|
        ensures !IsReply(ms[j])
      {
        assert ms[j] in tail;
      }
      assert LastMatchAt(ms, 0);
    }
  }

  /** There is no answer exactly when no flattened message is a reply. */
  lemma {:induction false} NoAnswerIffNoReply(groups: seq<seq<Message>>)
    ensures LastReply(groups).None? <==> forall m :: m in Flatten(groups) ==> !IsReply(m)
  {
  }

  /** The selected message is the last reply in flattened order: it stands at
      some position of the flattened list and no reply comes after it. */
  lemma {:induction false} LastReplyIsLast(groups: seq<seq<Message>>)
    requires LastReply(groups).Some?
    ensures exists i :: LastMatchAt(Flatten(groups), i) && Flatten(groups)[i] == LastReply(groups).value
  {
    var flat := Flatten(groups);
    LastOfReplies(flat);
    assert LastReply(groups).value == Replies(flat)[|Replies(flat)| - 1];
  }

  lemma {:induction false} FlattenAppend(a: seq<seq<Message>>, b: seq<seq<Message>>)
    ensures Flatten(a + b) == Flatten(a) + Flatten(b)
  {
    if a == [] {
      assert a + b == b;
    } else {
      assert (a + b)[1..] == a[1..] + b;
      FlattenAppend(a[1..], b);
    }
  }

  lemma {:induction false} RepliesAppend(x: seq<Message>, y: seq<Message>)
    ensures Replies(x + y) == Replies(x) + Replies(y)
  {
    if x == [] {
      assert x + y == y;
    } else {
      assert (x + y)[1..] == x[1..] + y;
      RepliesAppend(x[1..], y);
    }
  }

  /** Appending a message group: its own last reply wins if it has one,
      otherwise the answer is that of the earlier groups. */
  lemma {:induction false} LastReplyOfLaterGroup(groups: seq<seq<Message>>, g: seq<Message>)
    ensures LastReply(groups + [g])
         == (var rs := Replies(g); if rs == [] then LastReply(groups) else Some(rs[|rs| - 1]))
  {
    FlattenAppend(groups, [g]);
    assert Flatten([g]) == g by {
      assert [g][1..] == [];
      assert Flatten([g]) == g + Flatten([]);
    }
    var early, late := Replies(Flatten(groups)), Replies(g);
    RepliesAppend(Flatten(groups), g);
    assert Replies(Flatten(groups + [g])) == early + late;
    if late != [] {
      assert (early + late)[|early + late| - 1] == late[|late| - 1];
    } else {
      assert early + late == early;
    }
  }
}
