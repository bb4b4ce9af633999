/** Chat messages, the boolean markers kept in their `Extra` map, and the default token counter. */
module Messages {
  import opened Text

  datatype Role = System | User | Assistant | Tool

  datatype ToolCall = ToolCall(id: string, name: string, arguments: string)

  /** The dynamically typed values of `Extra`; `Other` stands for every value no code here looks at. */
  datatype ExtraValue = Flag(on: bool) | Str(text: string) | Other(code: int)

  /** A `*schema.Message`; `Nil` is the nil pointer the pipelines skip over. */
  datatype Message =
    | Nil
    | Msg(role: Role, content: string, toolCalls: seq<ToolCall>, toolCallId: string, extra: map<string, ExtraValue>)

  const SUMMARY_KEY := "__eino_ext_memory_summary"
  const INCOMPLETE_KEY := "__eino_ext_memory_incomplete"
  const EPHEMERAL_KEY := "__eino_ext_memory_ephemeral"

  predicate HasBoolMarker(m: Message, key: string) {
    m.Msg? && key in m.extra && m.extra[key] == Flag(true)
  }

  function SetBoolMarker(m: Message, key: string): (r: Message)
    ensures m.Msg? ==> HasBoolMarker(r, key)
    ensures forall k :: k != key ==> HasBoolMarker(r, k) == HasBoolMarker(m, k)
  {
    if m.Nil? then m else m.(extra := m.extra[key := Flag(true)])
  }

  predicate IsSummary(m: Message) {
    HasBoolMarker(m, SUMMARY_KEY)
  }

  predicate IsIncomplete(m: Message) {
    HasBoolMarker(m, INCOMPLETE_KEY)
  }

  predicate IsEphemeral(m: Message) {
    HasBoolMarker(m, EPHEMERAL_KEY)
  }

  function NewSummaryMessage(text: string): Message {
    Msg(Assistant, text, [], "", map[SUMMARY_KEY := Flag(true)])
  }

  // ----- libs/counter/counter.go -----

  function ArgumentBytes(calls: seq<ToolCall>): nat {
    if calls == [] then 0 else ArgumentBytes(calls[..|calls| - 1]) + ByteLen(calls[|calls| - 1].arguments)
  }

  function MessageBytes(m: Message): nat {
    if m.Nil? then 0 else ByteLen(m.content) + ArgumentBytes(m.toolCalls)
  }

  function TotalBytes(msgs: seq<Message>): nat {
    if msgs == [] then 0 else TotalBytes(msgs[..|msgs| - 1]) + MessageBytes(msgs[|msgs| - 1])
  }

  /** About four bytes a token, and at least one token for anything that is not empty. */
  function TokensOfBytes(bytes: nat): nat {
    if bytes / 4 == 0 && bytes > 0 then 1 else bytes / 4
  }

  function Tokens(msgs: seq<Message>): nat {
    TokensOfBytes(TotalBytes(msgs))
  }

  /** `DefaultTokenCounter`. It dereferences every message, so none may be nil. */
  method DefaultTokenCounter(msgs: seq<Message>) returns (tokens: nat)
    requires forall i :: 0 <= i < |msgs| ==> msgs[i].Msg?
    ensures tokens == Tokens(msgs)
  {
    var total := 0;
    for i := 0 to |msgs|
      invariant total == TotalBytes(msgs[..i])
    {
      total := total + ByteLen(msgs[i].content);
      var calls := msgs[i].toolCalls;
      for j := 0 to |calls|
        invariant total == TotalBytes(msgs[..i]) + ByteLen(msgs[i].content) + ArgumentBytes(calls[..j])
      {
        total := total + ByteLen(calls[j].arguments);
        assert calls[..j + 1][..j] == calls[..j];
      }
      assert calls[..|calls|] == calls && msgs[..i + 1][..i] == msgs[..i];
    }
    assert msgs[..|msgs|] == msgs;
    tokens := total / 4;
    if tokens == 0 && total > 0 {
      tokens := 1;
    }
  }

  lemma {:induction false} TotalBytesConcat(a: seq<Message>, b: seq<Message>)
    ensures TotalBytes(a + b) == TotalBytes(a) + TotalBytes(b)
  {
    if b == [] {
      assert a + b == a;
    } else {
      TotalBytesConcat(a, b[..|b| - 1]);
      assert (a + b)[..|a + b| - 1] == a + b[..|b| - 1];
    }
  }

  /** Putting messages anywhere into a history never lowers its count, and joining two histories
      costs at most one token more than their separate counts, because each count is floored. */
  lemma TokensMonotone(a: seq<Message>, b: seq<Message>, c: seq<Message>)
    ensures Tokens(a + c) <= Tokens(a + b + c)
    ensures Tokens(a + c) <= Tokens(a) + Tokens(c) + 1
  {
    TotalBytesConcat(a, c);
    TotalBytesConcat(a + b, c);
    TotalBytesConcat(a, b);
  }
}
