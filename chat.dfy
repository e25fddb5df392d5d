/** The values the chat controller works with: messages, the collection
    filter sent with a query, the send-enable rule and the shape of the
    message history between and during turns. */
module Chat {
  import opened Text
  import opened Backend

  datatype Role = User | Assistant

  /** A history entry; only assistant messages carry `sources`. */
  datatype Message = Message(role: Role, content: string, sources: Option<seq<string>>)

  /** `{role: "user", content: query}`: the raw query, untrimmed. */
  function UserMessage(query: string): (m: Message)
    ensures m.role == User && m.content == query && m.sources.None?
  {
    Message(User, query, None)
  }

  /** `{role: "assistant", content: answer, sources}` from the response. */
  function AssistantMessage(reply: ChatReply): (m: Message)
    ensures m.role == Assistant && m.content == reply.answer && m.sources == reply.sources
  {
    Message(Assistant, reply.answer, reply.sources)
  }

  /** The filter value that means "every collection". */
  const AllCollections: string := "all"

  /** The `collection` field of a chat request: `null` for the "all"
      sentinel, the selection verbatim otherwise. */
  function CollectionFilter(selected: string): (r: Option<string>)
    ensures r.None? <==> selected == AllCollections
    ensures r.Some? ==> r.value == selected
  {
    if selected == AllCollections then None else Some(selected)
  }

  /** Whether the send button is enabled: no reply pending, a query with a
      non-whitespace character, and at least one document. */
  function SendEnabled(chatLoading: bool, query: string, documentCount: nat): (r: bool)
    ensures r <==> !chatLoading && documentCount > 0 && !AllSpace(query)
  {
    !(chatLoading || IsBlank(query) || documentCount == 0)
  }

  /** Whenever the send button is enabled, the handler gets past its blank
      check: the query's trimmed form is not empty. */
  lemma EnabledSendIsNotBlank(chatLoading: bool, query: string, documentCount: nat)
    requires SendEnabled(chatLoading, query, documentCount)
    ensures !IsBlank(query) && !chatLoading
  {
    BlankIffAllSpace(query);
  }

  /** `prev.slice(0, -1)`: everything but the last message; empty stays empty. */
  function DropLast(ms: seq<Message>): (r: seq<Message>)
    ensures |ms| > 0 ==> |r| == |ms| - 1 && ms == r + [ms[|ms| - 1]]
    ensures |ms| == 0 ==> r == []
  {
    if |ms| == 0 then [] else ms[..|ms| - 1]
  }

  /** Completed turns only: user, assistant, user, assistant, ... */
  predicate IsTranscript(ms: seq<Message>)
    decreases |ms|
  {
    ms == [] ||
    (|ms| >= 2 && ms[0].role == User && ms[1].role == Assistant && IsTranscript(ms[2..]))
  }

  /** A transcript followed by one more user-then-assistant turn is a transcript. */
  lemma {:induction false} TranscriptAppendTurn(ms: seq<Message>, question: Message, answer: Message)
    requires IsTranscript(ms)
    requires question.role == User && answer.role == Assistant
    ensures IsTranscript(ms + [question, answer])
    decreases |ms|
  {
    if ms != [] {
      TranscriptAppendTurn(ms[2..], question, answer);
      assert (ms + [question, answer])[2..] == ms[2..] + [question, answer];
    }
  }

  /** The history between turns is a transcript; while a reply is pending it
      is a transcript followed by the pending user message. */
  predicate ConversationShape(ms: seq<Message>, pending: bool) {
    if pending then |ms| >= 1 && ms[|ms| - 1].role == User && IsTranscript(ms[..|ms| - 1])
    else IsTranscript(ms)
  }

  /** Sending from an idle conversation leaves a pending user message. */
  lemma SendKeepsShape(ms: seq<Message>, query: string)
    requires ConversationShape(ms, false)
    ensures ConversationShape(ms + [UserMessage(query)], true)
  {
    assert (ms + [UserMessage(query)])[..|ms|] == ms;
  }

  /** A reply after the pending user message completes the turn. */
  lemma ReplyKeepsShape(ms: seq<Message>, reply: ChatReply)
    requires ConversationShape(ms, true)
    ensures ConversationShape(ms + [AssistantMessage(reply)], false)
  {
    var done := ms[..|ms| - 1];
    TranscriptAppendTurn(done, ms[|ms| - 1], AssistantMessage(reply));
    assert ms + [AssistantMessage(reply)] == done + [ms[|ms| - 1], AssistantMessage(reply)];
  }

  /** Dropping the pending user message returns the history to the
      transcript it was before the send. */
  lemma RollbackKeepsShape(ms: seq<Message>)
    requires ConversationShape(ms, true)
    ensures ConversationShape(DropLast(ms), false)
  {
  }

  /** The rollback removes exactly the optimistic append. */
  lemma RollbackUndoesSend(ms: seq<Message>, query: string)
    ensures DropLast(ms + [UserMessage(query)]) == ms
  {
    assert (ms + [UserMessage(query)])[..|ms|] == ms;
  }
}
