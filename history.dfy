/** The body of the `get-previous-messages` step: the queried messages, in the order the query
    returns them (`MessageTable.ProjectHistory`), become the agent's text messages. */
module History {
  import opened Records

  /** The agent-side role of a text message. */
  datatype ChatRole = Assistant | User

  /** An agent text message `{type: "text", role, content}`. */
  datatype TextMessage = TextMessage(role: ChatRole, content: string)

  /** One stored message as the agent sees it. */
  function Format(m: Message): TextMessage
  {
    TextMessage(if m.role == ASSISTANT then Assistant else User, m.content)
  }

  /** The formatted history: one entry per stored message, in the order given. */
  function Formatted(messages: seq<Message>): seq<TextMessage>
  {
    seq(|messages|, i requires 0 <= i < |messages| => Format(messages[i]))
  }

  /** Entry `i` of the history comes from stored message `i`: ASSISTANT becomes the
      assistant role, every other role becomes user, and the content is kept. */
  lemma FormattedEntries(messages: seq<Message>)
    ensures |Formatted(messages)| == |messages|
    ensures forall i :: 0 <= i < |messages| ==>
      && (Formatted(messages)[i].role == Assistant <==> messages[i].role == ASSISTANT)
      && (Formatted(messages)[i].role == User <==> messages[i].role != ASSISTANT)
      && Formatted(messages)[i].content == messages[i].content
  {
  }

  /** The order of the query is kept as it is: formatting two runs of messages is
      formatting each and putting them side by side, with no reversal. */
  lemma FormattedAppend(a: seq<Message>, b: seq<Message>)
    ensures Formatted(a + b) == Formatted(a) + Formatted(b)
  {
  }

  /** The step body: push one text message per stored message, in order. */
  method FormatHistory(messages: seq<Message>) returns (formatted: seq<TextMessage>)
    ensures formatted == Formatted(messages)
  {
    formatted := [];
    for i := 0 to |messages|
      invariant formatted == Formatted(messages[..i])
    {
      var role := if messages[i].role == ASSISTANT then Assistant else User;
      formatted := formatted + [TextMessage(role, messages[i].content)];
    }
    assert messages[..|messages|] == messages;
  }
}
