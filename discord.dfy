/**
 * The part of the chat-gateway client library that the bot touches: the message and
 * reaction records it reads, the REST calls it issues, and the session that answers them.
 * The library itself is not modelled; a `Session` only carries the answers it gives.
 */
module Discord {
  import opened Wrappers

  /** An error returned by a REST call of the gateway. */
  datatype ApiError = ApiError(text: string)

  datatype Emoji = Emoji(id: string, name: string)

  /** One entry of a message's reaction summary: an emoji and how many users applied it. */
  datatype MessageReactions = MessageReactions(count: int, emoji: Emoji)

  datatype Message = Message(id: string, channelID: string, guildID: string, reactions: seq<MessageReactions>)

  /** A reference that makes a sent message a forward of another message. */
  datatype MessageReference = ForwardReference(messageID: string, channelID: string, guildID: string)

  /** The reference a message's `Forward()` builds: it points back at that message. */
  function Forward(m: Message): MessageReference
  {
    ForwardReference(m.id, m.channelID, m.guildID)
  }

  /** The payload of a reaction-add or reaction-remove event. */
  datatype MessageReaction = MessageReaction(userID: string, messageID: string, emoji: Emoji, channelID: string, guildID: string)

  /** One external REST call, as the bot issues it. */
  datatype ApiCall =
    | ChannelMessage(channelID: string, messageID: string)
    | ChannelMessageSendComplex(channelID: string, reference: MessageReference)
    | ChannelMessageDelete(channelID: string, messageID: string)

  /**
   * The session as seen while one event is handled: the bot's own user ID and the answer
   * each REST call would give (fetching the message, sending a forward, deleting a message).
   */
  datatype Session = Session(
    stateUserID: string,
    channelMessage: Result<Message, ApiError>,
    channelMessageSendComplex: Result<Message, ApiError>,
    channelMessageDelete: Option<ApiError>)

  /** The number of send calls in a call log. */
  function SendCount(calls: seq<ApiCall>): nat
  {
    if calls == [] then 0
    else (if calls[0].ChannelMessageSendComplex? then 1 else 0) + SendCount(calls[1..])
  }

  /** The number of delete calls in a call log. */
  function DeleteCount(calls: seq<ApiCall>): nat
  {
    if calls == [] then 0
    else (if calls[0].ChannelMessageDelete? then 1 else 0) + DeleteCount(calls[1..])
  }

  lemma {:induction false} CountsOfConcatenation(a: seq<ApiCall>, b: seq<ApiCall>)
    ensures SendCount(a + b) == SendCount(a) + SendCount(b)
    ensures DeleteCount(a + b) == DeleteCount(a) + DeleteCount(b)
  {
    if a == [] {
      assert a + b == b;
    } else {
      assert (a + b)[0] == a[0];
      assert (a + b)[1..] == a[1..] + b;
      CountsOfConcatenation(a[1..], b);
    }
  }
}
