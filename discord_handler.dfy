/**
 * The reaction-event handler. For each reaction-add or reaction-remove event it drops the
 * bot's own reactions and reactions with another emoji, fetches the message, reads the
 * trigger tally, and on add forwards the message when the tally is at most 1, on remove
 * deletes the forward when the tally is at most 0.
 */
module Interfaces {
  import opened Wrappers
  import opened Discord
  import opened Entities
  import opened Usecases

  /** Entry `i` is the first reaction in `reactions` whose emoji is `trigger`. */
  ghost predicate IsFirstTrigger(reactions: seq<MessageReactions>, trigger: string, i: int)
  {
    && 0 <= i < |reactions|
    && reactions[i].emoji.id == trigger
    && forall j | 0 <= j < i :: reactions[j].emoji.id != trigger
  }

  /**
   * The trigger tally of a reaction summary: the count of the FIRST entry whose emoji is the
   * trigger (later matching entries are not added in), and 0 when no entry matches.
   */
  function TriggerReactionCount(reactions: seq<MessageReactions>, trigger: string): (count: int)
    ensures forall i | IsFirstTrigger(reactions, trigger, i) :: count == reactions[i].count
    ensures (forall i | 0 <= i < |reactions| :: reactions[i].emoji.id != trigger) ==> count == 0
  {
    if reactions == [] then 0
    else if reactions[0].emoji.id == trigger then reactions[0].count
    else
      var rest := TriggerReactionCount(reactions[1..], trigger);
      assert forall i | IsFirstTrigger(reactions, trigger, i) :: IsFirstTrigger(reactions[1..], trigger, i - 1);
      rest
  }

  /** What the handler does for one event: the new mapping and the REST calls issued, in order. */
  datatype Effect = Effect(mapping: map<string, string>, calls: seq<ApiCall>)

  /** The event passes the filter: not the bot's own reaction, and the trigger emoji. */
  predicate Relevant(h: DiscordHandler, session: Session, r: MessageReaction)
  {
    r.userID != session.stateUserID && h.IsTriggerReactionEmoji(r.emoji)
  }

  /** HandleReactionAdd starting from `mapping`. */
  function ReactionAddEffect(h: DiscordHandler, mapping: map<string, string>, session: Session, r: MessageReaction): Effect
  {
    if r.userID == session.stateUserID then Effect(mapping, [])
    else if !h.IsTriggerReactionEmoji(r.emoji) then Effect(mapping, [])
    else
      var fetch := ChannelMessage(r.channelID, r.messageID);
      match session.channelMessage
      case Err(_) => Effect(mapping, [fetch])
      case Ok(originalMsg) =>
        if TriggerReactionCount(originalMsg.reactions, h.config.triggerReactionEmoji) > 1 then
          Effect(mapping, [fetch])
        else
          var t := TransferEffect(h.transferUseCase.config, mapping, session, originalMsg);
          Effect(t.mapping, [fetch] + t.calls)
  }

  /** HandleReactionRemove starting from `mapping`. */
  function ReactionRemoveEffect(h: DiscordHandler, mapping: map<string, string>, session: Session, r: MessageReaction): Effect
  {
    if r.userID == session.stateUserID then Effect(mapping, [])
    else if !h.IsTriggerReactionEmoji(r.emoji) then Effect(mapping, [])
    else
      var fetch := ChannelMessage(r.channelID, r.messageID);
      match session.channelMessage
      case Err(_) => Effect(mapping, [fetch])
      case Ok(originalMsg) =>
        if TriggerReactionCount(originalMsg.reactions, h.config.triggerReactionEmoji) > 0 then
          Effect(mapping, [fetch])
        else
          var d := DeleteEffect(h.transferUseCase.config, mapping, session, r.messageID);
          Effect(d.mapping, [fetch] + d.calls)
  }

  class DiscordHandler {
    const transferUseCase: TransferMessageUseCase
    const config: Config

    constructor (transferUseCase: TransferMessageUseCase, config: Config)
      ensures this.transferUseCase == transferUseCase && this.config == config
    {
      this.transferUseCase := transferUseCase;
      this.config := config;
    }

    /** Handles a reaction-add event; returns the REST calls it issued. */
    method HandleReactionAdd(s: Session, r: MessageReaction) returns (calls: seq<ApiCall>)
      modifies transferUseCase
      ensures transferUseCase.transferMsgMapping
              == ReactionAddEffect(this, old(transferUseCase.transferMsgMapping), s, r).mapping
      ensures calls == ReactionAddEffect(this, old(transferUseCase.transferMsgMapping), s, r).calls
    {
      // The bot's own reactions are ignored, so that its actions cannot loop.
      if r.userID == s.stateUserID {
        return [];
      }
      if !IsTriggerReactionEmoji(r.emoji) {
        return [];
      }
      calls := [ChannelMessage(r.channelID, r.messageID)];
      var fetched := s.channelMessage;
      if fetched.Err? {
        return;
      }
      var originalMsg := fetched.value;
      // A tally above 1 means an earlier reaction already triggered the transfer.
      var reactionCount := GetTriggerReactionCount(originalMsg);
      if reactionCount > 1 {
        return;
      }
      var err, sendCalls := transferUseCase.TransferMessage(s, originalMsg);
      calls := calls + sendCalls;
    }

    /** Handles a reaction-remove event; returns the REST calls it issued. */
    method HandleReactionRemove(s: Session, r: MessageReaction) returns (calls: seq<ApiCall>)
      modifies transferUseCase
      ensures transferUseCase.transferMsgMapping
              == ReactionRemoveEffect(this, old(transferUseCase.transferMsgMapping), s, r).mapping
      ensures calls == ReactionRemoveEffect(this, old(transferUseCase.transferMsgMapping), s, r).calls
    {
      if r.userID == s.stateUserID {
        return [];
      }
      if !IsTriggerReactionEmoji(r.emoji) {
        return [];
      }
      calls := [ChannelMessage(r.channelID, r.messageID)];
      var fetched := s.channelMessage;
      if fetched.Err? {
        return;
      }
      var originalMsg := fetched.value;
      // The forward is deleted only once the last trigger reaction is gone.
      var triggerReactionCount := GetTriggerReactionCount(originalMsg);
      if triggerReactionCount > 0 {
        return;
      }
      var err, deleteCalls := transferUseCase.DeleteTransferredMessage(s, r.messageID);
      calls := calls + deleteCalls;
    }

    predicate IsTriggerReactionEmoji(emoji: Emoji)
    {
      emoji.id == config.triggerReactionEmoji
    }

    /** Scans the message's reaction summary for the trigger emoji. */
    method GetTriggerReactionCount(msg: Message) returns (count: int)
      ensures count == TriggerReactionCount(msg.reactions, config.triggerReactionEmoji)
    {
      for i := 0 to |msg.reactions|
        invariant forall j | 0 <= j < i :: msg.reactions[j].emoji.id != config.triggerReactionEmoji
      {
        var reaction := msg.reactions[i];
        if reaction.emoji.id == config.triggerReactionEmoji {
          assert IsFirstTrigger(msg.reactions, config.triggerReactionEmoji, i);
          return reaction.count;
        }
      }
      return 0;
    }
  }

  /** The bot's own reactions, added or removed, cause no REST call and no store change. */
  lemma SelfReactionIgnored(h: DiscordHandler, mapping: map<string, string>, session: Session, r: MessageReaction)
    requires r.userID == session.stateUserID
    ensures ReactionAddEffect(h, mapping, session, r) == Effect(mapping, [])
    ensures ReactionRemoveEffect(h, mapping, session, r) == Effect(mapping, [])
  {
  }

  /** A reaction with any emoji other than the trigger causes no REST call and no store change. */
  lemma OtherEmojiIgnored(h: DiscordHandler, mapping: map<string, string>, session: Session, r: MessageReaction)
    requires r.emoji.id != h.config.triggerReactionEmoji
    ensures !h.IsTriggerReactionEmoji(r.emoji)
    ensures ReactionAddEffect(h, mapping, session, r) == Effect(mapping, [])
    ensures ReactionRemoveEffect(h, mapping, session, r) == Effect(mapping, [])
  {
  }

  /** When the message cannot be fetched, the fetch is the only call and the store is unchanged. */
  lemma FetchFailureHasNoEffect(h: DiscordHandler, mapping: map<string, string>, session: Session, r: MessageReaction)
    requires Relevant(h, session, r)
    requires session.channelMessage.Err?
    ensures ReactionAddEffect(h, mapping, session, r) == Effect(mapping, [ChannelMessage(r.channelID, r.messageID)])
    ensures ReactionRemoveEffect(h, mapping, session, r) == Effect(mapping, [ChannelMessage(r.channelID, r.messageID)])
  {
  }

  /**
   * On add, a forward is sent exactly when the filter passes, the fetch succeeds and the tally
   * is at most 1; the message forwarded is the fetched one, and the store changes only if the
   * send succeeds.
   */
  lemma AddDecision(h: DiscordHandler, mapping: map<string, string>, session: Session, r: MessageReaction)
    requires Relevant(h, session, r)
    requires session.channelMessage.Ok?
    ensures var e := ReactionAddEffect(h, mapping, session, r);
            var originalMsg := session.channelMessage.value;
            var tally := TriggerReactionCount(originalMsg.reactions, h.config.triggerReactionEmoji);
            && (tally > 1 ==> e == Effect(mapping, [ChannelMessage(r.channelID, r.messageID)]))
            && (tally <= 1 ==> e.calls == [ChannelMessage(r.channelID, r.messageID),
                                           ChannelMessageSendComplex(h.transferUseCase.config.transferChannelID, Forward(originalMsg))])
            && (tally <= 1 ==> e.mapping == TransferEffect(h.transferUseCase.config, mapping, session, originalMsg).mapping)
  {
  }

  /**
   * On remove, the store is consulted only when the filter passes, the fetch succeeds and the
   * tally is at most 0, and then with the event's message ID.
   */
  lemma RemoveDecision(h: DiscordHandler, mapping: map<string, string>, session: Session, r: MessageReaction)
    requires Relevant(h, session, r)
    requires session.channelMessage.Ok?
    ensures var e := ReactionRemoveEffect(h, mapping, session, r);
            var tally := TriggerReactionCount(session.channelMessage.value.reactions, h.config.triggerReactionEmoji);
            var d := DeleteEffect(h.transferUseCase.config, mapping, session, r.messageID);
            && (tally > 0 ==> e == Effect(mapping, [ChannelMessage(r.channelID, r.messageID)]))
            && (tally <= 0 ==> e == Effect(d.mapping, [ChannelMessage(r.channelID, r.messageID)] + d.calls))
  {
  }

  /**
   * A delete call is issued exactly when the filter passes, the fetch succeeds, the tally is at
   * most 0 and the event's message is TRANSFERRED; no remove event ever sends a forward.
   */
  lemma {:induction false} RetractionExactly(h: DiscordHandler, mapping: map<string, string>, session: Session, r: MessageReaction)
    ensures var e := ReactionRemoveEffect(h, mapping, session, r);
            && SendCount(e.calls) == 0
            && DeleteCount(e.calls) == (if Relevant(h, session, r) && session.channelMessage.Ok?
                                            && TriggerReactionCount(session.channelMessage.value.reactions, h.config.triggerReactionEmoji) <= 0
                                            && r.messageID in mapping
                                        then 1 else 0)
  {
    var e := ReactionRemoveEffect(h, mapping, session, r);
    if Relevant(h, session, r) {
      var fetch := ChannelMessage(r.channelID, r.messageID);
      assert SendCount([fetch]) == 0 && DeleteCount([fetch]) == 0;
      if session.channelMessage.Ok? && TriggerReactionCount(session.channelMessage.value.reactions, h.config.triggerReactionEmoji) <= 0 {
        var d := DeleteEffect(h.transferUseCase.config, mapping, session, r.messageID);
        CountsOfConcatenation([fetch], d.calls);
        if r.messageID in mapping {
          assert DeleteCount(d.calls) == 1 && SendCount(d.calls) == 0;
        }
      }
    }
  }

  /**
   * A send call is issued exactly when the filter passes, the fetch succeeds and the tally is
   * at most 1; no add event ever deletes.
   */
  lemma {:induction false} TransferExactly(h: DiscordHandler, mapping: map<string, string>, session: Session, r: MessageReaction)
    ensures var e := ReactionAddEffect(h, mapping, session, r);
            && DeleteCount(e.calls) == 0
            && SendCount(e.calls) == (if Relevant(h, session, r) && session.channelMessage.Ok?
                                          && TriggerReactionCount(session.channelMessage.value.reactions, h.config.triggerReactionEmoji) <= 1
                                      then 1 else 0)
  {
    if Relevant(h, session, r) {
      var fetch := ChannelMessage(r.channelID, r.messageID);
      assert SendCount([fetch]) == 0 && DeleteCount([fetch]) == 0;
      if session.channelMessage.Ok? && TriggerReactionCount(session.channelMessage.value.reactions, h.config.triggerReactionEmoji) <= 1 {
        var t := TransferEffect(h.transferUseCase.config, mapping, session, session.channelMessage.value);
        CountsOfConcatenation([fetch], t.calls);
      }
    }
  }
}
