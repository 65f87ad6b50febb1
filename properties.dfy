/**
 * Sequences of reaction events as the gateway delivers them to the two registered handlers,
 * one at a time, and what the handlers do over a whole sequence.
 */
module Properties {
  import opened Wrappers
  import opened Discord
  import opened Entities
  import opened Usecases
  import opened Interfaces

  datatype Event = Added(reaction: MessageReaction) | Removed(reaction: MessageReaction)

  /** One delivered event together with the session that answers its REST calls. */
  datatype Delivery = Delivery(event: Event, session: Session)

  function Handle(h: DiscordHandler, mapping: map<string, string>, d: Delivery): Effect
  {
    match d.event
    case Added(r) => ReactionAddEffect(h, mapping, d.session, r)
    case Removed(r) => ReactionRemoveEffect(h, mapping, d.session, r)
  }

  /** Handles `trace` in order from `mapping`: the final mapping and every REST call issued. */
  function Replay(h: DiscordHandler, mapping: map<string, string>, trace: seq<Delivery>): Effect
    decreases |trace|
  {
    if trace == [] then Effect(mapping, [])
    else
      var first := Handle(h, mapping, trace[0]);
      var rest := Replay(h, first.mapping, trace[1..]);
      Effect(rest.mapping, first.calls + rest.calls)
  }

  /** A reaction-add the filter lets through, whose fetch succeeds with trigger tally `tally`. */
  predicate RelevantAdd(h: DiscordHandler, d: Delivery, tally: int)
  {
    && d.event.Added?
    && Relevant(h, d.session, d.event.reaction)
    && d.session.channelMessage.Ok?
    && TriggerReactionCount(d.session.channelMessage.value.reactions, h.config.triggerReactionEmoji) == tally
  }

  /** Add events whose tally is above 1 send nothing, delete nothing and leave the store as it is. */
  lemma {:induction false} LaterAddsSkip(h: DiscordHandler, mapping: map<string, string>, trace: seq<Delivery>, tallies: seq<int>)
    requires |tallies| == |trace|
    requires forall i | 0 <= i < |trace| :: RelevantAdd(h, trace[i], tallies[i]) && tallies[i] > 1
    ensures Replay(h, mapping, trace).mapping == mapping
    ensures SendCount(Replay(h, mapping, trace).calls) == 0
    ensures DeleteCount(Replay(h, mapping, trace).calls) == 0
    decreases |trace|
  {
    if trace != [] {
      assert RelevantAdd(h, trace[0], tallies[0]);
      var first := Handle(h, mapping, trace[0]);
      AddDecision(h, mapping, trace[0].session, trace[0].event.reaction);
      TransferExactly(h, mapping, trace[0].session, trace[0].event.reaction);
      LaterAddsSkip(h, mapping, trace[1..], tallies[1..]);
      CountsOfConcatenation(first.calls, Replay(h, mapping, trace[1..]).calls);
    }
  }

  /**
   * Idempotent transfer: reaction-adds on one message whose fetched tallies rise strictly from 1
   * send exactly one forward and delete nothing; the store ends as that one send left it.
   */
  lemma {:induction false} RisingTalliesTransferOnce(h: DiscordHandler, mapping: map<string, string>, trace: seq<Delivery>, tallies: seq<int>)
    requires |trace| >= 1 && |tallies| == |trace|
    requires forall i | 0 <= i < |trace| :: RelevantAdd(h, trace[i], tallies[i])
    requires tallies[0] == 1
    requires forall i | 0 < i < |tallies| :: tallies[i - 1] < tallies[i]
    ensures SendCount(Replay(h, mapping, trace).calls) == 1
    ensures DeleteCount(Replay(h, mapping, trace).calls) == 0
    ensures Replay(h, mapping, trace).mapping == Handle(h, mapping, trace[0]).mapping
  {
    var r := trace[0].event.reaction;
    var first := Handle(h, mapping, trace[0]);
    TransferExactly(h, mapping, trace[0].session, r);
    AddDecision(h, mapping, trace[0].session, r);
    assert forall i | 0 < i < |tallies| :: tallies[i] > 1 by {
      RisingAboveFirst(tallies);
    }
    LaterAddsSkip(h, first.mapping, trace[1..], tallies[1..]);
    CountsOfConcatenation(first.calls, Replay(h, first.mapping, trace[1..]).calls);
  }

  /** In a strictly rising sequence every later entry exceeds the first. */
  lemma {:induction false} RisingAboveFirst(tallies: seq<int>)
    requires forall i | 0 < i < |tallies| :: tallies[i - 1] < tallies[i]
    ensures forall i | 0 < i < |tallies| :: tallies[0] < tallies[i]
    decreases |tallies|
  {
    if |tallies| > 1 {
      var init := tallies[..|tallies| - 1];
      assert forall i | 0 < i < |init| :: init[i - 1] < init[i] by {
        forall i | 0 < i < |init| ensures init[i - 1] < init[i] {
          assert init[i - 1] == tallies[i - 1] && init[i] == tallies[i];
        }
      }
      RisingAboveFirst(init);
      forall i | 0 < i < |tallies| ensures tallies[0] < tallies[i] {
        if 1 < i < |tallies| - 1 {
          assert init[0] < init[i];
        } else if 1 < i {
          assert init[0] < init[i - 1];
        }
      }
    }
  }

  /** A message whose reaction summary holds `count` trigger reactions. */
  function WithTally(msg: Message, trigger: Emoji, count: int): Message
  {
    msg.(reactions := [MessageReactions(count, trigger)])
  }

  /**
   * Two users add the trigger and then remove it again; the tallies read are 1, 2, 1 and 0,
   * and every send and delete succeeds.
   */
  function TwoReactorsTrace(bot: string, userA: string, userB: string, trigger: Emoji, msg: Message, copy: Message): seq<Delivery>
  {
    var byA := MessageReaction(userA, msg.id, trigger, msg.channelID, msg.guildID);
    var byB := MessageReaction(userB, msg.id, trigger, msg.channelID, msg.guildID);
    var answering := (count: int) => Session(bot, Ok(WithTally(msg, trigger, count)), Ok(copy), None);
    [ Delivery(Added(byA), answering(1)),
      Delivery(Added(byB), answering(2)),
      Delivery(Removed(byA), answering(1)),
      Delivery(Removed(byB), answering(0)) ]
  }

  /**
   * The two-reactor scenario creates exactly one forward and deletes exactly one: after the two
   * adds the store maps the message to the copy, and at the end the message is absent.
   */
  lemma TwoReactorsTransferOnceAndRetract(h: DiscordHandler, mapping: map<string, string>,
                                          bot: string, userA: string, userB: string, trigger: Emoji, msg: Message, copy: Message)
    requires userA != bot && userB != bot
    requires trigger.id == h.config.triggerReactionEmoji
    requires h.transferUseCase.config == h.config
    ensures var trace := TwoReactorsTrace(bot, userA, userB, trigger, msg, copy);
            && Replay(h, mapping, trace[..2]).mapping == mapping[msg.id := copy.id]
            && Replay(h, mapping, trace).mapping == mapping - {msg.id}
            && SendCount(Replay(h, mapping, trace).calls) == 1
            && DeleteCount(Replay(h, mapping, trace).calls) == 1
            && Replay(h, mapping, trace).calls
               == [ ChannelMessage(msg.channelID, msg.id),
                    ChannelMessageSendComplex(h.config.transferChannelID, Forward(WithTally(msg, trigger, 1))),
                    ChannelMessage(msg.channelID, msg.id),
                    ChannelMessage(msg.channelID, msg.id),
                    ChannelMessage(msg.channelID, msg.id),
                    ChannelMessageDelete(h.config.transferChannelID, copy.id) ]
  {
    var trace := TwoReactorsTrace(bot, userA, userB, trigger, msg, copy);
    var m1 := mapping[msg.id := copy.id];
    var fetch := ChannelMessage(msg.channelID, msg.id);
    var send := ChannelMessageSendComplex(h.config.transferChannelID, Forward(WithTally(msg, trigger, 1)));
    var delete := ChannelMessageDelete(h.config.transferChannelID, copy.id);
    assert TriggerReactionCount([MessageReactions(1, trigger)], h.config.triggerReactionEmoji) == 1;
    assert TriggerReactionCount([MessageReactions(2, trigger)], h.config.triggerReactionEmoji) == 2;
    assert TriggerReactionCount([MessageReactions(0, trigger)], h.config.triggerReactionEmoji) == 0;
    assert Handle(h, mapping, trace[0]) == Effect(m1, [fetch, send]);
    assert Handle(h, m1, trace[1]) == Effect(m1, [fetch]);
    assert Handle(h, m1, trace[2]) == Effect(m1, [fetch]);
    assert Handle(h, m1, trace[3]) == Effect(mapping - {msg.id}, [fetch, delete]);
    assert trace[3..][1..] == [];
    assert Replay(h, m1, trace[3..]) == Effect(mapping - {msg.id}, [fetch, delete]);
    assert trace[2..][1..] == trace[3..];
    assert Replay(h, m1, trace[2..]) == Effect(mapping - {msg.id}, [fetch, fetch, delete]);
    assert trace[1..][1..] == trace[2..];
    assert Replay(h, m1, trace[1..]) == Effect(mapping - {msg.id}, [fetch, fetch, fetch, delete]);
    assert trace[..2][1..][1..] == [];
    assert Replay(h, m1, trace[..2][1..]) == Effect(m1, [fetch]);
    assert [fetch][1..] == [] && [send][1..] == [] && [delete][1..] == [];
    assert SendCount([fetch]) == 0 && DeleteCount([fetch]) == 0;
    assert SendCount([send]) == 1 && DeleteCount([send]) == 0;
    assert SendCount([delete]) == 0 && DeleteCount([delete]) == 1;
    assert [fetch, send][1..] == [send] && [fetch, delete][1..] == [delete];
    assert SendCount([fetch, send]) == 1 && DeleteCount([fetch, send]) == 0;
    assert SendCount([fetch, delete]) == 0 && DeleteCount([fetch, delete]) == 1;
    CountsOfConcatenation([fetch], [fetch, delete]);
    CountsOfConcatenation([fetch], [fetch, fetch, delete]);
    CountsOfConcatenation([fetch, send], [fetch, fetch, fetch, delete]);
  }
}
