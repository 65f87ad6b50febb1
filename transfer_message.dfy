/**
 * The transfer use case: forwards a message to the transfer channel and remembers, for each
 * original message ID, the ID of its forwarded copy. An original is TRANSFERRED exactly when
 * its ID is a key of the mapping; the map type itself keeps at most one entry per original.
 * Each section the source guards with its read-write mutex is one atomic step here.
 */
module Usecases {
  import opened Wrappers
  import opened Discord
  import opened Entities

  /** `after` has the same entries as `before` on every key other than `key`. */
  ghost predicate AgreeExcept(before: map<string, string>, after: map<string, string>, key: string)
  {
    && (forall k | k != key && k in before :: k in after && after[k] == before[k])
    && (forall k | k != key && k in after :: k in before)
  }

  /** The outcome of one use-case operation: the new mapping, the REST calls made, the error returned. */
  datatype StoreStep = StoreStep(mapping: map<string, string>, calls: seq<ApiCall>, err: Option<ApiError>)

  /**
   * TransferMessage on `mapping`: one forward is always sent; only a successful send records
   * the new entry (overwriting any earlier one), and a failed send changes nothing.
   */
  function TransferEffect(config: Config, mapping: map<string, string>, session: Session, originalMsg: Message): (s: StoreStep)
    ensures s.calls == [ChannelMessageSendComplex(config.transferChannelID, Forward(originalMsg))]
    ensures s.err.None? <==> session.channelMessageSendComplex.Ok?
    ensures session.channelMessageSendComplex.Ok? ==>
              originalMsg.id in s.mapping && s.mapping[originalMsg.id] == session.channelMessageSendComplex.value.id
    ensures AgreeExcept(mapping, s.mapping, originalMsg.id)
    ensures session.channelMessageSendComplex.Err? ==>
              s.mapping == mapping && s.err == Some(session.channelMessageSendComplex.error)
  {
    var send := ChannelMessageSendComplex(config.transferChannelID, Forward(originalMsg));
    match session.channelMessageSendComplex
    case Err(e) => StoreStep(mapping, [send], Some(e))
    case Ok(transferredMsg) => StoreStep(mapping[originalMsg.id := transferredMsg.id], [send], None)
  }

  /**
   * DeleteTransferredMessage on `mapping`: an unknown original is a silent no-op; otherwise the
   * recorded copy is deleted, and only a successful delete drops the entry, so a failed one can
   * be retried by a later event.
   */
  function DeleteEffect(config: Config, mapping: map<string, string>, session: Session, originalMsgID: string): (s: StoreStep)
    ensures originalMsgID !in mapping ==> s.mapping == mapping && s.calls == [] && s.err == None
    ensures originalMsgID in mapping ==>
              s.calls == [ChannelMessageDelete(config.transferChannelID, mapping[originalMsgID])]
    ensures s.err.Some? <==> originalMsgID in mapping && session.channelMessageDelete.Some?
    ensures s.err.Some? ==> s.err == session.channelMessageDelete && s.mapping == mapping
    ensures s.err.None? ==> originalMsgID !in s.mapping && AgreeExcept(mapping, s.mapping, originalMsgID)
  {
    if originalMsgID !in mapping then
      StoreStep(mapping, [], None)
    else
      var transferredMsgID := mapping[originalMsgID];
      var delete := ChannelMessageDelete(config.transferChannelID, transferredMsgID);
      match session.channelMessageDelete
      case Some(e) => StoreStep(mapping, [delete], Some(e))
      case None => StoreStep(mapping - {originalMsgID}, [delete], None)
  }

  class TransferMessageUseCase {
    const config: Config
    /** Original message ID to the ID of its forwarded copy. */
    var transferMsgMapping: map<string, string>

    /** A use case that has transferred nothing yet. */
    constructor (config: Config)
      ensures this.config == config
      ensures transferMsgMapping == map[]
    {
      this.config := config;
      transferMsgMapping := map[];
    }

    /** Forwards `originalMsg` to the transfer channel and records the copy's ID on success. */
    method TransferMessage(session: Session, originalMsg: Message) returns (err: Option<ApiError>, calls: seq<ApiCall>)
      modifies this
      ensures transferMsgMapping == TransferEffect(config, old(transferMsgMapping), session, originalMsg).mapping
      ensures calls == TransferEffect(config, old(transferMsgMapping), session, originalMsg).calls
      ensures err == TransferEffect(config, old(transferMsgMapping), session, originalMsg).err
    {
      var transferRef := Forward(originalMsg);
      calls := [ChannelMessageSendComplex(config.transferChannelID, transferRef)];
      var sent := session.channelMessageSendComplex;
      if sent.Err? {
        return Some(sent.error), calls;
      }
      var transferredMsg := sent.value;
      transferMsgMapping := transferMsgMapping[originalMsg.id := transferredMsg.id];
      err := None;
    }

    /** Deletes the forwarded copy of `originalMsgID`, if one is recorded, and forgets it on success. */
    method DeleteTransferredMessage(session: Session, originalMsgID: string) returns (err: Option<ApiError>, calls: seq<ApiCall>)
      modifies this
      ensures transferMsgMapping == DeleteEffect(config, old(transferMsgMapping), session, originalMsgID).mapping
      ensures calls == DeleteEffect(config, old(transferMsgMapping), session, originalMsgID).calls
      ensures err == DeleteEffect(config, old(transferMsgMapping), session, originalMsgID).err
    {
      if originalMsgID !in transferMsgMapping {
        return None, [];
      }
      var transferredMsgID := transferMsgMapping[originalMsgID];
      calls := [ChannelMessageDelete(config.transferChannelID, transferredMsgID)];
      err := session.channelMessageDelete;
      if err.Some? {
        return;
      }
      transferMsgMapping := transferMsgMapping - {originalMsgID};
    }

    /** Reverse lookup: is `msgID` the ID of some forwarded copy? Scans the mapping's entries. */
    method IsTransferredMessage(msgID: string) returns (found: bool)
      ensures found <==> msgID in transferMsgMapping.Values
    {
      var pending := transferMsgMapping.Keys;
      while pending != {}
        invariant pending <= transferMsgMapping.Keys
        invariant forall k | k in transferMsgMapping && k !in pending :: transferMsgMapping[k] != msgID
        decreases pending
      {
        var k :| k in pending;
        if transferMsgMapping[k] == msgID {
          return true;
        }
        pending := pending - {k};
      }
      return false;
    }
  }
}
