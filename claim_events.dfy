/** The plugin's claim events: the veto hook every claim-changing command
    consults (a cancel flag), the message a listener may leave for the
    player, and the border event raised when an entity crosses from one
    claim into another. Event posting and the cause stack are not modelled. */
module ClaimEvents {
  import opened Common
  import opened ClaimDataConfig

  /** `GPClaimEvent`. The claims are held as a value sequence, which is what
      the immutable copy taken by the constructor amounts to. */
  class ClaimEvent {
    const claims: seq<ClaimData>
    var isCancelled: bool
    var message: Option<string>

    /** The single-claim constructor. */
    constructor Single(claim: ClaimData)
      ensures claims == [claim] && !isCancelled && message.None?
    {
      claims := [claim];
      isCancelled := false;
      message := None;
    }

    /** The list constructor. */
    constructor (claims: seq<ClaimData>)
      ensures this.claims == claims && !isCancelled && message.None?
    {
      this.claims := claims;
      isCancelled := false;
      message := None;
    }

    method SetCancelled(cancel: bool)
      modifies this
      ensures isCancelled == cancel && message == old(message)
    {
      isCancelled := cancel;
    }

    /** `setMessage`: a null message (None) leaves the event without one. */
    method SetMessage(message: Option<string>)
      modifies this
      ensures this.message == message && isCancelled == old(isCancelled)
    {
      this.message := message;
    }

    /** `ClaimEvent.getClaim`: the first claim of the event. */
    function Claim(): (c: ClaimData)
      requires |claims| > 0
      ensures c in claims
    {
      claims[0]
    }
  }

  /** Listeners that set the flag, leave a message and set the flag again
      leave the event with the last flag and that message, whatever the
      event held before: a withdrawn veto lets the change go ahead. */
  method VetoThenAllow(e: ClaimEvent, veto: bool, message: Option<string>, last: bool)
    modifies e
    ensures e.isCancelled == last && e.message == message
  {
    e.SetCancelled(veto);
    e.SetMessage(message);
    e.SetCancelled(last);
  }

  /** `GPBorderClaimEvent`: a claim event on the entered claim, with the
      exited claim, the two messages a listener may override and the chat
      type each is sent on. The inherited state is held in `event`. */
  class BorderClaimEvent {
    const event: ClaimEvent
    const targetEntity: Uuid
    const exitClaim: ClaimData
    const enterClaim: ClaimData
    var enterMessage: Option<string>
    var exitMessage: Option<string>
    var enterChatType: ChatType
    var exitChatType: ChatType

    constructor (entity: Uuid, exit: ClaimData, enter: ClaimData)
      ensures event.claims == [enter] && fresh(event) && !event.isCancelled && event.message.None?
      ensures event.Claim() == enter
      ensures enterClaim == enter && exitClaim == exit && targetEntity == entity
      ensures enterMessage.None? && exitMessage.None?
      ensures enterChatType == Chat && exitChatType == Chat
    {
      event := new ClaimEvent.Single(enter);
      targetEntity := entity;
      exitClaim := exit;
      enterClaim := enter;
      enterMessage := None;
      exitMessage := None;
      enterChatType := Chat;
      exitChatType := Chat;
    }

    /** `getEnterMessage`: the override if one is set, else the entered
        claim's greeting. */
    function EnterMessage(): (r: Option<string>)
      reads this, enterClaim
      ensures enterMessage.Some? ==> r == enterMessage
      ensures enterMessage.None? ==> r == enterClaim.data.greeting
    {
      if enterMessage.None? then enterClaim.data.greeting else enterMessage
    }

    /** `getExitMessage`: the override if one is set, else the exited
        claim's farewell. */
    function ExitMessage(): (r: Option<string>)
      reads this, exitClaim
      ensures exitMessage.Some? ==> r == exitMessage
      ensures exitMessage.None? ==> r == exitClaim.data.farewell
    {
      if exitMessage.None? then exitClaim.data.farewell else exitMessage
    }

    /** `setEnterMessage`: a message overrides the greeting, None restores
        it; the exit side is not touched. */
    method SetEnterMessage(message: Option<string>, chatType: ChatType)
      modifies this
      ensures enterMessage == message && enterChatType == chatType
      ensures exitMessage == old(exitMessage) && exitChatType == old(exitChatType)
      ensures EnterMessage() == if message.Some? then message else enterClaim.data.greeting
    {
      enterMessage := message;
      enterChatType := chatType;
    }

    /** `setExitMessage`: a message overrides the farewell, None restores
        it; the enter side is not touched. */
    method SetExitMessage(message: Option<string>, chatType: ChatType)
      modifies this
      ensures exitMessage == message && exitChatType == chatType
      ensures enterMessage == old(enterMessage) && enterChatType == old(enterChatType)
      ensures ExitMessage() == if message.Some? then message else exitClaim.data.farewell
    {
      exitMessage := message;
      exitChatType := chatType;
    }
  }

  /** On any border event, overriding the enter message and then resetting
      it shows the entered claim's greeting again, on the channel of the
      reset, and the exit side keeps its message and channel. */
  method BorderMessagesFallBack(e: BorderClaimEvent, text: string, overrideType: ChatType, chatType: ChatType)
    modifies e
    ensures e.EnterMessage() == e.enterClaim.data.greeting && e.enterChatType == chatType
    ensures e.ExitMessage() == old(e.ExitMessage()) && e.exitChatType == old(e.exitChatType)
  {
    e.SetEnterMessage(Some(text), overrideType);
    assert e.EnterMessage() == Some(text);
    e.SetEnterMessage(None, chatType);
  }
}
