/**
 * The reply controller as the object the program uses: a `Reply` per inbound interaction
 * whose methods update its one-shot flag and record every immediate response and REST
 * call in the shared `Exchange`. Each method is proved to do exactly what
 * `ReplySpec.Step` says of the corresponding operation.
 */
module Controller {
  import opened Wrappers
  import opened Interaction
  import opened Webhook
  import opened ReplySpec

  /**
   * The inbound request and the HTTP response it may answer, together with the network:
   * `log` holds, in order, every immediate response and REST call made on the
   * interaction's behalf. A controller and every follow-up controller made from it share one.
   */
  class Exchange {
    ghost var log: seq<Effect>

    constructor()
      ensures log == []
    {
      log := [];
    }
  }

  /** A caller's message object, which the payload rewrite updates in place. */
  class MessageObject {
    var content: Option<string>
    var flags: Option<int>
    var ephemeral: Option<bool>
    var others: map<string, string>

    function Value(): Message
      reads this
    {
      Message(content, flags, ephemeral, others)
    }

    constructor(m: Message)
      ensures Value() == m
    {
      content, flags, ephemeral, others := m.content, m.flags, m.ephemeral, m.others;
    }
  }

  /** A message argument: plain text, or a reference to a caller's message object. */
  datatype Argument = PlainArg(text: string) | ObjectArg(obj: MessageObject)

  function Footprint(a: Argument): set<object> {
    if a.ObjectArg? then {a.obj} else {}
  }

  /** The message an argument currently denotes. */
  function Snapshot(a: Argument): Outbound
    reads Footprint(a)
  {
    match a
    case PlainArg(text) => Plain(text)
    case ObjectArg(obj) => Structured(obj.Value())
  }

  class Reply {
    const request: Interaction
    const exchange: Exchange
    var isReply: bool
    var messageHandle: string
    const token: string
    const applicationId: string
    const interactionType: InteractionType

    /** The identity fields are those of the interaction the controller was built from. */
    ghost predicate Valid() {
      token == request.token && applicationId == request.applicationId &&
      interactionType == request.interactionType
    }

    function State(): ReplyState
      reads this
    {
      ReplyState(isReply, messageHandle, interactionType, applicationId, token)
    }

    constructor(request: Interaction, exchange: Exchange, followId: Option<string>)
      ensures Valid() && this.request == request && this.exchange == exchange
      ensures State() == Initial(request, followId)
    {
      this.request := request;
      this.exchange := exchange;
      messageHandle := if followId.Some? then followId.value else Original;
      isReply := false;
      token := request.token;
      applicationId := request.applicationId;
      interactionType := request.interactionType;
    }

    /** `createInstance`: null for a ping, otherwise a fresh controller for the interaction. */
    static method CreateInstance(request: Interaction, exchange: Exchange) returns (r: Option<Reply>)
      ensures r.None? <==> InstanceFor(request).None?
      ensures r.Some? ==> fresh(r.value) && r.value.Valid() && r.value.exchange == exchange
      ensures r.Some? ==> r.value.request == request && Some(r.value.State()) == InstanceFor(request)
    {
      match request.interactionType
      case Ping =>
        r := None;
      case _ =>
        var c := new Reply(request, exchange, None);
        r := Some(c);
    }

    /** `appendEmpheral`: computes the payload and writes the ephemeral flag into the caller's object. */
    method AppendEphemeral(message: Argument) returns (data: Message)
      modifies Footprint(message)
      ensures data == MergeEphemeral(old(Snapshot(message)))
      ensures message.ObjectArg? ==> message.obj.Value() == data
    {
      match message
      case PlainArg(text) =>
        data := Message(Some(text), None, None, map[]);
      case ObjectArg(obj) =>
        if obj.ephemeral == Some(true) {
          obj.flags := Some(EphemeralFlag);
        }
        data := obj.Value();
    }

    method Get(delivered: bool) returns (outcome: Outcome)
      modifies exchange
      ensures exchange.log == old(exchange.log) + Step(State(), GetOp(delivered)).effects
      ensures outcome == Step(State(), GetOp(delivered)).outcome
    {
      exchange.log := exchange.log + [Rest(Verb.Get, MessageUrl(applicationId, token, messageHandle), None)];
      outcome := if delivered then Done else Rejected(NetworkFailure);
    }

    method Remove(delivered: bool) returns (outcome: Outcome)
      modifies exchange
      ensures exchange.log == old(exchange.log) + Step(State(), RemoveOp(delivered)).effects
      ensures outcome == Step(State(), RemoveOp(delivered)).outcome
    {
      exchange.log := exchange.log + [Rest(Delete, MessageUrl(applicationId, token, messageHandle), None)];
      outcome := if delivered then Done else Rejected(NetworkFailure);
    }

    /**
     * `reply`: the first call answers the HTTP response and sets the flag; later calls PATCH
     * the addressed message. A PATCH that fails with an HTTP error status is swallowed; one
     * that fails without a response makes the call reject.
     */
    method Reply(message: Argument, patch: PatchResult) returns (outcome: Outcome)
      modifies this, exchange, Footprint(message)
      ensures State() == Step(old(State()), ReplyOp(old(Snapshot(message)), patch)).state
      ensures exchange.log == old(exchange.log) + Step(old(State()), ReplyOp(old(Snapshot(message)), patch)).effects
      ensures outcome == Step(old(State()), ReplyOp(old(Snapshot(message)), patch)).outcome
      ensures message.ObjectArg? ==>
        message.obj.Value() == if old(isReply) then old(message.obj.Value()) else MergeEphemeral(old(Snapshot(message)))
    {
      if isReply {
        exchange.log := exchange.log + [Rest(Patch, MessageUrl(applicationId, token, messageHandle), Some(Snapshot(message)))];
        outcome := if patch == NoResponse then Rejected(NetworkFailure) else Done;
      } else {
        isReply := true;
        var data := AppendEphemeral(message);
        exchange.log := exchange.log + [Immediate(200, ChannelMessageWithSource, data)];
        outcome := Done;
      }
    }

    /** `differ`: the first call answers with a deferred response and sets the flag; later calls do nothing. */
    method Differ(ephemeral: Option<bool>)
      modifies this, exchange
      ensures State() == Step(old(State()), DifferOp(ephemeral)).state
      ensures exchange.log == old(exchange.log) + Step(old(State()), DifferOp(ephemeral)).effects
    {
      if !isReply {
        isReply := true;
        var flags := if ephemeral == Some(true) then EphemeralFlag else 0;
        exchange.log := exchange.log + [Immediate(200, DeferredChannelMessageWithSource, Message(None, Some(flags), None, map[]))];
      }
    }

    /** `auto`: answers with autocomplete choices, whatever the flag says. */
    method Auto(data: Message) returns (outcome: Outcome)
      modifies exchange
      ensures exchange.log == old(exchange.log) + Step(State(), AutoOp(data)).effects
      ensures outcome == Step(State(), AutoOp(data)).outcome
    {
      exchange.log := exchange.log + [Immediate(200, ApplicationCommandAutocompleteResult, data)];
      outcome := Done;
    }

    /** `model`: answers with a modal, unless the interaction is itself a modal submission. */
    method Model(data: Message) returns (outcome: Outcome)
      modifies exchange
      ensures exchange.log == old(exchange.log) + Step(State(), ModalOp(data)).effects
      ensures outcome == Step(State(), ModalOp(data)).outcome
    {
      if interactionType != ModalSubmit {
        exchange.log := exchange.log + [Immediate(200, Modal, data)];
        outcome := Done;
      } else {
        outcome := Rejected(Refused(ModalRefusal));
      }
    }

    /** `edit`: updates the component's message in the immediate response. */
    method Edit(data: Message) returns (outcome: Outcome)
      modifies exchange
      ensures exchange.log == old(exchange.log) + Step(State(), EditOp(data)).effects
      ensures outcome == Step(State(), EditOp(data)).outcome
    {
      if interactionType == MessageComponent {
        exchange.log := exchange.log + [Immediate(200, UpdateMessage, data)];
        outcome := Done;
      } else {
        outcome := Rejected(Refused(ComponentRefusal));
      }
    }

    /** `differEdit`: defers an update of the component's message in the immediate response. */
    method DifferEdit(data: Message) returns (outcome: Outcome)
      modifies exchange
      ensures exchange.log == old(exchange.log) + Step(State(), DifferEditOp(data)).effects
      ensures outcome == Step(State(), DifferEditOp(data)).outcome
    {
      if interactionType == MessageComponent {
        exchange.log := exchange.log + [Immediate(200, DeferredUpdateMessage, data)];
        outcome := Done;
      } else {
        outcome := Rejected(Refused(ComponentRefusal));
      }
    }

    /**
     * `follow`: POSTs a new message and, when the POST yields its id, returns a new controller
     * for the same interaction and exchange addressing that message. This controller is unchanged.
     */
    method Follow(message: Argument, created: Option<string>) returns (child: Option<Reply>)
      requires Valid()
      modifies exchange, Footprint(message)
      ensures exchange.log == old(exchange.log) + Step(State(), FollowOp(old(Snapshot(message)), created)).effects
      ensures child.Some? <==> Step(State(), FollowOp(old(Snapshot(message)), created)).outcome.Created?
      ensures child.Some? ==> fresh(child.value) && child.value.Valid() && child.value.exchange == exchange
      ensures child.Some? ==> child.value.State() == Step(State(), FollowOp(old(Snapshot(message)), created)).outcome.child
      ensures message.ObjectArg? ==> message.obj.Value() == MergeEphemeral(old(Snapshot(message)))
    {
      var data := AppendEphemeral(message);
      exchange.log := exchange.log + [Rest(Post, FollowUrl(applicationId, token), Some(Structured(data)))];
      if created.Some? {
        var c := new Reply(request, exchange, created);
        child := Some(c);
      } else {
        child := None;
      }
    }
  }

  /**
   * A command handler that replies twice and then follows up: the first reply answers the
   * HTTP response with the merged payload, the second PATCHes the original message, and the
   * follow-up controller's GET addresses the new message.
   */
  method ReplyTwiceThenFollow(exchange: Exchange, token: string, app: string, id: string)
    modifies exchange
  {
    var request := Interaction(ApplicationCommand, token, app);
    var created := Reply.CreateInstance(request, exchange);
    assert created.Some?;
    var c := created.value;
    var before := exchange.log;
    var hello := new MessageObject(Message(Some("hi"), None, Some(true), map[]));
    var _ := c.Reply(ObjectArg(hello), Patched);
    assert exchange.log == before + [Immediate(200, ChannelMessageWithSource, Message(Some("hi"), Some(64), Some(true), map[]))];
    assert hello.flags == Some(64);
    var _ := c.Reply(PlainArg("edited"), ErrorStatus);
    assert exchange.log[|before| + 1] == Rest(Patch, MessageUrl(app, token, Original), Some(Plain("edited")));
    var child := c.Follow(PlainArg("more"), Some(id));
    assert child.Some?;
    var f := child.value;
    var _ := f.Get(true);
    assert exchange.log[|exchange.log| - 1] == Rest(Verb.Get, MessageUrl(app, token, id), None);
    assert c.messageHandle == Original && c.isReply;
  }
}
