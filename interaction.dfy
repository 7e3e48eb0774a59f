/**
 * The values that cross the boundary of the interaction adapter: the inbound interaction,
 * the response-type codes of the one immediate HTTP response, outbound messages and the
 * effects (immediate sends and REST calls) an interaction produces.
 */
module Interaction {
  import opened Wrappers

  /** The `type` of an inbound interaction body. */
  datatype InteractionType =
    | Ping
    | ApplicationCommand
    | MessageComponent
    | ApplicationCommandAutocomplete
    | ModalSubmit

  /** The `type` tag of the immediate HTTP response; its numeric codes are not part of this model. */
  datatype ResponseType =
    | Pong
    | ChannelMessageWithSource
    | DeferredChannelMessageWithSource
    | DeferredUpdateMessage
    | UpdateMessage
    | ApplicationCommandAutocompleteResult
    | Modal

  /** The fields of an inbound interaction body that the reply controller keeps. */
  datatype Interaction = Interaction(interactionType: InteractionType, token: string, applicationId: string)

  /** The flag bit that makes a message visible only to the invoking user. */
  const EphemeralFlag: int := 64

  /**
   * A JSON message object: `content`, `flags` and the local `ephemeral` option are
   * explicit, every other field (embeds, components, choices, custom_id, ...) is kept
   * opaque in `others`, keyed by field name.
   */
  datatype Message = Message(
    content: Option<string>,
    flags: Option<int>,
    ephemeral: Option<bool>,
    others: map<string, string>)

  /** What a caller may pass as a message: plain text or a message object. */
  datatype Outbound = Plain(text: string) | Structured(message: Message)

  /** `ephemeral` is an optional boolean; only `true` is truthy. */
  predicate RequestsEphemeral(m: Message) {
    m.ephemeral == Some(true)
  }

  /**
   * The payload rewrite applied before a new message is sent: plain text becomes a
   * message with only `content`; an object that asks to be ephemeral gets `flags` 64,
   * overwriting any earlier flags; any other object is sent as it is.
   */
  function MergeEphemeral(o: Outbound): (r: Message)
    ensures r.content == (if o.Plain? then Some(o.text) else o.message.content)
    ensures RequestsEphemeral(r) <==> o.Structured? && RequestsEphemeral(o.message)
    ensures RequestsEphemeral(r) ==> r.flags == Some(EphemeralFlag)
  {
    match o
    case Plain(text) => Message(Some(text), None, None, map[])
    case Structured(m) => if RequestsEphemeral(m) then m.(flags := Some(EphemeralFlag)) else m
  }

  /** Plain text never becomes ephemeral: it is carried as `content` alone. */
  lemma MergePlainIsContentOnly(text: string)
    ensures MergeEphemeral(Plain(text)).content == Some(text)
    ensures MergeEphemeral(Plain(text)).flags == None
    ensures MergeEphemeral(Plain(text)).ephemeral == None && MergeEphemeral(Plain(text)).others == map[]
  {
  }

  /** The merge changes at most the `flags` field of a message object. */
  lemma MergeKeepsOtherFields(m: Message)
    ensures MergeEphemeral(Structured(m)) == m.(flags := MergeEphemeral(Structured(m)).flags)
  {
  }

  /**
   * An object that asks to be ephemeral comes back with flags 64 in place of any earlier
   * flags; any other object comes back unchanged.
   */
  lemma MergeObjectCases(m: Message)
    ensures RequestsEphemeral(m) ==> MergeEphemeral(Structured(m)) == m.(flags := Some(EphemeralFlag))
    ensures !RequestsEphemeral(m) ==> MergeEphemeral(Structured(m)) == m
  {
  }

  /** The merged payload carries the ephemeral bit exactly when it was asked for or already present. */
  lemma MergeFlagIff(o: Outbound)
    ensures MergeEphemeral(o).flags == Some(EphemeralFlag)
        <==> o.Structured? && (RequestsEphemeral(o.message) || o.message.flags == Some(EphemeralFlag))
  {
  }

  /** Merging a payload that was already merged changes nothing. */
  lemma MergeIdempotent(o: Outbound)
    ensures MergeEphemeral(Structured(MergeEphemeral(o))) == MergeEphemeral(o)
  {
  }

  /** HTTP verbs of the REST calls against the webhook message endpoint. */
  datatype Verb = Get | Post | Patch | Delete

  /**
   * One observable effect of an interaction: the immediate HTTP response (status,
   * response type, data), or a REST call (verb, URL relative to the API base, body).
   */
  datatype Effect =
    | Immediate(status: int, responseType: ResponseType, data: Message)
    | Rest(verb: Verb, url: string, body: Option<Outbound>)

  /** The number of immediate responses in `effects` whose type lies in `kinds`. */
  function CountSends(effects: seq<Effect>, kinds: set<ResponseType>): nat {
    if effects == [] then 0
    else (if effects[0].Immediate? && effects[0].responseType in kinds then 1 else 0) + CountSends(effects[1..], kinds)
  }

  lemma {:induction false} CountSendsAppend(a: seq<Effect>, b: seq<Effect>, kinds: set<ResponseType>)
    ensures CountSends(a + b, kinds) == CountSends(a, kinds) + CountSends(b, kinds)
  {
    if a == [] {
      assert a + b == b;
    } else {
      assert (a + b)[1..] == a[1..] + b;
      CountSendsAppend(a[1..], b, kinds);
    }
  }

  /** Every response type: counting over this set counts every immediate response. */
  const AllResponseTypes: set<ResponseType> := {
    Pong, ChannelMessageWithSource, DeferredChannelMessageWithSource, DeferredUpdateMessage,
    UpdateMessage, ApplicationCommandAutocompleteResult, Modal}
}
