# fastify-discord: the reply controller and the signature gate

This project models the core of `fastify-discord`, a Fastify plugin that receives signed
interaction webhooks from Discord (slash commands, buttons and menus, autocomplete requests,
modal submissions) and answers them. The model has two parts.

- **The signature gate** (`verifyDiscordKey`). It answers pings with PONG, lets
  correctly signed interactions through to their handler, and answers everything else with
  401 `Bad request signature`. The result of the Ed25519 check is an input.
- **The reply controller** (`Reply`). There is one per interaction. Its one-shot `isReply`
  flag records whether the single immediate HTTP response has gone out. Each operation
  either sends that response, with a response type and data, or makes a REST call against
  `/webhooks/{application id}/{token}[/messages/{handle}]`. The handle is `@original` or
  the id of a follow-up message.

Modules:

- `Interaction` (interaction.dfy) holds the interaction type and the response types. It
  also holds message objects, the effects an interaction produces, and `MergeEphemeral`.
  `MergeEphemeral` is the payload rewrite: text becomes `{content}`, and an `ephemeral`
  object gets `flags: 64`.
- `Webhook` (webhook.dfy) forms the endpoint URLs and holds a parser that inverts message URLs.
- `ReplySpec` (reply_spec.dfy) is the controller as a state machine over values. `Step`
  gives each operation's new state, its effects and how its promise settles. `Run` chains
  steps. The lemmas state what the controller promises over single steps and whole runs.
- `Controller` (reply.dfy) is the controller as an object.
  - Class `Reply` has the source's fields.
  - Class `Exchange` stands for the request/response pair and the network. Its ghost
    `log` records every immediate response and REST call. A controller and its follow-up
    controllers share one `Exchange`, as they share `req` and `res` in the source.
  - Class `MessageObject` is a caller's message object. The payload rewrite writes `flags`
    into it in place, as `Object.assign` does.
  - Every operation method of `Reply` is proved to do exactly what `ReplySpec.Step` says.
- `Gate` (gate.dfy) is the signature gate decision.

Where the behaviour could be read more than one way, the model follows the code:

- A ping that is POSTed gets PONG whatever the signature check says.
- Only POST passes the gate, not any write method.
- `auto`, `model`, `edit` and `differEdit` never consult the flag.
- The `ephemeral` field stays in the payload next to `flags`.
- A follow-up controller starts unsent. So its first `reply` or `differ` goes out as an
  immediate response on the interaction's original HTTP response. It does not edit the
  follow-up message. The lemma `FollowUpReplyIsImmediate` states this.
- `reply` and `follow` also accept plain text, as the payload rewrite does.

Results of the network are inputs to the operations:

- `delivered` says whether a GET or a DELETE succeeded.
- `created` is the id that the follow-up POST returned, or None when the POST failed.
- `patch` says how the PATCH of a `reply` on a sent controller ended: it succeeded, it
  failed with an HTTP error status (caught and logged, so `reply` still settles), or it
  failed without any response. In the last case the catch handler itself throws when it
  reads `e.response.data`, so `reply` rejects.

## Model

| member | source | states |
|---|---|---|
| `Interaction.MergeEphemeral` | src/index.ts:247-251 | the payload keeps the message's content (plain text becomes the content), is marked ephemeral exactly when an object asked to be, and then carries flags 64 |
| `Interaction.MergePlainIsContentOnly` | src/index.ts:247-251 | a plain-text message becomes a message whose only field is `content`, with no flags |
| `Interaction.MergeKeepsOtherFields` | src/index.ts:247-251 | the rewrite of a message object changes at most its `flags`; content, `ephemeral` and every other field are kept |
| `Interaction.MergeObjectCases` | src/index.ts:250 | an object with truthy `ephemeral` comes back with flags 64 in place of any earlier flags, every other field kept; any other object comes back unchanged |
| `Interaction.MergeFlagIff` | src/index.ts:247-251 | the payload carries flag 64 exactly when the object asked to be ephemeral or already had flags 64; plain text never does |
| `Interaction.MergeIdempotent` | src/index.ts:247-251 | rewriting an already rewritten payload changes nothing |
| `Webhook.ParseMessageUrlRoundTrip` | src/index.ts:228-236 | the message URL `/webhooks/{app}/{token}/messages/{handle}` can be parsed back into its application id, token and handle when the id and token hold no '/' |
| `Webhook.MessageUrlInjective` | src/index.ts:228-236 | for one application and token, whatever they hold, two message URLs are equal if and only if their handles are |
| `Webhook.FollowUrl` | src/index.ts:350-354 | the follow-up URL starts with `/webhooks/`, ends with the token, and is as long as `/webhooks/{app}/{token}` |
| `Webhook.MessageUrl` | src/index.ts:228-236 | the message URL strictly extends the follow-up URL by `/messages/` and ends with the handle |
| `ReplySpec.InstanceFor` | src/index.ts:206-222 | `createInstance` gives no controller exactly for a ping; otherwise an unsent controller on `@original` with the body's type, token and application id |
| `ReplySpec.Initial` | src/index.ts:172-189 | a new controller is unsent; it addresses the follow-up id when one is given and `@original` otherwise; its type, token and application id are the body's |
| `ReplySpec.DeferredData` | src/index.ts:289 | the deferred response data is only `flags`: 64 exactly when `ephemeral` is true, and 0 otherwise |
| `ReplySpec.Step` | src/index.ts:256-354 | only `reply` and `differ` change a controller, and only by setting its flag; each operation makes at most one effect, and none only for `differ` on a sent controller or a type-gated refusal; only a successful `follow` yields a new controller, on the id the POST returned |
| `ReplySpec.ReplyStepSpec` | src/index.ts:256-278 | `reply` on an unsent controller sends exactly one immediate 200 CHANNEL_MESSAGE_WITH_SOURCE with the merged payload, sets the flag and settles; on a sent controller it sends nothing immediately, PATCHes `/messages/{handle}` with the message unmodified, and rejects only when the PATCH got no response |
| `ReplySpec.DifferStepSpec` | src/index.ts:283-290 | `differ` on an unsent controller sends exactly one immediate 200 DEFERRED_CHANNEL_MESSAGE_WITH_SOURCE with the deferred flags, sets the flag and settles |
| `ReplySpec.DifferOnSentIsNoOp` | src/index.ts:283-292 | `differ` on a sent controller makes no send, no REST call and no state change |
| `ReplySpec.UnguardedIgnoresFlag` | src/index.ts:298-343 | `auto`, `model`, `edit` and `differEdit` leave the state unchanged, and their effects and outcome do not depend on the flag |
| `ReplySpec.ModalGate` | src/index.ts:309-317 | `model` sends MODAL if and only if the interaction is not a modal submission; otherwise it sends nothing and rejects with the modal-on-modal message |
| `ReplySpec.ComponentGate` | src/index.ts:323-343 | `edit` and `differEdit` send UPDATE_MESSAGE and DEFERRED_UPDATE_MESSAGE and settle if and only if the interaction is a message-component interaction; otherwise they send nothing and reject with the component-only message |
| `ReplySpec.FollowStepSpec` | src/index.ts:350-354 | `follow` POSTs the merged payload to `/webhooks/{app}/{token}` and yields an unsent controller on the returned id with the same token, application id and type; the original controller is unchanged |
| `ReplySpec.FollowUpAddressesNewMessage` | src/index.ts:228-236 | a follow-up controller's `get` and `remove` target `/messages/{id}`, which equals the original's address exactly when the id equals the original's handle |
| `ReplySpec.FollowUpReplyIsImmediate` | src/index.ts:172-180 | because a follow-up controller starts unsent on the same response, a `reply` on it after the original replied makes two immediate responses for one interaction |
| `ReplySpec.RunKeepsAddress` | src/index.ts:256-354 | no sequence of operations changes the addressed handle, the interaction type, the application id or the token |
| `ReplySpec.RunFlag` | src/index.ts:256-292 | after any run, the flag is set exactly when it started set or some `reply` or `differ` ran: it never goes back to false |
| `ReplySpec.GuardedSendIsOneShot` | src/index.ts:256-292 | over any run, `reply` and `differ` together send exactly one immediate response if the run took the controller from unsent to sent, and none otherwise |
| `ReplySpec.GuardedRunAnswersAtMostOnce` | src/index.ts:228-292 | a run that uses no `auto`, `model`, `edit` or `differEdit` sends at most one immediate response, and none from a sent controller |
| `ReplySpec.LaterReplyPatches` | src/index.ts:256-270 | once a `reply` or `differ` has run, every later `reply` is a PATCH of the addressed message with the message as given, changes nothing, and rejects only when the PATCH got no response |
| `ReplySpec.AutoAfterReplySendsTwice` | src/index.ts:298-303 | `auto` after a `reply` on an unsent controller sends a second immediate response |
| `Controller.Reply.constructor` | src/index.ts:167-190 | a new controller is unsent, addresses the follow-up id when one is given and `@original` otherwise, and takes token, application id and type from the interaction |
| `Controller.Reply.CreateInstance` | src/index.ts:206-222 | null exactly for a ping; otherwise a fresh controller in the state `InstanceFor` gives |
| `Controller.Reply.AppendEphemeral` | src/index.ts:247-251 | returns the merged payload and writes it into the caller's message object in place |
| `Controller.Reply.Get` | src/index.ts:228-232 | logs a GET of the addressed message; rejects when the call fails |
| `Controller.Reply.Remove` | src/index.ts:233-237 | logs a DELETE of the addressed message; rejects when the call fails |
| `Controller.Reply.Reply` | src/index.ts:256-278 | new state, logged effect and outcome are those of `Step` for `reply`; the caller's object gets the merged flags only on the immediate path |
| `Controller.Reply.Differ` | src/index.ts:283-292 | new state and logged effect are those of `Step` for `differ` |
| `Controller.Reply.Auto` | src/index.ts:298-303 | logs the autocomplete response whatever the flag |
| `Controller.Reply.Model` | src/index.ts:309-317 | logs the modal response or rejects, as `Step` says |
| `Controller.Reply.Edit` | src/index.ts:323-331 | logs the update response or rejects, as `Step` says |
| `Controller.Reply.DifferEdit` | src/index.ts:336-343 | logs the deferred update response or rejects, as `Step` says |
| `Controller.Reply.Follow` | src/index.ts:350-354 | logs the POST and, when it yields an id, returns a fresh controller on the same exchange in the follow-up state `Step` gives; this controller is unchanged |
| `Gate.VerifyDiscordKey` | src/index.ts:390-407 | a request proceeds exactly when it is a POST of a non-ping body with a valid signature; a POSTed ping gets 200 PONG whatever the signature; every other request, non-POST or unsigned non-ping POST, gets 401 `Bad request signature` |
| `Gate.SignatureDecidesExactlyNonPingPosts` | src/index.ts:391-406 | the signature changes the outcome exactly for POSTed interactions other than pings |
| `Gate.ProceedingRequestHasController` | src/index.ts:390-407 | every request the gate lets through gets a controller from `createInstance` |

## Left out

- The axios instance and its logging interceptors (src/index.ts:124-147), and every
  `console` call. These are I/O and diagnostics. REST calls appear only as entries in the
  effect log.
- The base URL `https://discord.com/api` is left out. URLs are modelled relative to it.
- `verifyKey` and the numeric response-type codes come from `./interaction`, which is not
  part of this model. Signature validity is a boolean input. Response types are an
  enumeration.
- The plugin registration, `fastify-raw-body`, the `decorateKey`/`decorateReply` names and
  the header lookup with its lower/upper-case fallback are framework plumbing and are left
  out. So is the `rawBody || JSON.stringify(body)` choice of what gets verified.
- Promises are modelled as steps that complete in sequence. An operation's result is
  `Done`, a new controller, or a rejection. The Fastify reply object that `res.send`
  resolves to is not modelled.
- The message that `get` fetches comes from the network and is not modelled. Only the call
  and its success or failure are.
- What Fastify does with a second send on an already answered response is not modelled.
  The model records the send in the log.
- The copying of `data` fields onto the controller (src/index.ts:192-197) is left out. So
  are the `id` and `message` fields, the `application_id` getter, `Symbol.iterator` and
  the type aliases. None of these affects behaviour.
- `token`, `_application_id` and `interaction_type` are public fields in the source, but
  nothing in the core reassigns them. The model makes them constants, so reassignment by
  outside code is not modelled.
- Interaction bodies whose `type` is not one of the five interaction types are not
  modelled. The TypeScript type of the body excludes them.
- Message fields other than `content`, `flags` and `ephemeral` are opaque strings.
- src/test.ts only registers the plugin and holds commented-out code. It has no logic.
