# Social OS Telegram bot: conversation state machine

A Dafny model of the per-chat conversation logic of the Social OS Telegram
bot (`bot.js`). The bot turns chat messages into calls to a remote content
service: it can generate a LinkedIn post from a raw thought, refine the last
post, or capture a thought to the user's vault. It keeps a small state per
chat: the current mode (`idle`, `capture`, `generate`, `refine`) and the
last post.

The model has these parts:

- **Js** (`js.dfy`): the JavaScript behaviour the code relies on.
  - Truthiness: a missing value and `""` are falsy.
  - `a || b` and `a ?? d`.
  - `String.prototype.trim`, with the exact ECMAScript whitespace and
    line-terminator set.
  - `startsWith`.
  - The search an unanchored literal regex performs: the literal occurs
    somewhere in the text.
- **Service** (`service.dfy`): the requests sent to the service, and the
  fields of its decoded answers that the bot reads. A call's outcome is
  either `Returned(data)` or `Threw`. A service-level error is an answer
  with a truthy `error` field, which is exactly what `if (data.error)` tests.
- **Formatting** (`formatting.dfy`): the numbered vault listing (preview of
  80 characters plus `...`, one-based numbers, shaped marks, lines joined by
  blank lines) and the `used`/`limit`/`remaining` fields of the status
  report.
- **Chat** (`chat.dfy`): the replies, written as abstract constructors. It
  also holds the routing of one inbound message:
  - the command handlers whose regex matches anywhere in the text;
  - the test by which the main handler ignores a message.
- **State** (`state.dfy`): the chat state, its default, and the shallow
  merge `{ ...getState(id), ...update }`.
- **Handlers** (`handlers.dfy`): each handler as a run-to-completion
  transition. A transition maps the chat state, the event and the service
  outcome to a new state, whether the chat's entry was written, the remote
  call made, and the replies. This module also holds lemmas over runs of
  events.
- **Bot** (`bot.dfy`): a class holding the `userState` map.
  - Its methods follow the source step by step: `getState`, then
    `setState({mode: "idle"})` before the call, then
    `setState({lastPost})` after it.
  - Each method is proved to produce exactly what its transition in
    `Handlers` describes.

The remote service, the Telegram transport and time are not modelled:

- A call's outcome is a parameter of the handler that makes it.
- Replies are values returned by the handler, not messages sent.

## Notes on the code's behaviour

- The modes are the four strings `idle`, `capture`, `generate` and `refine`.
  A message in `generate` mode is handled like one in `idle` mode.
- Commands do not always take precedence over the text branch.
  - The command regexes are unanchored, so `"note /capture"` fires the
    `/capture` handler and also reaches the text branch
    (`Chat.CommandInsideTextFallsThrough`). In idle or generate mode it is
    generated from as text. In capture mode it is captured whole
    (`Handlers.CommandInsideTextIsCaptured`). In refine mode it is sent as
    the refine instruction.
  - `" /generate"` passes the "starts with /" test and is trimmed to
    `"/generate"` before it is sent to the service
    (`Chat.LeadingSpaceCommandFallsThrough`).
- An empty text is ignored (`!msg.text`). It is not treated as content.

## Model

| member | source | states |
|---|---|---|
| Js.Or | bot.js:157 | the JavaScript "or" of post and content is `post` when `post` is truthy and `content` otherwise; it is truthy iff one of them is |
| Js.Coalesce | bot.js:70 | `used ?? 0` replaces only a missing value |
| Js.TrimStart | bot.js:131 | the result is a suffix of the input that does not start with whitespace, and only whitespace was dropped |
| Js.TrimEnd | bot.js:131 | the result is a prefix of the input that does not end with whitespace, and only whitespace was dropped |
| Js.Trim | bot.js:131 | the trimmed text is the infix of the input between a whitespace prefix and a whitespace suffix, and neither starts nor ends with whitespace |
| Js.StartsWith | bot.js:129 | `startsWith` holds iff the text is at least as long as the prefix and agrees with it position by position |
| Js.TrimPadded | bot.js:131 | trimming whitespace padding around a text with non-whitespace ends gives back that text |
| Service.Reported | bot.js:69 | `if (data.error)` holds iff the error text is present and non-empty |
| Js.Contains | bot.js:100 | an unanchored literal regex matches iff the literal occurs at some position of the text |
| Chat.Matching | bot.js:51-114 | a command is selected iff it is in the list and its literal occurs in the text; a list in registration order gives a result in registration order, with no command twice |
| Chat.RankIsIndex | bot.js:51-114 | a command's rank is its index in the registered list, which is in strictly increasing rank order |
| Chat.Fired | bot.js:51-114 | a command's handler fires iff the message has text containing that command's literal; the fired handlers are in registration order, each at most once |
| Chat.Skipped | bot.js:129 | the main handler ignores a message iff its text is absent, empty, or its first raw character is "/" |
| Chat.CommandPrefixIsOnlyCommand | bot.js:129 | a text starting with a command fires that command and is ignored by the main handler |
| Chat.CommandInsideTextFallsThrough | bot.js:100-129 | a command after other text fires its handler and is not ignored by the main handler |
| Chat.LeadingSpaceCommandFallsThrough | bot.js:107-131 | a command after a space fires its handler, passes the "/" test, and is trimmed to the bare command |
| State.Merge | bot.js:17-19 | fields named in the update take its values; unnamed fields keep their prior values |
| State.Combine | bot.js:18 | spreading two updates: the later one overrides the fields it names |
| State.MergeTwice | bot.js:17-19 | two writes in a row equal one write of the combined update |
| State.MergeDisjointCommutes | bot.js:17-19 | writes of different fields commute |
| State.ModeThenPost | bot.js:173-179 | writing the mode and then the last post sets both, independent of the prior state |
| State.ModeNamesDistinct | bot.js:102-120 | the four mode strings are pairwise distinct |
| Handlers.OnCapture | bot.js:100-104 | mode becomes capture, last post kept, no call, capture prompt |
| Handlers.OnGenerate | bot.js:107-111 | mode becomes generate, last post kept, no call, generate prompt |
| Handlers.OnRefine | bot.js:114-125 | with a falsy last post: no write, no call, "nothing to refine"; with a truthy one: mode refine; last post unchanged in both cases |
| Handlers.OnMessage | bot.js:128-190 | an absent, empty or "/"-led text changes nothing; otherwise one call picked by mode (capture, refine with the prior last post, generate with length "optimal"); mode becomes idle on every outcome; last post is set only on success (post, else content, for refine, `post` for generate); a reported error is replied verbatim |
| Handlers.OnStatus | bot.js:64-80 | the call is `get_status`; progress reply, then the reported error, the retry message on an exception, or the report built from the answer |
| Handlers.OnVault | bot.js:83-97 | the call is `get_vault` with limit 5; progress reply, then a reported error first, "vault empty" iff the capture list is missing or empty, otherwise the numbered listing |
| Handlers.ApplyKeepsRefineReady | bot.js:114-120 | every event keeps "refine mode implies a truthy last post" |
| Handlers.FinalRefineReady | bot.js:114-120 | any run of events from a refine-ready state stays refine-ready |
| Handlers.RefineCallsCarryPost | bot.js:151-155 | every refine call in a run from a refine-ready state carries a truthy post |
| Handlers.NoRefineCallWithoutPost | bot.js:114-120 | from a state with no post and not in refine mode, and with no message that succeeds with a truthy post, a run makes no refine call |
| Handlers.GenerateThenRefine | bot.js:173-179 | generate, `/refine`, then text: the calls are generate then refine with the generated post; mode ends idle; last post follows the refine outcome |
| Handlers.CommandInCaptureMode | bot.js:129-136 | a "/"-led command in capture mode triggers its own handler and no capture |
| Handlers.CommandInsideTextIsCaptured | bot.js:135-139 | in capture mode, text containing a command is captured whole, trimmed |
| Formatting.NatToString | bot.js:91 | the line number prints as at least one digit with no leading zero |
| Formatting.DecimalRoundTrip | bot.js:91 | reading back the printed number gives the number |
| Formatting.Preview | bot.js:91 | a text of at most 80 characters is shown whole; a longer one as its first 80 characters followed by "..." |
| Formatting.VaultLineShape | bot.js:91 | line k begins with digits that read back as k+1, then ". ", the preview of the capture, a space, and ends with its one-character shaped mark |
| Formatting.VaultLines | bot.js:90-91 | one line per capture, in order, line k numbered from index k |
| Formatting.Join | bot.js:92 | joining starts with the first part; one part is itself; no parts give "" |
| Formatting.OffsetStep | bot.js:92 | the offset of part k is the sum, over the earlier parts, of their length plus one separator |
| Formatting.JoinLayout | bot.js:92 | every part occurs at its offset, the separator follows every part but the last, and the join ends with the last part |
| Formatting.VaultList | bot.js:90-92 | no captures give ""; otherwise line k occurs at its offset, a blank line follows every line but the last, and the listing ends with the last line |
| Formatting.VaultLineListed | bot.js:90-92 | line k occurs in the listing at its offset, followed by a blank line unless it is the last; the listing starts with line 0 |
| Formatting.StatusOf | bot.js:70-72 | `used` is the reported value, or 0 when missing; limit and remaining are "Unlimited" iff the flag is set, otherwise the reported values |
| Bot.Conversations.constructor | bot.js:11 | the table starts empty |
| Bot.Conversations.GetState | bot.js:13-15 | a chat's entry, or idle with no last post when it has none; reading creates no entry |
| Bot.Conversations.SetState | bot.js:17-19 | the chat's entry becomes the merge of its current or default state with the update; other chats are unchanged |
| Bot.Conversations.OnCapture | bot.js:100-104 | the table and replies are those of `Handlers.OnCapture` |
| Bot.Conversations.OnGenerate | bot.js:107-111 | the table and replies are those of `Handlers.OnGenerate` |
| Bot.Conversations.OnRefine | bot.js:114-125 | the table and replies are those of `Handlers.OnRefine`; with no post the table is untouched |
| Bot.Conversations.OnMessage | bot.js:128-190 | the call, replies and table are those of `Handlers.OnMessage` on the state read first |
| Bot.Isolation | bot.js:17-19 | a message to one chat leaves every other chat's state unchanged |
| Bot.GenerateThenRefine | bot.js:151-179 | through the class methods: after a successful generation and `/refine`, the refine call sends the generated post |

## Left out

- Telegram transport (creating the bot, polling, `sendMessage`, Markdown
  parse mode): I/O. Replies are abstract values returned by each handler,
  and the literal help and welcome texts are not modelled.
- The `/start` and `/help` handlers: they only send fixed texts and touch
  no state.
- `callAPI`, `node-fetch` and JSON decoding: a network call. Its result is
  a handler parameter. Only the fields the bot reads are modelled, and an
  answer is always an object (a `null` JSON body, which would make
  `data.error` throw, is not modelled). The fields `error`, `post` and
  `content` are taken to be strings or missing. A non-string value behaves
  differently in the source and is not modelled: `error: true` replies
  "Error: true", and `post: 0` falls through to `content`.
- The delayed follow-up messages sent through `setTimeout` after a refine
  or a generation: they depend on wall-clock time and change no state. The
  `voice_dna_applied` field is read only by one of them, so it is not
  modelled.
- Async interleaving. This covers the main handler's suspension between
  `setState({mode: "idle"})` and the awaited call, and the order in which
  the transport runs the main handler and the matching command handlers
  for one message. Each handler is modelled as running to completion. So
  `Handlers.FinalRefineReady` holds only under that assumption. In the
  source, a `/refine` matched inside a text sent in refine mode can enter
  refine mode while the pending refine call later writes a falsy post.
- Credentials and environment variables: configuration only.
- Formatting.Preview: counts Unicode scalar values, whereas JavaScript's
  `substring` counts UTF-16 code units. The two differ for characters
  outside the Basic Multilingual Plane.
- Formatting.StatusOf: the status numbers are integers. JSON numbers that
  are not integers, and the final Markdown text of the report, are not
  modelled. `undefined` is represented as a missing value.
- Handlers.OnVault: every capture has a string `raw_text`. A capture
  without one would make `map` throw, which the source reports as "could
  not reach".
