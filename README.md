# slack-mcp: the tool-to-Slack request layer, in Dafny

This project models the core of `slack-mcp`, an MCP server that exposes Slack Web API
operations as tools. The core is the layer that turns one typed tool call into one
outbound Slack call and then decides whether that call succeeded:

- `types.dfy` (module `Types`): the parameter record of every tool, with required
  fields as plain values and optional ones as `Option`s; `limit` is a `u32`.
- `payloads.dfy` (module `Payloads`): for each of the 19 handlers, the Slack method it
  calls and the JSON body it builds. The handlers' runs of
  `if let Some(x) = params.f { body["f"] = x }` are one fold, `WithOptional`, whose lemma
  says that each optional key is present exactly when its parameter is given, with that
  value, and that no other key appears.
- `slack_client.dfy` (module `Client`): `SlackClient::post`, which builds the URL, sends
  the request and classifies the outcome as a transport error, an undecodable body, an
  HTTP error, an API error (when `ok` is not literally `true`), or the body unchanged.
  The HTTP round trip is a function `network` from (request number, request) to an
  `Exchange`. The client records every request it sends, so calls can be counted.
- `tools.dfy` (module `Tools`): channel resolution with the default-channel fallback,
  error mapping (`-32602` for a missing channel, `-32603` for any client failure), the
  wrapping of a response as the tool's single text item, and the class `SlackTools`,
  whose `Invoke` makes zero client calls on a validation failure and exactly one otherwise.
- `json.dfy`, `wrappers.dfy`: the JSON value type and `Option`/`Result`.

The code has 19 tools, `delete_list_item` and `delete_list_items` among them.
`resolve_channel` does not re-check that the configured default is non-empty; the
startup code (src/main.rs:24-26) drops an empty `SLACK_DEFAULT_CHANNEL`, so `SlackTools`
carries that fact as its invariant `Valid()`.

## Model

| member | source | states |
|---|---|---|
| `Json.Get` | src/slack_client.rs:40-42 | `Value::get`: a member of an object when present; None for a missing key or a non-object |
| `Client.Url` | src/slack_client.rs:5-23 | the endpoint is `https://slack.com/api`, a slash, then the method name |
| `Client.UrlInjective` | src/slack_client.rs:23 | distinct method names are posted to distinct URLs |
| `Client.IsSuccessStatus` | src/slack_client.rs:36 | a status counts as success exactly in the 2xx range |
| `Client.OkIsTrue` | src/slack_client.rs:40 | the body's `ok` member is exactly the JSON literal `true` |
| `Client.ApiErrorCode` | src/slack_client.rs:41-44 | the error string is the body's `error` member when it is a string, otherwise "unknown" |
| `Client.Classify` | src/slack_client.rs:31-48 | send failure, then undecodable body (with the decoder's cause), then non-2xx status, then `ok` not literally `true` are errors in that order; on success the body is returned unchanged |
| `Client.StatusCheckedBeforeOk` | src/slack_client.rs:36-40 | a non-2xx status is an HTTP error even when the body says `ok: true` |
| `Client.OkMustBeLiteralTrue` | src/slack_client.rs:40 | a missing `ok`, `ok: false` or the string "true" gives an API error |
| `Client.ApiRefusalNamesMethodAndCode` | src/slack_client.rs:40-45 | an `ok: false` body yields an API error carrying the method, Slack's error code and the full body |
| `Client.TokenFromEnv` | src/slack_client.rs:13-15 | construction succeeds exactly when the token is set, and keeps it as the credential |
| `Client.FromEnv` | src/slack_client.rs:13-20 | a missing token fails; otherwise a fresh client with that token and no requests sent |
| `Client.SlackClient.constructor` | src/slack_client.rs:16-19 | the client keeps the given credential, and has sent no request yet |
| `Client.SlackClient.RequestFor` | src/slack_client.rs:23-29 | the request carries the method's URL, `Bearer <token>` and the body |
| `Client.SlackClient.Post` | src/slack_client.rs:22-49 | exactly one request is recorded, and the result is the classification of its outcome |
| `Payloads.WithOptional` | src/tools.rs:144-153 | the run of `if let Some` inserts, applied in order; it never drops a key already in the body |
| `Payloads.Markdown` | src/tools.rs:89-92 | a canvas document is exactly `{type: "markdown", markdown}` |
| `Payloads.WithOptionalFields` | src/tools.rs:144-153 | after the conditional inserts, required keys keep their values, an optional key is present iff its value is given and then holds it, and no other key appears |
| `Payloads.PostMessageCall` | src/tools.rs:59-63 | `chat.postMessage` with exactly `channel` and `text` |
| `Payloads.ReplyToMessageCall` | src/tools.rs:72-80 | `channel`, `text` and `thread_ts` are always sent; `reply_broadcast` is present, as `true`, iff the parameter is `Some(true)` |
| `Payloads.CreateCanvasCall` | src/tools.rs:89-114 | a non-empty `channel_id` selects `conversations.canvases.create` with `{channel_id, document_content}`, otherwise `canvases.create` with `{title, document_content}`; the content is always markdown-typed |
| `Payloads.UpdateCanvasCall` | src/tools.rs:125-135 | `canvases.edit` with the canvas id and one `replace` change carrying the markdown |
| `Payloads.ListChannelsCall` | src/tools.rs:144-154 | `conversations.list`; `limit`, `cursor`, `types` each present iff given, and no other key |
| `Payloads.ListMessagesCall` | src/tools.rs:163-172 | `conversations.history` with `channel`; `limit`, `cursor` present iff given |
| `Payloads.GetThreadRepliesCall` | src/tools.rs:183-195 | `conversations.replies` with `channel` and `ts`; `limit`, `cursor` present iff given |
| `Payloads.AddReactionCall` | src/tools.rs:206-211 | `reactions.add` with exactly `channel`, `timestamp` and `name` |
| `Payloads.GetUsersCall` | src/tools.rs:220-227 | `users.list`; `limit`, `cursor` present iff given, and no other key |
| `Payloads.EmptyListingsSendEmptyBody` | src/tools.rs:144 | with no parameters, `list_channels` and `get_users` send `{}` |
| `Payloads.CreateListCall` | src/tools.rs:238-248 | `lists.create` with `name` and `description` always; `todo_mode`, `schema` present iff given |
| `Payloads.UpdateListCall` | src/tools.rs:257-267 | `lists.update` with `id`; `name`, `description`, `todo_mode` present iff given |
| `Payloads.CreateListItemCall` | src/tools.rs:276-280 | `lists.items.create` with `list_id`; `initial_fields` passed through iff given |
| `Payloads.ListListItemsCall` | src/tools.rs:289-299 | `lists.items.list` with `list_id`; `limit`, `cursor`, `archived` present iff given |
| `Payloads.GetListItemCall` | src/tools.rs:308-312 | `lists.items.info` with exactly `list_id` and `id` |
| `Payloads.UpdateListItemCall` | src/tools.rs:321-325 | `lists.items.update` with exactly `list_id` and the raw `cells` |
| `Payloads.DeleteListItemCall` | src/tools.rs:334-338 | `lists.items.delete` with exactly `list_id` and `id` |
| `Payloads.DeleteListItemsCall` | src/tools.rs:347-351 | `lists.items.deleteMultiple` with exactly `list_id` and the raw `ids` |
| `Payloads.SetListAccessCall` | src/tools.rs:360-370 | `lists.access.set` with `list_id` and `access_level`; `channel_ids`, `user_ids` passed through iff given |
| `Payloads.DeleteListAccessCall` | src/tools.rs:379-386 | `lists.access.delete` with `list_id`; `channel_ids`, `user_ids` passed through iff given |
| `Tools.ResolveChannel` | src/tools.rs:29-40 | a non-empty explicit channel wins, else the default, else an invalid-parameters error, exactly when both are missing |
| `Tools.DefaultChannelFromEnv` | src/main.rs:24-26 | the configured default is never the empty string |
| `Tools.ResolvedChannelNonEmpty` | src/tools.rs:29-33 | with that guarantee, a resolved channel is never empty |
| `Tools.Err` | src/tools.rs:42-48 | every client failure becomes code -32603 carrying the failure |
| `Tools.Respond` | src/tools.rs:63-64 | success gives one text item holding the response data; failure gives `err` of it |
| `Tools.SlackMethod` | src/tools.rs:63-386 | the method table; only the two messaging tools share `chat.postMessage`, and `create_canvas` picks the channel-bound method iff `channel_id` is non-empty |
| `Tools.Plan` | src/tools.rs:54-386 | each handler up to its network call: the request it will post, or a validation error, which only `post_message` can return |
| `Tools.OnlyPostMessageValidates` | src/tools.rs:58 | only `post_message` can fail before the network, exactly when no channel resolves, with the invalid-parameters error |
| `Tools.PostMessageSendsResolvedChannel` | src/tools.rs:58-63 | `post_message` sends the resolved channel and the text, and nothing else |
| `Tools.PlanFollowsMethodTable` | src/tools.rs:63-386 | every tool's request goes to the Slack method of its table row |
| `Tools.RefusalReachesCaller` | src/tools.rs:63 | an `ok: false` answer reaches the caller as -32603 with the method and Slack's code |
| `Tools.SuccessIsVerbatim` | src/tools.rs:63-64 | a successful response is handed back exactly as it was decoded |
| `Tools.SlackTools.Valid` | src/main.rs:24-26 | the default channel is absent or non-empty |
| `Tools.SlackTools.constructor` | src/tools.rs:21-27 | the server keeps the client and the default channel, and starts valid |
| `Tools.SlackTools.Invoke` | src/tools.rs:54-65 | a validation failure leaves the client's request log unchanged; otherwise exactly one request, the planned one, is appended and its outcome wrapped |

## Left out

- The HTTP round trip (reqwest, TLS, the `Content-Type` header, timeouts): its outcome is the
  `network` function's value, and the request number makes any sequence of outcomes expressible.
- JSON decoding and encoding: an undecodable body is `Received(status, Failure(cause))`; the text of a
  result item (`data.to_string()`) is represented by the JSON value it serialises.
- Exact message texts of errors (`anyhow` formatting): errors are structured values carrying
  what the messages show (the transport or decoding cause, the status and body, or the method,
  Slack's code and the body).
- JSON numbers are integers: every number this layer builds is a `u32` limit; floats are not modelled.
- `async`, `Arc` and `Clone`: there is no shared mutable state between invocations.
- Framework code: rmcp's tool router (modelled by the `ToolCall` variant), `get_info` and its
  instructions text, and the schemas derived from the parameter records.
- The rest of the startup code: logging, the transport selection, the SSE listener and
  shutdown. Only its non-empty default channel is kept, as `DefaultChannelFromEnv` and `Valid()`.
- `std::env::var` failing on a value that is not valid Unicode: the token is modelled as present or absent.
- Limits stated only in parameter descriptions (maxima, "emoji without colons"): the code does not enforce them.
- The list-related parameter records: their field types are inferred from how tools.rs uses them: identifiers, names and `access_level` are strings, `todo_mode` and
  `archived` are booleans, and `description` of `create_list` is raw JSON, since it may be null.
