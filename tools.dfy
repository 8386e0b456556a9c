/**
 * The tool dispatcher: for each tool, validate its parameters, build the one
 * request it sends, post it through the client, and wrap the outcome as the
 * tool's result or error.
 */
module Tools {
  import opened Wrappers
  import opened Json
  import opened Types
  import opened Client
  import opened Payloads

  /** rmcp's `ErrorCode::INVALID_PARAMS`, the JSON-RPC code for bad parameters. */
  const InvalidParams: int := -32602

  /** The code every failure of the client is reported with. */
  const InternalError: int := -32603

  /** What an error's message says: a missing channel, or the client's failure. */
  datatype ErrorMessage = ChannelRequired | ClientFailure(cause: ClientError)

  datatype ErrorData = ErrorData(code: int, message: ErrorMessage)

  /** A text content item whose text is the serialisation of `data`. */
  datatype Content = Text(data: JSON)

  datatype CallToolResult = CallToolResult(content: seq<Content>)

  /**
   * `resolve_channel`: a non-empty explicit channel, else the configured
   * default, else an invalid-parameters error. The default is not re-checked.
   */
  function ResolveChannel(channel: Option<string>, defaultChannel: Option<string>): (r: Result<string, ErrorData>)
    ensures channel.Some? && channel.value != "" ==> r == Success(channel.value)
    ensures (channel.None? || channel.value == "") && defaultChannel.Some? ==> r == Success(defaultChannel.value)
    ensures r.Failure? <==> (channel.None? || channel.value == "") && defaultChannel.None?
    ensures r.Failure? ==> r.error == ErrorData(InvalidParams, ChannelRequired)
  {
    if channel.Some? && channel.value != "" then Success(channel.value)
    else if defaultChannel.Some? then Success(defaultChannel.value)
    else Failure(ErrorData(InvalidParams, ChannelRequired))
  }

  /** The startup code keeps the default channel only when it is non-empty. */
  function DefaultChannelFromEnv(env: Option<string>): (r: Option<string>)
    ensures r != Some("")
    ensures r.Some? <==> env.Some? && env.value != ""
    ensures r.Some? ==> r == env
  {
    if env.Some? && env.value != "" then env else None
  }

  /** With a default that is absent or non-empty, a resolved channel is never empty. */
  lemma ResolvedChannelNonEmpty(channel: Option<string>, defaultChannel: Option<string>)
    requires defaultChannel != Some("")
    ensures ResolveChannel(channel, defaultChannel).Success? ==> ResolveChannel(channel, defaultChannel).value != ""
  {
  }

  /** `err`: any failure of the client becomes an internal error carrying it. */
  function Err(e: ClientError): (d: ErrorData)
    ensures d.code == InternalError
    ensures d.message == ClientFailure(e)
  {
    ErrorData(InternalError, ClientFailure(e))
  }

  /** The tail of every handler: the response data as one text item, or `err` of the failure. */
  function Respond(outcome: Result<JSON, ClientError>): (r: Result<CallToolResult, ErrorData>)
    ensures r.Success? <==> outcome.Success?
    ensures outcome.Success? ==> r.value.content == [Text(outcome.value)]
    ensures outcome.Failure? ==> r.error == Err(outcome.error)
  {
    match outcome
    case Success(data) => Success(CallToolResult([Text(data)]))
    case Failure(e) => Failure(Err(e))
  }

  /** The nineteen tools, each with its parameter record. */
  datatype ToolCall =
    | PostMessage(postMessage: PostMessageParams)
    | ReplyToMessage(replyToMessage: ReplyToMessageParams)
    | CreateCanvas(createCanvas: CreateCanvasParams)
    | UpdateCanvas(updateCanvas: UpdateCanvasParams)
    | ListChannels(listChannels: ListChannelsParams)
    | ListMessages(listMessages: ListMessagesParams)
    | GetThreadReplies(getThreadReplies: GetThreadRepliesParams)
    | AddReaction(addReaction: AddReactionParams)
    | GetUsers(getUsers: GetUsersParams)
    | CreateList(createList: CreateListParams)
    | UpdateList(updateList: UpdateListParams)
    | CreateListItem(createListItem: CreateListItemParams)
    | ListListItems(listListItems: ListListItemsParams)
    | GetListItem(getListItem: GetListItemParams)
    | UpdateListItem(updateListItem: UpdateListItemParams)
    | DeleteListItem(deleteListItem: DeleteListItemParams)
    | DeleteListItems(deleteListItems: DeleteListItemsParams)
    | SetListAccess(setListAccess: SetListAccessParams)
    | DeleteListAccess(deleteListAccess: DeleteListAccessParams)

  /** The Slack method each tool is sent to. */
  function SlackMethod(call: ToolCall): (m: string)
    ensures m == "chat.postMessage" <==> call.PostMessage? || call.ReplyToMessage?
    ensures call.CreateCanvas? ==>
              (m == "conversations.canvases.create" <==>
                 call.createCanvas.channelId.Some? && call.createCanvas.channelId.value != "")
  {
    match call
    case PostMessage(_) => "chat.postMessage"
    case ReplyToMessage(_) => "chat.postMessage"
    case CreateCanvas(p) =>
      if p.channelId.Some? && p.channelId.value != "" then "conversations.canvases.create" else "canvases.create"
    case UpdateCanvas(_) => "canvases.edit"
    case ListChannels(_) => "conversations.list"
    case ListMessages(_) => "conversations.history"
    case GetThreadReplies(_) => "conversations.replies"
    case AddReaction(_) => "reactions.add"
    case GetUsers(_) => "users.list"
    case CreateList(_) => "lists.create"
    case UpdateList(_) => "lists.update"
    case CreateListItem(_) => "lists.items.create"
    case ListListItems(_) => "lists.items.list"
    case GetListItem(_) => "lists.items.info"
    case UpdateListItem(_) => "lists.items.update"
    case DeleteListItem(_) => "lists.items.delete"
    case DeleteListItems(_) => "lists.items.deleteMultiple"
    case SetListAccess(_) => "lists.access.set"
    case DeleteListAccess(_) => "lists.access.delete"
  }

  /**
   * What a tool does before it reaches the network: the request it will post,
   * or the validation error that stops it. Only `post_message` validates.
   */
  function Plan(call: ToolCall, defaultChannel: Option<string>): (r: Result<SlackCall, ErrorData>)
    ensures r.Failure? ==> call.PostMessage?
  {
    match call
    case PostMessage(p) =>
      (match ResolveChannel(p.channel, defaultChannel)
       case Failure(e) => Failure(e)
       case Success(channel) => Success(PostMessageCall(channel, p)))
    case ReplyToMessage(p) => Success(ReplyToMessageCall(p))
    case CreateCanvas(p) => Success(CreateCanvasCall(p))
    case UpdateCanvas(p) => Success(UpdateCanvasCall(p))
    case ListChannels(p) => Success(ListChannelsCall(p))
    case ListMessages(p) => Success(ListMessagesCall(p))
    case GetThreadReplies(p) => Success(GetThreadRepliesCall(p))
    case AddReaction(p) => Success(AddReactionCall(p))
    case GetUsers(p) => Success(GetUsersCall(p))
    case CreateList(p) => Success(CreateListCall(p))
    case UpdateList(p) => Success(UpdateListCall(p))
    case CreateListItem(p) => Success(CreateListItemCall(p))
    case ListListItems(p) => Success(ListListItemsCall(p))
    case GetListItem(p) => Success(GetListItemCall(p))
    case UpdateListItem(p) => Success(UpdateListItemCall(p))
    case DeleteListItem(p) => Success(DeleteListItemCall(p))
    case DeleteListItems(p) => Success(DeleteListItemsCall(p))
    case SetListAccess(p) => Success(SetListAccessCall(p))
    case DeleteListAccess(p) => Success(DeleteListAccessCall(p))
  }

  /**
   * Only `post_message` can fail before the network, and only when no channel
   * resolves; every other tool always produces its request.
   */
  lemma OnlyPostMessageValidates(call: ToolCall, defaultChannel: Option<string>)
    ensures Plan(call, defaultChannel).Failure? <==>
              call.PostMessage? && ResolveChannel(call.postMessage.channel, defaultChannel).Failure?
    ensures Plan(call, defaultChannel).Failure? ==>
              Plan(call, defaultChannel).error == ErrorData(InvalidParams, ChannelRequired)
  {
  }

  /** `post_message` sends the resolved channel and the text, and nothing else. */
  lemma PostMessageSendsResolvedChannel(p: PostMessageParams, defaultChannel: Option<string>)
    requires ResolveChannel(p.channel, defaultChannel).Success?
    ensures Plan(PostMessage(p), defaultChannel).Success?
    ensures var body := Plan(PostMessage(p), defaultChannel).value.body;
            body.Keys == {"channel", "text"} &&
            Carries(body, "channel", JStr(ResolveChannel(p.channel, defaultChannel).value)) &&
            Carries(body, "text", JStr(p.text))
  {
  }

  /** Every request goes to its tool's method in the table. */
  lemma PlanFollowsMethodTable(call: ToolCall, defaultChannel: Option<string>)
    ensures Plan(call, defaultChannel).Success? ==> Plan(call, defaultChannel).value.apiMethod == SlackMethod(call)
  {
  }

  /** A Slack refusal reaches the caller as an internal error naming the method and Slack's code. */
  lemma RefusalReachesCaller(call: ToolCall, defaultChannel: Option<string>, code: string)
    requires Plan(call, defaultChannel).Success?
    ensures var data := JObj(map["ok" := JBool(false), "error" := JStr(code)]);
            var m := Plan(call, defaultChannel).value.apiMethod;
            Respond(Classify(m, Received(200, Success(data)))) ==
              Failure(ErrorData(InternalError, ClientFailure(Api(SlackMethod(call), code, data))))
  {
  }

  /** A successful response is handed back exactly as it was decoded. */
  lemma SuccessIsVerbatim(apiMethod: string, status: int, data: JSON)
    requires IsSuccessStatus(status) && OkIsTrue(data)
    ensures Respond(Classify(apiMethod, Received(status, Success(data)))) == Success(CallToolResult([Text(data)]))
  {
  }

  /** The server object: the shared client and the default channel, both fixed at startup. */
  class SlackTools {
    const client: SlackClient
    const defaultChannel: Option<string>

    /** The default channel is absent or non-empty, as the startup code guarantees. */
    predicate Valid() {
      defaultChannel != Some("")
    }

    constructor (client: SlackClient, defaultChannel: Option<string>)
      requires defaultChannel != Some("")
      ensures this.client == client && this.defaultChannel == defaultChannel
      ensures Valid()
    {
      this.client := client;
      this.defaultChannel := defaultChannel;
    }

    /**
     * One tool invocation. A validation failure returns before the client is
     * used; otherwise exactly one request goes out and its outcome is wrapped.
     */
    method Invoke(call: ToolCall) returns (r: Result<CallToolResult, ErrorData>)
      requires Valid()
      modifies client`sent
      ensures Plan(call, defaultChannel).Failure? ==>
                client.sent == old(client.sent) && r == Failure(Plan(call, defaultChannel).error)
      ensures Plan(call, defaultChannel).Success? ==>
                var c := Plan(call, defaultChannel).value;
                var request := client.RequestFor(SlackMethod(call), JObj(c.body));
                client.sent == old(client.sent) + [request] &&
                r == Respond(Classify(SlackMethod(call), client.network(|old(client.sent)|, request)))
      ensures call.PostMessage? && Plan(call, defaultChannel).Success? ==>
                var body := client.sent[|client.sent| - 1].body.fields;
                "channel" in body && body["channel"].JStr? && body["channel"].s != ""
    {
      var plan := Plan(call, defaultChannel);
      if plan.Failure? {
        return Failure(plan.error);
      }
      PlanFollowsMethodTable(call, defaultChannel);
      ResolvedChannelNonEmpty(if call.PostMessage? then call.postMessage.channel else None, defaultChannel);
      var data := client.Post(plan.value.apiMethod, JObj(plan.value.body));
      r := Respond(data);
    }
  }
}
