/**
 * The parameter records of the tools: which fields a caller must give and which
 * it may leave out. Required fields are plain values, optional ones `Option`s.
 * For the Slack list records, field types are inferred from how the handlers
 * in tools.rs use them; fields passed through
 * as raw JSON (`schema`, `initial_fields`, `cells`, `ids`, `channel_ids`,
 * `user_ids`, and `description` of `create_list`, which may be null) are `JSON`.
 */
module Types {
  import opened Wrappers
  import opened Json

  /** Rust's `u32`: every `limit` is bounded to 0 .. 2^32 - 1. */
  newtype U32 = x: int | 0 <= x < 0x1_0000_0000

  // ─── Messaging ───

  datatype PostMessageParams = PostMessageParams(channel: Option<string>, text: string)

  datatype ReplyToMessageParams = ReplyToMessageParams(
    channel: string, threadTs: string, text: string,
    replyBroadcast: Option<bool>)  // documented as defaulting to false

  // ─── Canvas ───

  datatype CreateCanvasParams = CreateCanvasParams(title: string, markdown: string, channelId: Option<string>)

  datatype UpdateCanvasParams = UpdateCanvasParams(canvasId: string, markdown: string)

  // ─── Channels ───

  datatype ListChannelsParams = ListChannelsParams(limit: Option<U32>, cursor: Option<string>, types: Option<string>)

  datatype ListMessagesParams = ListMessagesParams(channel: string, limit: Option<U32>, cursor: Option<string>)

  datatype GetThreadRepliesParams = GetThreadRepliesParams(
    channel: string, ts: string, limit: Option<U32>, cursor: Option<string>)

  // ─── Reactions and users ───

  datatype AddReactionParams = AddReactionParams(channel: string, timestamp: string, name: string)

  datatype GetUsersParams = GetUsersParams(limit: Option<U32>, cursor: Option<string>)

  // ─── Lists ───

  datatype CreateListParams = CreateListParams(
    name: string, description: JSON, todoMode: Option<bool>, schema: Option<JSON>)

  datatype UpdateListParams = UpdateListParams(
    id: string, name: Option<string>, description: Option<string>, todoMode: Option<bool>)

  datatype CreateListItemParams = CreateListItemParams(listId: string, initialFields: Option<JSON>)

  datatype ListListItemsParams = ListListItemsParams(
    listId: string, limit: Option<U32>, cursor: Option<string>, archived: Option<bool>)

  datatype GetListItemParams = GetListItemParams(listId: string, id: string)

  datatype UpdateListItemParams = UpdateListItemParams(listId: string, cells: JSON)

  datatype DeleteListItemParams = DeleteListItemParams(listId: string, id: string)

  datatype DeleteListItemsParams = DeleteListItemsParams(listId: string, ids: JSON)

  datatype SetListAccessParams = SetListAccessParams(
    listId: string, accessLevel: string, channelIds: Option<JSON>, userIds: Option<JSON>)

  datatype DeleteListAccessParams = DeleteListAccessParams(
    listId: string, channelIds: Option<JSON>, userIds: Option<JSON>)
}
