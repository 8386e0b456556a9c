/**
 * The request each tool handler sends: a fixed Slack method and a JSON object
 * body. Required fields always become keys; an optional field becomes a key
 * only when it is given, with exactly the given value.
 */
module Payloads {
  import opened Wrappers
  import opened Json
  import opened Types

  /** One outbound call: the Slack method and the members of the body object. */
  datatype SlackCall = SlackCall(apiMethod: string, body: map<string, JSON>)

  /** A field the handler inserts only when it is present. */
  datatype Optional = Optional(key: string, value: Option<JSON>)

  /** `key` is a member of `body` with value `v`. */
  ghost predicate Carries(body: map<string, JSON>, key: string, v: JSON) {
    key in body && body[key] == v
  }

  /** `key` is a member of `body` exactly when `v` is present, and then with its value. */
  ghost predicate CarriesOptional(body: map<string, JSON>, key: string, v: Option<JSON>) {
    (key in body <==> v.Some?) && (v.Some? ==> body[key] == v.value)
  }

  ghost predicate DistinctKeys(entries: seq<Optional>) {
    forall i, j :: 0 <= i < j < |entries| ==> entries[i].key != entries[j].key
  }

  /**
   * The handlers' run of `if let Some(x) = params.f { body["f"] = x }`
   * statements, applied in order to a body holding the required fields.
   */
  function WithOptional(body: map<string, JSON>, entries: seq<Optional>): (r: map<string, JSON>)
    ensures body.Keys <= r.Keys
    decreases |entries|
  {
    if entries == [] then body
    else
      var e := entries[0];
      WithOptional(if e.value.Some? then body[e.key := e.value.value] else body, entries[1..])
  }

  /**
   * What the run of conditional inserts promises: the required fields stay as
   * they are, each optional key is a member exactly when its value is present
   * (and then holds that value), and no other key appears.
   */
  lemma {:induction false} WithOptionalFields(body: map<string, JSON>, entries: seq<Optional>)
    requires DistinctKeys(entries)
    requires forall i :: 0 <= i < |entries| ==> entries[i].key !in body
    ensures forall k :: k in body ==> k in WithOptional(body, entries) && WithOptional(body, entries)[k] == body[k]
    ensures forall i :: 0 <= i < |entries| ==> CarriesOptional(WithOptional(body, entries), entries[i].key, entries[i].value)
    ensures forall k :: k in WithOptional(body, entries) ==>
              k in body || exists i :: 0 <= i < |entries| && entries[i].key == k
    decreases |entries|
  {
    if entries != [] {
      var e, rest := entries[0], entries[1..];
      var body' := if e.value.Some? then body[e.key := e.value.value] else body;
      assert forall i :: 0 <= i < |rest| ==> rest[i] == entries[i + 1];
      WithOptionalFields(body', rest);
      var r := WithOptional(body, entries);
      assert r == WithOptional(body', rest);
      forall k | k in body
        ensures k in r && r[k] == body[k]
      {
        assert k in body' && body'[k] == body[k];
      }
      forall i | 0 <= i < |entries|
        ensures CarriesOptional(r, entries[i].key, entries[i].value)
      {
        if i == 0 {
          if e.value.Some? {
            assert e.key in body';
          }
        } else {
          assert entries[i] == rest[i - 1];
        }
      }
      forall k | k in r
        ensures k in body || exists i :: 0 <= i < |entries| && entries[i].key == k
      {
        if k !in body && k != e.key {
          assert k !in body';
          var j :| 0 <= j < |rest| && rest[j].key == k;
          assert entries[j + 1].key == k;
        } else if k !in body {
          assert entries[0].key == k;
        }
      }
    }
  }

  function Num(o: Option<U32>): Option<JSON> {
    match o
    case Some(n) => Some(JNum(n as int))
    case None => None
  }

  function Str(o: Option<string>): Option<JSON> {
    match o
    case Some(s) => Some(JStr(s))
    case None => None
  }

  function Bool(o: Option<bool>): Option<JSON> {
    match o
    case Some(b) => Some(JBool(b))
    case None => None
  }

  /** A canvas document: markdown text tagged with `type: "markdown"`. */
  function Markdown(markdown: string): (d: JSON)
    ensures d.JObj? && d.fields.Keys == {"type", "markdown"}
    ensures Carries(d.fields, "type", JStr("markdown")) && Carries(d.fields, "markdown", JStr(markdown))
  {
    JObj(map["type" := JStr("markdown"), "markdown" := JStr(markdown)])
  }

  // ─── Messaging ───

  /** `post_message`, once its channel has been resolved. */
  function PostMessageCall(channel: string, p: PostMessageParams): (c: SlackCall)
    ensures c.apiMethod == "chat.postMessage"
    ensures c.body.Keys == {"channel", "text"}
    ensures Carries(c.body, "channel", JStr(channel)) && Carries(c.body, "text", JStr(p.text))
  {
    SlackCall("chat.postMessage", map["channel" := JStr(channel), "text" := JStr(p.text)])
  }

  /** `reply_broadcast` is sent only as `true`, and only when the caller asked for it. */
  function ReplyToMessageCall(p: ReplyToMessageParams): (c: SlackCall)
    ensures c.apiMethod == "chat.postMessage"
    ensures c.body.Keys <= {"channel", "text", "thread_ts", "reply_broadcast"}
    ensures Carries(c.body, "channel", JStr(p.channel))
    ensures Carries(c.body, "text", JStr(p.text))
    ensures Carries(c.body, "thread_ts", JStr(p.threadTs))
    ensures "reply_broadcast" in c.body <==> p.replyBroadcast == Some(true)
    ensures "reply_broadcast" in c.body ==> c.body["reply_broadcast"] == JBool(true)
  {
    var body := map["channel" := JStr(p.channel), "text" := JStr(p.text), "thread_ts" := JStr(p.threadTs)];
    var entries := [Optional("reply_broadcast", if p.replyBroadcast == Some(true) then Some(JBool(true)) else None)];
    WithOptionalFields(body, entries);
    SlackCall("chat.postMessage", WithOptional(body, entries))
  }

  // ─── Canvas ───

  /** A non-empty `channel_id` binds the canvas to that channel; otherwise it is standalone. */
  function CreateCanvasCall(p: CreateCanvasParams): (c: SlackCall)
    ensures c.apiMethod == "conversations.canvases.create" <==> p.channelId.Some? && p.channelId.value != ""
    ensures c.apiMethod != "conversations.canvases.create" ==> c.apiMethod == "canvases.create"
    ensures Carries(c.body, "document_content", Markdown(p.markdown))
    ensures c.apiMethod == "conversations.canvases.create" ==>
              c.body.Keys == {"channel_id", "document_content"} && Carries(c.body, "channel_id", JStr(p.channelId.value))
    ensures c.apiMethod == "canvases.create" ==>
              c.body.Keys == {"title", "document_content"} && Carries(c.body, "title", JStr(p.title))
  {
    var documentContent := Markdown(p.markdown);
    if p.channelId.Some? && p.channelId.value != "" then
      SlackCall("conversations.canvases.create",
                map["channel_id" := JStr(p.channelId.value), "document_content" := documentContent])
    else
      SlackCall("canvases.create", map["title" := JStr(p.title), "document_content" := documentContent])
  }

  /** The whole canvas is replaced: one change, of operation "replace", with the new markdown. */
  function UpdateCanvasCall(p: UpdateCanvasParams): (c: SlackCall)
    ensures c.apiMethod == "canvases.edit"
    ensures c.body.Keys == {"canvas_id", "changes"}
    ensures Carries(c.body, "canvas_id", JStr(p.canvasId))
    ensures c.body["changes"].JArr? && |c.body["changes"].items| == 1
    ensures var change := c.body["changes"].items[0];
            change.JObj? && change.fields.Keys == {"operation", "document_content"} &&
            Carries(change.fields, "operation", JStr("replace")) &&
            Carries(change.fields, "document_content", Markdown(p.markdown))
  {
    var change := JObj(map["operation" := JStr("replace"), "document_content" := Markdown(p.markdown)]);
    SlackCall("canvases.edit", map["canvas_id" := JStr(p.canvasId), "changes" := JArr([change])])
  }

  // ─── Channels ───

  function ListChannelsCall(p: ListChannelsParams): (c: SlackCall)
    ensures c.apiMethod == "conversations.list"
    ensures c.body.Keys <= {"limit", "cursor", "types"}
    ensures CarriesOptional(c.body, "limit", Num(p.limit))
    ensures CarriesOptional(c.body, "cursor", Str(p.cursor))
    ensures CarriesOptional(c.body, "types", Str(p.types))
  {
    var entries := [Optional("limit", Num(p.limit)), Optional("cursor", Str(p.cursor)),
                    Optional("types", Str(p.types))];
    WithOptionalFields(map[], entries);
    assert entries[1].key == "cursor" && entries[2].key == "types";
    SlackCall("conversations.list", WithOptional(map[], entries))
  }

  function ListMessagesCall(p: ListMessagesParams): (c: SlackCall)
    ensures c.apiMethod == "conversations.history"
    ensures c.body.Keys <= {"channel", "limit", "cursor"}
    ensures Carries(c.body, "channel", JStr(p.channel))
    ensures CarriesOptional(c.body, "limit", Num(p.limit))
    ensures CarriesOptional(c.body, "cursor", Str(p.cursor))
  {
    var body := map["channel" := JStr(p.channel)];
    var entries := [Optional("limit", Num(p.limit)), Optional("cursor", Str(p.cursor))];
    WithOptionalFields(body, entries);
    assert entries[1].key == "cursor";
    SlackCall("conversations.history", WithOptional(body, entries))
  }

  function GetThreadRepliesCall(p: GetThreadRepliesParams): (c: SlackCall)
    ensures c.apiMethod == "conversations.replies"
    ensures c.body.Keys <= {"channel", "ts", "limit", "cursor"}
    ensures Carries(c.body, "channel", JStr(p.channel)) && Carries(c.body, "ts", JStr(p.ts))
    ensures CarriesOptional(c.body, "limit", Num(p.limit))
    ensures CarriesOptional(c.body, "cursor", Str(p.cursor))
  {
    var body := map["channel" := JStr(p.channel), "ts" := JStr(p.ts)];
    var entries := [Optional("limit", Num(p.limit)), Optional("cursor", Str(p.cursor))];
    WithOptionalFields(body, entries);
    assert entries[1].key == "cursor";
    SlackCall("conversations.replies", WithOptional(body, entries))
  }

  // ─── Reactions and users ───

  function AddReactionCall(p: AddReactionParams): (c: SlackCall)
    ensures c.apiMethod == "reactions.add"
    ensures c.body.Keys == {"channel", "timestamp", "name"}
    ensures Carries(c.body, "channel", JStr(p.channel))
    ensures Carries(c.body, "timestamp", JStr(p.timestamp))
    ensures Carries(c.body, "name", JStr(p.name))
  {
    SlackCall("reactions.add",
      map["channel" := JStr(p.channel), "timestamp" := JStr(p.timestamp), "name" := JStr(p.name)])
  }

  function GetUsersCall(p: GetUsersParams): (c: SlackCall)
    ensures c.apiMethod == "users.list"
    ensures c.body.Keys <= {"limit", "cursor"}
    ensures CarriesOptional(c.body, "limit", Num(p.limit))
    ensures CarriesOptional(c.body, "cursor", Str(p.cursor))
  {
    var entries := [Optional("limit", Num(p.limit)), Optional("cursor", Str(p.cursor))];
    WithOptionalFields(map[], entries);
    assert entries[1].key == "cursor";
    SlackCall("users.list", WithOptional(map[], entries))
  }

  // ─── Lists ───

  function CreateListCall(p: CreateListParams): (c: SlackCall)
    ensures c.apiMethod == "lists.create"
    ensures c.body.Keys <= {"name", "description", "todo_mode", "schema"}
    ensures Carries(c.body, "name", JStr(p.name))
    ensures Carries(c.body, "description", p.description)
    ensures CarriesOptional(c.body, "todo_mode", Bool(p.todoMode))
    ensures CarriesOptional(c.body, "schema", p.schema)
  {
    var body := map["name" := JStr(p.name), "description" := p.description];
    var entries := [Optional("todo_mode", Bool(p.todoMode)), Optional("schema", p.schema)];
    WithOptionalFields(body, entries);
    assert entries[1].key == "schema";
    SlackCall("lists.create", WithOptional(body, entries))
  }

  function UpdateListCall(p: UpdateListParams): (c: SlackCall)
    ensures c.apiMethod == "lists.update"
    ensures c.body.Keys <= {"id", "name", "description", "todo_mode"}
    ensures Carries(c.body, "id", JStr(p.id))
    ensures CarriesOptional(c.body, "name", Str(p.name))
    ensures CarriesOptional(c.body, "description", Str(p.description))
    ensures CarriesOptional(c.body, "todo_mode", Bool(p.todoMode))
  {
    var body := map["id" := JStr(p.id)];
    var entries := [Optional("name", Str(p.name)), Optional("description", Str(p.description)),
                    Optional("todo_mode", Bool(p.todoMode))];
    WithOptionalFields(body, entries);
    assert entries[1].key == "description" && entries[2].key == "todo_mode";
    SlackCall("lists.update", WithOptional(body, entries))
  }

  function CreateListItemCall(p: CreateListItemParams): (c: SlackCall)
    ensures c.apiMethod == "lists.items.create"
    ensures c.body.Keys <= {"list_id", "initial_fields"}
    ensures Carries(c.body, "list_id", JStr(p.listId))
    ensures CarriesOptional(c.body, "initial_fields", p.initialFields)
  {
    var body := map["list_id" := JStr(p.listId)];
    var entries := [Optional("initial_fields", p.initialFields)];
    WithOptionalFields(body, entries);
    SlackCall("lists.items.create", WithOptional(body, entries))
  }

  function ListListItemsCall(p: ListListItemsParams): (c: SlackCall)
    ensures c.apiMethod == "lists.items.list"
    ensures c.body.Keys <= {"list_id", "limit", "cursor", "archived"}
    ensures Carries(c.body, "list_id", JStr(p.listId))
    ensures CarriesOptional(c.body, "limit", Num(p.limit))
    ensures CarriesOptional(c.body, "cursor", Str(p.cursor))
    ensures CarriesOptional(c.body, "archived", Bool(p.archived))
  {
    var body := map["list_id" := JStr(p.listId)];
    var entries := [Optional("limit", Num(p.limit)), Optional("cursor", Str(p.cursor)),
                    Optional("archived", Bool(p.archived))];
    WithOptionalFields(body, entries);
    assert entries[1].key == "cursor" && entries[2].key == "archived";
    SlackCall("lists.items.list", WithOptional(body, entries))
  }

  function GetListItemCall(p: GetListItemParams): (c: SlackCall)
    ensures c.apiMethod == "lists.items.info"
    ensures c.body.Keys == {"list_id", "id"}
    ensures Carries(c.body, "list_id", JStr(p.listId)) && Carries(c.body, "id", JStr(p.id))
  {
    SlackCall("lists.items.info", map["list_id" := JStr(p.listId), "id" := JStr(p.id)])
  }

  function UpdateListItemCall(p: UpdateListItemParams): (c: SlackCall)
    ensures c.apiMethod == "lists.items.update"
    ensures c.body.Keys == {"list_id", "cells"}
    ensures Carries(c.body, "list_id", JStr(p.listId)) && Carries(c.body, "cells", p.cells)
  {
    SlackCall("lists.items.update", map["list_id" := JStr(p.listId), "cells" := p.cells])
  }

  function DeleteListItemCall(p: DeleteListItemParams): (c: SlackCall)
    ensures c.apiMethod == "lists.items.delete"
    ensures c.body.Keys == {"list_id", "id"}
    ensures Carries(c.body, "list_id", JStr(p.listId)) && Carries(c.body, "id", JStr(p.id))
  {
    SlackCall("lists.items.delete", map["list_id" := JStr(p.listId), "id" := JStr(p.id)])
  }

  function DeleteListItemsCall(p: DeleteListItemsParams): (c: SlackCall)
    ensures c.apiMethod == "lists.items.deleteMultiple"
    ensures c.body.Keys == {"list_id", "ids"}
    ensures Carries(c.body, "list_id", JStr(p.listId)) && Carries(c.body, "ids", p.ids)
  {
    SlackCall("lists.items.deleteMultiple", map["list_id" := JStr(p.listId), "ids" := p.ids])
  }

  function SetListAccessCall(p: SetListAccessParams): (c: SlackCall)
    ensures c.apiMethod == "lists.access.set"
    ensures c.body.Keys <= {"list_id", "access_level", "channel_ids", "user_ids"}
    ensures Carries(c.body, "list_id", JStr(p.listId))
    ensures Carries(c.body, "access_level", JStr(p.accessLevel))
    ensures CarriesOptional(c.body, "channel_ids", p.channelIds)
    ensures CarriesOptional(c.body, "user_ids", p.userIds)
  {
    var body := map["list_id" := JStr(p.listId), "access_level" := JStr(p.accessLevel)];
    var entries := [Optional("channel_ids", p.channelIds), Optional("user_ids", p.userIds)];
    WithOptionalFields(body, entries);
    assert entries[1].key == "user_ids";
    SlackCall("lists.access.set", WithOptional(body, entries))
  }

  function DeleteListAccessCall(p: DeleteListAccessParams): (c: SlackCall)
    ensures c.apiMethod == "lists.access.delete"
    ensures c.body.Keys <= {"list_id", "channel_ids", "user_ids"}
    ensures Carries(c.body, "list_id", JStr(p.listId))
    ensures CarriesOptional(c.body, "channel_ids", p.channelIds)
    ensures CarriesOptional(c.body, "user_ids", p.userIds)
  {
    var body := map["list_id" := JStr(p.listId)];
    var entries := [Optional("channel_ids", p.channelIds), Optional("user_ids", p.userIds)];
    WithOptionalFields(body, entries);
    assert entries[1].key == "user_ids";
    SlackCall("lists.access.delete", WithOptional(body, entries))
  }

  /** Every field of the channel and user listings is optional: given none, the body is `{}`. */
  lemma EmptyListingsSendEmptyBody()
    ensures ListChannelsCall(ListChannelsParams(None, None, None)).body == map[]
    ensures GetUsersCall(GetUsersParams(None, None)).body == map[]
  {
  }
}
