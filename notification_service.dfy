/**
 * `services/notification.service.ts`, `getNotifications`: the notification
 * list is taken from whichever envelope the body uses and every entry gets
 * defaults for the fields the app reads. The request is left out: the
 * response it returns is the input, a record of JSON values. The clock
 * readings used for missing ids and timestamps are parameters.
 */
module NotificationService {
  import opened Wrappers
  import opened Js
  import Strings

  type Response = map<string, Value>

  /** The raw entries: the body when it is an array, else its
      `notifications` or `data` array when the body is an object; otherwise
      none. */
  function RawList(data: Value): (r: seq<Value>)
    ensures data.Arr? ==> r == data.items
    ensures data.Obj? && Prop(data, "notifications").Arr? ==> r == Prop(data, "notifications").items
    ensures data.Obj? && !Prop(data, "notifications").Arr? && Prop(data, "data").Arr? ==> r == Prop(data, "data").items
    ensures !data.Arr? && !(data.Obj? && (Prop(data, "notifications").Arr? || Prop(data, "data").Arr?)) ==> r == []
  {
    if IsArray(data) then data.items
    else if Truthy(data) && data.Obj? then
      if IsArray(Prop(data, "notifications")) then Prop(data, "notifications").items
      else if IsArray(Prop(data, "data")) then Prop(data, "data").items
      else []
    else []
  }

  /** The clock readings `Date.now().toString()` and
      `new Date().toISOString()`. */
  datatype Clock = Clock(nowId: string, nowIso: string)

  /** The seven fields of a normalized entry. */
  function EntryFields(id: Value, title: Value, message: Value, kind: Value, read: Value, createdAt: Value, data: Value): (r: map<string, Value>)
    ensures r.Keys == {"id", "title", "message", "type", "read", "createdAt", "data"}
    ensures r["id"] == id && r["title"] == title && r["message"] == message && r["type"] == kind
    ensures r["read"] == read && r["createdAt"] == createdAt && r["data"] == data
    ensures "body" !in r && "is_read" !in r && "created_at" !in r
  {
    map["id" := id, "title" := title, "message" := message, "type" := kind,
        "read" := read, "createdAt" := createdAt, "data" := data]
  }

  /** `n.id?.toString() || Date.now().toString()`: the entry's id as text,
      the clock's reading when the id is missing or its text is empty. The
      id is turned into text before the fallback, so an id of `0` gives
      `"0"`, not the clock. */
  function IdText(id: Value, clock: Clock): (r: Value)
    ensures r.Str?
    ensures Nullish(id) ==> r == Str(clock.nowId)
    ensures id.Str? && id.s != "" ==> r == id
    ensures id.Num? ==> r == Str(Strings.IntToString(id.n))
  {
    if Nullish(id) then Str(clock.nowId) else Or(Str(ToText(id)), Str(clock.nowId))
  }

  /** One entry with its defaults. */
  function Normalize(n: Value, clock: Clock): (r: Value)
    requires !Nullish(n)
    ensures r.Obj? && r.fields.Keys == {"id", "title", "message", "type", "read", "createdAt", "data"}
    ensures r.fields["title"] == Or(Prop(n, "title"), Str("Notification"))
    ensures r.fields["message"] == Or(Or(Prop(n, "message"), Prop(n, "body")), Str(""))
    ensures r.fields["type"] == Or(Prop(n, "type"), Str("info"))
    ensures r.fields["read"] == Or(Or(Prop(n, "read"), Prop(n, "is_read")), Bool(false))
    ensures r.fields["createdAt"] == Or(Or(Prop(n, "created_at"), Prop(n, "createdAt")), Str(clock.nowIso))
    ensures r.fields["data"] == Prop(n, "data")
    ensures r.fields["id"] == IdText(Prop(n, "id"), clock)
  {
    Obj(EntryFields(
      IdText(Prop(n, "id"), clock),
      Or(Prop(n, "title"), Str("Notification")),
      Or(Or(Prop(n, "message"), Prop(n, "body")), Str("")),
      Or(Prop(n, "type"), Str("info")),
      Or(Or(Prop(n, "read"), Prop(n, "is_read")), Bool(false)),
      Or(Or(Prop(n, "created_at"), Prop(n, "createdAt")), Str(clock.nowIso)),
      Prop(n, "data")))
  }

  /** An entry with no fields gets every default. */
  lemma EmptyEntryDefaults(clock: Clock)
    ensures Normalize(Obj(map[]), clock) == Obj(map[
      "id" := Str(clock.nowId), "title" := Str("Notification"), "message" := Str(""),
      "type" := Str("info"), "read" := Bool(false), "createdAt" := Str(clock.nowIso), "data" := Undefined])
  {
  }

  /** A normalized entry is left as it is by a second pass with the same
      clock. */
  lemma NormalizeStable(n: Value, clock: Clock)
    requires !Nullish(n)
    ensures Normalize(Normalize(n, clock), clock) == Normalize(n, clock)
  {
    var once := Normalize(n, clock);
    var f := once.fields;
    assert Prop(once, "body") == Undefined && Prop(once, "is_read") == Undefined && Prop(once, "created_at") == Undefined;
    assert IdText(f["id"], clock) == f["id"];
    assert once == Obj(EntryFields(f["id"], f["title"], f["message"], f["type"], f["read"], f["createdAt"], f["data"]));
  }

  /** `rawNotifs.map(...)`: every entry normalized, in order; `None` when an
      entry is `null` or `undefined` and reading its `id` throws. */
  function NormalizeAll(raw: seq<Value>, clock: Clock): (r: Option<seq<Value>>)
    ensures r.None? <==> exists i :: 0 <= i < |raw| && Nullish(raw[i])
    ensures r.Some? ==> |r.value| == |raw| && forall i :: 0 <= i < |raw| ==> r.value[i] == Normalize(raw[i], clock)
  {
    if exists i :: 0 <= i < |raw| && Nullish(raw[i]) then None
    else Some(seq(|raw|, i requires 0 <= i < |raw| => Normalize(raw[i], clock)))
  }

  /** `unread_count || unreadCount || 0`. */
  function UnreadCount(data: Value): (r: Value)
    ensures Truthy(Prop(data, "unread_count")) ==> r == Prop(data, "unread_count")
    ensures !Truthy(Prop(data, "unread_count")) && Truthy(Prop(data, "unreadCount")) ==> r == Prop(data, "unreadCount")
    ensures !Truthy(Prop(data, "unread_count")) && !Truthy(Prop(data, "unreadCount")) ==> r == Num(0)
  {
    Or(Or(Prop(data, "unread_count"), Prop(data, "unreadCount")), Num(0))
  }

  /** `getNotifications`: a failed response (or one without a body) is
      returned as it is; otherwise the body is replaced by the normalized
      list and the unread count, every other field kept. */
  function GetNotifications(response: Response, clock: Clock): (r: Option<Response>)
    ensures !(Truthy(FieldOf(response, "success")) && Truthy(FieldOf(response, "data"))) ==> r == Some(response)
    ensures Truthy(FieldOf(response, "success")) && Truthy(FieldOf(response, "data")) ==>
      (r.None? <==> NormalizeAll(RawList(FieldOf(response, "data")), clock).None?)
    ensures r.Some? && Truthy(FieldOf(response, "success")) && Truthy(FieldOf(response, "data")) ==>
      r.value.Keys == response.Keys + {"data"}
      && (forall k :: k in response && k != "data" ==> r.value[k] == response[k])
      && r.value["data"] == Obj(map[
        "notifications" := Arr(NormalizeAll(RawList(FieldOf(response, "data")), clock).value),
        "unreadCount" := UnreadCount(FieldOf(response, "data"))])
  {
    var data := FieldOf(response, "data");
    if Truthy(FieldOf(response, "success")) && Truthy(data) then
      match NormalizeAll(RawList(data), clock)
      case None => None
      case Some(notifications) =>
        Some(response["data" := Obj(map["notifications" := Arr(notifications), "unreadCount" := UnreadCount(data)])])
    else Some(response)
  }

  /** The returned list has one entry per raw entry, in the same order. */
  lemma ListFollowsRaw(response: Response, clock: Clock, i: int)
    requires Truthy(FieldOf(response, "success")) && Truthy(FieldOf(response, "data"))
    requires GetNotifications(response, clock).Some?
    requires 0 <= i < |RawList(FieldOf(response, "data"))|
    ensures var list := Prop(GetNotifications(response, clock).value["data"], "notifications");
      list.Arr? && |list.items| == |RawList(FieldOf(response, "data"))|
      && list.items[i] == Normalize(RawList(FieldOf(response, "data"))[i], clock)
  {
  }

  /** Running `getNotifications` on its own successful output changes
      nothing (with the same clock). */
  lemma GetNotificationsStable(response: Response, clock: Clock)
    requires GetNotifications(response, clock).Some?
    ensures GetNotifications(GetNotifications(response, clock).value, clock) == GetNotifications(response, clock)
  {
    var data := FieldOf(response, "data");
    if Truthy(FieldOf(response, "success")) && Truthy(data) {
      var once := GetNotifications(response, clock).value;
      var list := NormalizeAll(RawList(data), clock).value;
      var body := Obj(map["notifications" := Arr(list), "unreadCount" := UnreadCount(data)]);
      assert once == response["data" := body];
      assert FieldOf(once, "data") == body && FieldOf(once, "success") == FieldOf(response, "success");
      BodyStable(list, UnreadCount(data));
      NormalizeAllStable(RawList(data), clock);
      assert once["data" := body] == once;
    }
  }

  /** The body `getNotifications` writes lists its entries and keeps its
      count when read again. */
  lemma BodyStable(list: seq<Value>, count: Value)
    requires count == Or(count, Num(0))
    ensures var body := Obj(map["notifications" := Arr(list), "unreadCount" := count]);
      RawList(body) == list && UnreadCount(body) == count
  {
    var body := Obj(map["notifications" := Arr(list), "unreadCount" := count]);
    assert Prop(body, "unread_count") == Undefined;
    assert Prop(body, "notifications") == Arr(list);
  }

  /** Normalizing a normalized list changes nothing. */
  lemma NormalizeAllStable(raw: seq<Value>, clock: Clock)
    requires NormalizeAll(raw, clock).Some?
    ensures NormalizeAll(NormalizeAll(raw, clock).value, clock) == NormalizeAll(raw, clock)
  {
    var list := NormalizeAll(raw, clock).value;
    EntriesStable(raw, clock);
    NormalizeAllFixed(list, clock);
  }

  lemma EntriesStable(raw: seq<Value>, clock: Clock)
    requires NormalizeAll(raw, clock).Some?
    ensures var list := NormalizeAll(raw, clock).value;
      forall i :: 0 <= i < |list| ==> !Nullish(list[i]) && Normalize(list[i], clock) == list[i]
  {
    var list := NormalizeAll(raw, clock).value;
    forall i | 0 <= i < |list| ensures !Nullish(list[i]) && Normalize(list[i], clock) == list[i] {
      NormalizeStable(raw[i], clock);
    }
  }

  /** A list of entries each left as it is by `Normalize` is left as it is
      by `NormalizeAll`. */
  lemma NormalizeAllFixed(list: seq<Value>, clock: Clock)
    requires forall i :: 0 <= i < |list| ==> !Nullish(list[i]) && Normalize(list[i], clock) == list[i]
    ensures NormalizeAll(list, clock) == Some(list)
  {
    var again := NormalizeAll(list, clock);
    assert again.value == list;
  }
}
