/**
 * How the worker turns a push payload or a page message into a notification
 * request: the title, and the options object built by spreading the payload
 * and the icon, badge and timestamp defaults. The two paths merge with opposite
 * precedence: a push payload cannot override icon and badge, a message
 * payload overrides every default.
 */
module NotificationOptions {
  import opened Js
  import opened Paths

  const DefaultTitle: string := "New Notification"
  const ShowType: string := "SHOW_NOTIFICATION"
  const ClearType: string := "CLEAR_NOTIFICATIONS"

  /** The option names the worker supplies itself. */
  const DefaultKeys: set<string> := {"icon", "badge", "timestamp"}

  /** The arguments of `showNotification(title, options)`. */
  datatype ShowRequest = ShowRequest(title: Value, options: map<string, Value>)

  /** The outcome of `event.data.json()` on a push message that carries data. */
  datatype PushData = Parsed(json: Value) | Malformed

  /** What a page message asks for. `Fault` is the TypeError thrown when a
      SHOW_NOTIFICATION message has a null or undefined payload. */
  datatype Action = Show(request: ShowRequest) | ClearAll | Ignore | Fault

  /** `Date.now()`, as the number that goes into `timestamp`. */
  function Now(now: nat): Value {
    Num(now as real)
  }

  /** The defaults the message path spreads the payload over. */
  function Defaults(isAppSubdomain: bool, now: nat): (r: map<string, Value>)
    ensures r.Keys == DefaultKeys
    ensures r["icon"] == Str(IconUrl(isAppSubdomain)) && r["badge"] == Str(BadgeUrl(isAppSubdomain))
    ensures r["timestamp"] == Now(now)
  {
    map["icon" := Str(IconUrl(isAppSubdomain)),
        "badge" := Str(BadgeUrl(isAppSubdomain)),
        "timestamp" := Now(now)]
  }

  /** The fields the push path writes after spreading the payload. */
  function PushOverrides(isAppSubdomain: bool, stamp: Value, now: nat): (r: map<string, Value>)
    ensures r.Keys == DefaultKeys
    ensures r["icon"] == Str(IconUrl(isAppSubdomain)) && r["badge"] == Str(BadgeUrl(isAppSubdomain))
    ensures r["timestamp"] == if Truthy(stamp) then stamp else Now(now)
  {
    map["icon" := Str(IconUrl(isAppSubdomain)),
        "badge" := Str(BadgeUrl(isAppSubdomain)),
        "timestamp" := Or(stamp, Now(now))]
  }

  /** The push handler's notification: nothing when the message has no data,
      when the data is not JSON, or when it parses to null (reading
      `data.timestamp` then throws, and the handler catches it). */
  function PushRequest(isAppSubdomain: bool, data: Option<PushData>, now: nat): (r: Option<ShowRequest>)
    ensures r.Some? <==> data.Some? && data.value.Parsed? && !Nullish(data.value.json)
    ensures r.Some? ==>
      var d := data.value.json;
      var title := Prop(d, "title").value;
      var stamp := Prop(d, "timestamp").value;
      && r.value.title == (if Truthy(title) then title else Str(DefaultTitle))
      && r.value.options.Keys == Spread(d).Keys + DefaultKeys
      && r.value.options["icon"] == Str(IconUrl(isAppSubdomain))
      && r.value.options["badge"] == Str(BadgeUrl(isAppSubdomain))
      && r.value.options["timestamp"] == (if Truthy(stamp) then stamp else Now(now))
      && forall k :: k in Spread(d) && k !in DefaultKeys ==> r.value.options[k] == Spread(d)[k]
  {
    match data
    case None => None
    case Some(Malformed) => None
    case Some(Parsed(d)) =>
      if Nullish(d) then None
      else
        var options := Merge(Spread(d), PushOverrides(isAppSubdomain, Prop(d, "timestamp").value, now));
        Some(ShowRequest(Or(Prop(d, "title").value, Str(DefaultTitle)), options))
  }

  /** A field of `event.data || {}`, as the destructuring reads it. */
  function MessageField(data: Value, k: string): (r: Value)
    requires k in ReadKeys
    ensures !Truthy(data) ==> r == Undefined
    ensures data.Obj? ==> r == if k in data.fields then data.fields[k] else Undefined
    ensures Truthy(data) && !data.Obj? ==> r == Undefined
  {
    Prop(Or(data, Obj(map[])), k).value
  }

  /** The message handler's decision, from the `type` and `payload` fields. */
  function MessageAction(isAppSubdomain: bool, data: Value, now: nat): (r: Action)
    ensures var kind := MessageField(data, "type");
      && (r.Show? || r.Fault? <==> kind == Str(ShowType))
      && (r.ClearAll? <==> kind == Str(ClearType))
      && (r.Ignore? <==> kind != Str(ShowType) && kind != Str(ClearType))
    ensures var payload := MessageField(data, "payload");
      && (r.Fault? <==> MessageField(data, "type") == Str(ShowType) && Nullish(payload))
      && (r.Show? ==>
            && r.request.title == Prop(payload, "title").value
            && r.request.options.Keys == Spread(payload).Keys + DefaultKeys
            && (forall k :: k in Spread(payload) ==> r.request.options[k] == Spread(payload)[k])
            && (forall k :: k in DefaultKeys && k !in Spread(payload) ==>
                  r.request.options[k] == Defaults(isAppSubdomain, now)[k]))
  {
    var kind := MessageField(data, "type");
    var payload := MessageField(data, "payload");
    if kind == Str(ShowType) then
      if Nullish(payload) then Fault
      else Show(ShowRequest(Prop(payload, "title").value, Merge(Defaults(isAppSubdomain, now), Spread(payload))))
    else if kind == Str(ClearType) then ClearAll
    else Ignore
  }

  /** A message without data, or with falsy data, does nothing. */
  lemma MessageWithoutDataIsIgnored(isAppSubdomain: bool, data: Value, now: nat)
    requires !Truthy(data)
    ensures MessageAction(isAppSubdomain, data, now) == Ignore
  {
  }

  /** The two merges have opposite precedence: the same object payload that
      carries its own icon, badge and timestamp keeps them when it comes as a
      message, and loses icon and badge to the defaults when it comes as a push. */
  lemma OppositePrecedence(isAppSubdomain: bool, fields: map<string, Value>, now: nat)
    requires "icon" in fields && "badge" in fields && "timestamp" in fields
    requires Truthy(fields["timestamp"])
    ensures var push := PushRequest(isAppSubdomain, Some(Parsed(Obj(fields))), now).value;
      var message := MessageAction(isAppSubdomain, Obj(map["type" := Str(ShowType), "payload" := Obj(fields)]), now);
      && message.Show?
      && push.options["icon"] == Str(IconUrl(isAppSubdomain))
      && message.request.options["icon"] == fields["icon"]
      && push.options["badge"] == Str(BadgeUrl(isAppSubdomain))
      && message.request.options["badge"] == fields["badge"]
      && push.options["timestamp"] == message.request.options["timestamp"] == fields["timestamp"]
  {
  }

  /** The worker never supplies a title option itself. */
  lemma TitleIsNotDefault()
    ensures "title" !in DefaultKeys
  {
    assert "title"[0] != "icon"[0] && "title"[0] != "badge"[0] && |"title"| != |"timestamp"|;
  }

  /** A push payload that is a string or an array spreads only index keys: the
      notification gets the default title and the options carry no title. */
  lemma ArrayLikePushUsesDefaultTitle(isAppSubdomain: bool, d: Value, now: nat)
    requires d.Str? || d.Arr?
    ensures var r := PushRequest(isAppSubdomain, Some(Parsed(d)), now);
      && r.Some?
      && r.value.title == Str(DefaultTitle)
      && r.value.options["timestamp"] == Now(now)
      && "title" !in r.value.options
  {
    assert !IsDigits("title") by {
      assert "title"[0] == 't';
    }
    assert "title" !in Spread(d) by {
      if "title" in Spread(d) {
        SpreadKeys(d, "title");
      }
    }
    TitleIsNotDefault();
    var r := PushRequest(isAppSubdomain, Some(Parsed(d)), now);
    assert r.value.options.Keys == Spread(d).Keys + DefaultKeys;
  }

  /** An object push payload without a timestamp: its title, or the default
      title when it has none, the current time, and every field other than
      icon, badge and timestamp kept. */
  lemma PushObjectWithoutTimestamp(isAppSubdomain: bool, fields: map<string, Value>, now: nat)
    requires "timestamp" !in fields
    ensures var r := PushRequest(isAppSubdomain, Some(Parsed(Obj(fields))), now);
      && r.Some?
      && r.value.title == (if "title" in fields && Truthy(fields["title"]) then fields["title"] else Str(DefaultTitle))
      && r.value.options["icon"] == Str(IconUrl(isAppSubdomain))
      && r.value.options["badge"] == Str(BadgeUrl(isAppSubdomain))
      && r.value.options["timestamp"] == Now(now)
      && forall k :: k in fields && k !in DefaultKeys ==> r.value.options[k] == fields[k]
  {
    var d := Obj(fields);
    assert Spread(d) == fields;
    assert Prop(d, "timestamp") == Some(Undefined);
  }

  /** A push of `{"title": t}` for a non-empty `t`, such as `{"title": "Hi"}`, gives
      title `t`, non-empty icon and badge, timestamp now, and keeps the title option. */
  lemma PushTitleOnly(isAppSubdomain: bool, now: nat, t: string)
    requires t != ""
    ensures var r := PushRequest(isAppSubdomain, Some(Parsed(Obj(map["title" := Str(t)]))), now);
      && r.Some?
      && r.value.title == Str(t)
      && r.value.options["icon"].Str? && r.value.options["icon"].s != ""
      && r.value.options["badge"].Str? && r.value.options["badge"].s != ""
      && r.value.options["timestamp"] == Now(now)
      && r.value.options["title"] == Str(t)
  {
    var fields := map["title" := Str(t)];
    PushObjectWithoutTimestamp(isAppSubdomain, fields, now);
    TitleIsNotDefault();
    assert |IconUrl(isAppSubdomain)| > 0 && |BadgeUrl(isAppSubdomain)| > 0;
  }
}
