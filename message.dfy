/** The `Message` class: construction with the "`to` XOR
    `registration_ids`" rule, the request payload (`body`) and the
    construction of a retry message. A message is never changed after
    construction, so it is modelled as a value. */
module Messages {
  import opened Values
  import opened Serialize

  const MissingTargetMsg: string := "You must provide \"registration_ids\" or \"to\""
  const ConflictingTargetMsg: string := "You must provide \"registration_ids\" or \"to\" no both"

  /** The payload keys that are not option fields. */
  const ReservedKeys: set<string> := {"to", "registration_ids", "notification", "data"}

  /** No option field collides with a reserved payload key, so
      `payload.update(options.data)` never overwrites one. */
  lemma ReservedKeysAreNotOptions()
    ensures ReservedKeys !! OptionsFields
  {
  }

  /** The attributes `_to`, `_registration_ids`, `_data`, `_notif`, `_opt`. */
  datatype RawMessage = RawMessage(
    to: Option<string>,
    registrationIds: Option<seq<string>>,
    data: Option<map<string, Value>>,
    notif: Option<Notification>,
    opt: Option<Options>)
  {
    /** `self._to` is truthy. */
    predicate HasTo() { TruthyString(to) }

    /** `self._registration_ids` is truthy. */
    predicate HasRegistrationIds() { TruthyList(registrationIds) }

    /** `self._data` is truthy. */
    predicate HasData() { data.Some? && data.value != map[] }

    /** What every constructed message satisfies: exactly one truthy
        target, and notification/options built by their constructors. */
    predicate Valid() {
      && HasTo() != HasRegistrationIds()
      && (notif.Some? ==> notif.value.WellFormed())
      && (opt.Some? ==> opt.value.WellFormed())
    }
  }

  /** Truthiness of an optional string: `None` and `''` are false. */
  predicate TruthyString(s: Option<string>) { s.Some? && s.value != "" }

  /** Truthiness of an optional list: `None` and `[]` are false. */
  predicate TruthyList<T>(l: Option<seq<T>>) { l.Some? && l.value != [] }

  /** A message that `Message.__init__` has accepted. */
  type Message = m: RawMessage | m.Valid() witness RawMessage(Some("/topics/t"), None, None, None, None)

  /** The registration tokens as a payload list. */
  function Tokens(ids: seq<string>): (v: Value)
    ensures v.List? && |v.items| == |ids|
    ensures forall i :: 0 <= i < |ids| ==> v.items[i] == Str(ids[i])
  {
    List(seq(|ids|, i requires 0 <= i < |ids| => Str(ids[i])))
  }

  /** `Message(to, registration_ids, data, notification, options)`, where
      `notification` and `options` are keyword dictionaries. */
  function NewMessage(
    to: Option<string>,
    registrationIds: Option<seq<string>>,
    data: Option<map<string, Value>>,
    notification: Option<map<string, Value>>,
    options: Option<map<string, Value>>): (r: Outcome<Message>)
    ensures !TruthyString(to) && !TruthyList(registrationIds) ==> r == Raised(ValueError(MissingTargetMsg))
    ensures TruthyString(to) && TruthyList(registrationIds) ==> r == Raised(ValueError(ConflictingTargetMsg))
    ensures r.Ok? <==>
              && TruthyString(to) != TruthyList(registrationIds)
              && (notification.Some? ==> notification.value.Keys <= NotificationFields)
              && (options.Some? ==> options.value.Keys <= OptionsFields)
    ensures r.Raised? && TruthyString(to) != TruthyList(registrationIds) ==> r.error.TypeError?
    ensures r.Ok? ==>
              && r.value.to == to
              && r.value.registrationIds == registrationIds
              && r.value.data == data
              && (r.value.notif.Some? <==> notification.Some?)
              && (notification.Some? ==> r.value.notif.value.Data() == InnerData(notification.value))
              && (r.value.opt.Some? <==> options.Some?)
              && (options.Some? ==> r.value.opt.value.Data() == InnerData(options.value))
  {
    var hasTo := TruthyString(to);
    var hasIds := TruthyList(registrationIds);
    if !hasTo && !hasIds then
      Raised(ValueError(MissingTargetMsg))
    else if hasTo && hasIds then
      Raised(ValueError(ConflictingTargetMsg))
    else
      var notif := if notification.Some? then Some(NewNotification(notification.value)) else None;
      var opt := if options.Some? then Some(NewOptions(options.value)) else None;
      if notif.Some? && notif.value.Raised? then
        Raised(notif.value.error)
      else if opt.Some? && opt.value.Raised? then
        Raised(opt.value.error)
      else
        Ok(RawMessage(
             to, registrationIds, data,
             if notif.Some? then Some(notif.value.value) else None,
             if opt.Some? then Some(opt.value.value) else None))
  }

  /** The one target key of the payload. */
  function TargetPart(m: Message): (p: map<string, Value>)
    ensures ("to" in p) <==> m.HasTo()
    ensures "to" in p ==> p["to"] == Str(m.to.value)
    ensures ("registration_ids" in p) <==> m.HasRegistrationIds()
    ensures "registration_ids" in p ==> p["registration_ids"] == Tokens(m.registrationIds.value)
    ensures p.Keys <= {"to", "registration_ids"}
  {
    if m.HasTo() then map["to" := Str(m.to.value)]
    else map["registration_ids" := Tokens(m.registrationIds.value)]
  }

  /** The notification, nested under its own key. */
  function NotificationPart(m: Message): (p: map<string, Value>)
    ensures p.Keys <= {"notification"}
  {
    if m.notif.Some? then map["notification" := Object(m.notif.value.Data())] else map[]
  }

  /** The option fields, flattened to the top level. */
  function OptionsPart(m: Message): (p: map<string, Value>)
    ensures p.Keys <= OptionsFields
  {
    if m.opt.Some? then m.opt.value.Data() else map[]
  }

  /** The custom data, when there is any. */
  function DataPart(m: Message): (p: map<string, Value>)
    ensures p.Keys <= {"data"}
  {
    if m.HasData() then map["data" := Object(m.data.value)] else map[]
  }

  /** The payload, as a union of its parts: the one target, the nested
      notification, the flattened options and the custom data. */
  function BodyOf(m: Message): (p: map<string, Value>)
    ensures ("to" in p) != ("registration_ids" in p)
    ensures ("to" in p) <==> m.HasTo()
    ensures "to" in p ==> p["to"] == Str(m.to.value)
    ensures ("registration_ids" in p) <==> m.HasRegistrationIds()
    ensures "registration_ids" in p ==> p["registration_ids"] == Tokens(m.registrationIds.value)
    ensures ("notification" in p) <==> m.notif.Some?
    ensures "notification" in p ==> p["notification"] == Object(m.notif.value.Data())
    ensures ("data" in p) <==> m.HasData()
    ensures "data" in p ==> p["data"] == Object(m.data.value)
  {
    ReservedKeysAreNotOptions();
    TargetPart(m) + NotificationPart(m) + OptionsPart(m) + DataPart(m)
  }

  /** Every truthy option field sits at the top level of the payload, and
      every payload key other than the four reserved ones is such a field. */
  lemma OptionsAreFlattened(m: Message)
    ensures forall k :: k in BodyOf(m) && k !in ReservedKeys ==>
              k in OptionsFields && m.opt.Some? && k in m.opt.value.Data() && BodyOf(m)[k] == m.opt.value.Data()[k]
    ensures m.opt.Some? ==>
              forall k :: k in m.opt.value.Data() ==> k in BodyOf(m) && BodyOf(m)[k] == m.opt.value.Data()[k]
  {
    ReservedKeysAreNotOptions();
  }

  /** `Message.body`: the payload assembled key by key. */
  method Body(m: Message) returns (payload: map<string, Value>)
    ensures payload == BodyOf(m)
  {
    payload := map[];
    if m.to.Some? && m.to.value != "" {
      payload := payload["to" := Str(m.to.value)];
    }
    if m.registrationIds.Some? && m.registrationIds.value != [] {
      payload := payload["registration_ids" := Tokens(m.registrationIds.value)];
    }
    assert payload == TargetPart(m);
    ghost var target := payload;
    if m.notif.Some? {
      payload := payload["notification" := Object(m.notif.value.Data())];
    }
    assert payload == target + NotificationPart(m);
    ghost var withNotification := payload;
    if m.opt.Some? {
      payload := payload + m.opt.value.Data();
    }
    assert payload == withNotification + OptionsPart(m);
    ghost var withOptions := payload;
    if m.data.Some? && m.data.value != map[] {
      payload := payload["data" := Object(m.data.value)];
    }
    assert payload == withOptions + DataPart(m);
  }

  /** `Message.build_retry_message(message, registration_ids)`. */
  function BuildRetryMessage(message: Message, registrationIds: seq<string>): (r: Outcome<Message>)
    ensures r.Ok? <==> registrationIds != []
    ensures r.Raised? ==> r.error == ValueError(MissingTargetMsg)
    ensures r.Ok? ==>
              && r.value.to == None
              && r.value.registrationIds == Some(registrationIds)
              && r.value.data == message.data
  {
    NewMessage(
      None,
      Some(registrationIds),
      message.data,
      if message.notif.Some? then Some(message.notif.value.Data()) else None,
      if message.opt.Some? then Some(message.opt.value.Data()) else None)
  }

  /** Swapping the target of a payload `t + n + o + d` whose other parts
      do not use the target keys. */
  lemma SwapTarget(t: map<string, Value>, n: map<string, Value>, o: map<string, Value>,
                   d: map<string, Value>, ids: Value)
    requires t.Keys <= {"to", "registration_ids"}
    requires "to" !in n && "to" !in o && "to" !in d
    requires "registration_ids" !in n && "registration_ids" !in o && "registration_ids" !in d
    ensures (t + n + o + d - {"to"})["registration_ids" := ids]
            == map["registration_ids" := ids] + n + o + d
  {
    var lhs := (t + n + o + d - {"to"})["registration_ids" := ids];
    var rhs := map["registration_ids" := ids] + n + o + d;
    assert lhs.Keys == rhs.Keys;
  }

  /** The retry message's payload is made of the new target and the
      original notification, options and data parts. */
  lemma RetryParts(message: Message, registrationIds: seq<string>)
    requires registrationIds != []
    ensures BuildRetryMessage(message, registrationIds).Ok?
    ensures BodyOf(BuildRetryMessage(message, registrationIds).value)
            == map["registration_ids" := Tokens(registrationIds)]
               + NotificationPart(message) + OptionsPart(message) + DataPart(message)
  {
    var retry := BuildRetryMessage(message, registrationIds).value;
    if message.notif.Some? {
      NotificationRoundTrip(message.notif.value);
    }
    if message.opt.Some? {
      OptionsRoundTrip(message.opt.value);
    }
    assert TargetPart(retry) == map["registration_ids" := Tokens(registrationIds)];
    assert NotificationPart(retry) == NotificationPart(message);
    assert OptionsPart(retry) == OptionsPart(message);
    assert DataPart(retry) == DataPart(message);
  }

  /** The retry message's payload is the original payload with `to`
      dropped and `registration_ids` replaced by the new recipients. */
  lemma RetryBody(message: Message, registrationIds: seq<string>)
    requires registrationIds != []
    ensures BuildRetryMessage(message, registrationIds).Ok?
    ensures BodyOf(BuildRetryMessage(message, registrationIds).value)
            == (BodyOf(message) - {"to"})["registration_ids" := Tokens(registrationIds)]
  {
    RetryParts(message, registrationIds);
    ReservedKeysAreNotOptions();
    SwapTarget(TargetPart(message), NotificationPart(message), OptionsPart(message), DataPart(message),
               Tokens(registrationIds));
  }

  /** Retrying a `registration_ids` message with its own recipients
      reproduces its payload exactly. */
  lemma RetryWithSameRecipients(message: Message)
    requires message.HasRegistrationIds()
    ensures BuildRetryMessage(message, message.registrationIds.value).Ok?
    ensures BodyOf(BuildRetryMessage(message, message.registrationIds.value).value) == BodyOf(message)
  {
    RetryParts(message, message.registrationIds.value);
    assert TargetPart(message) == map["registration_ids" := Tokens(message.registrationIds.value)];
  }
}
