/** The `Notification` and `Options` value objects and the mixin that
    serialises them (`InnerDictSerializeMixin.data`). An instance is
    modelled by its attribute dictionary (`__dict__`), whose keys are
    exactly the keyword parameters of the class's constructor. */
module Serialize {
  import opened Values

  /** Keyword parameters of `Notification.__init__`. */
  const NotificationFields: set<string> :=
    {"title", "body", "icon", "sound", "badge", "tag", "color", "click_action",
     "body_loc_key", "body_loc_args", "title_loc_key", "title_loc_args"}

  /** Keyword parameters of `Options.__init__`. */
  const OptionsFields: set<string> :=
    {"collapse_key", "priority", "content_available", "delay_while_idle",
     "time_to_live", "delivery_receipt_requested", "dry_run",
     "restricted_package_name"}

  /** The mixin's `data` property: the attributes whose values are truthy. */
  function InnerData(attrs: map<string, Value>): (d: map<string, Value>)
    ensures forall k :: k in d <==> k in attrs && Truthy(attrs[k])
    ensures forall k :: k in d ==> d[k] == attrs[k]
  {
    map k | k in attrs && Truthy(attrs[k]) :: attrs[k]
  }

  /** Python's binding of `Cls(**kwargs)` for a constructor whose keyword
      parameters are `fields`, each defaulting to `None` and stored as an
      attribute of the same name. */
  function Bind(fields: set<string>, kwargs: map<string, Value>, owner: string): (r: Outcome<map<string, Value>>)
    ensures r.Ok? <==> kwargs.Keys <= fields
    ensures r.Raised? ==> r.error == TypeError(owner)
    ensures r.Ok? ==> r.value.Keys == fields
    ensures r.Ok? ==> forall k :: k in kwargs ==> r.value[k] == kwargs[k]
    ensures r.Ok? ==> forall k :: k in fields && k !in kwargs ==> r.value[k] == Null
  {
    if kwargs.Keys <= fields then
      Ok(map k | k in fields :: if k in kwargs then kwargs[k] else Null)
    else
      Raised(TypeError(owner))
  }

  /** Serialising is idempotent: `InnerData` of a serialised map is that map. */
  lemma DataIdempotent(attrs: map<string, Value>)
    ensures InnerData(InnerData(attrs)) == InnerData(attrs)
  {
    assert InnerData(InnerData(attrs)).Keys == InnerData(attrs).Keys;
  }

  /** A `Notification` instance. */
  datatype Notification = Notification(attrs: map<string, Value>) {
    predicate WellFormed() { attrs.Keys == NotificationFields }
    function Data(): map<string, Value> { InnerData(attrs) }
  }

  /** An `Options` instance. */
  datatype Options = Options(attrs: map<string, Value>) {
    predicate WellFormed() { attrs.Keys == OptionsFields }
    function Data(): map<string, Value> { InnerData(attrs) }
  }

  /** `Notification(**kwargs)`. */
  function NewNotification(kwargs: map<string, Value>): (r: Outcome<Notification>)
    ensures r.Ok? <==> kwargs.Keys <= NotificationFields
    ensures r.Raised? ==> r.error == TypeError("Notification")
    ensures r.Ok? ==> r.value.WellFormed() && r.value.Data() == InnerData(kwargs)
  {
    match Bind(NotificationFields, kwargs, "Notification")
    case Ok(attrs) =>
      assert InnerData(attrs) == InnerData(kwargs) by {
        assert InnerData(attrs).Keys == InnerData(kwargs).Keys;
      }
      Ok(Notification(attrs))
    case Raised(e) => Raised(e)
  }

  /** `Options(**kwargs)`. */
  function NewOptions(kwargs: map<string, Value>): (r: Outcome<Options>)
    ensures r.Ok? <==> kwargs.Keys <= OptionsFields
    ensures r.Raised? ==> r.error == TypeError("Options")
    ensures r.Ok? ==> r.value.WellFormed() && r.value.Data() == InnerData(kwargs)
  {
    match Bind(OptionsFields, kwargs, "Options")
    case Ok(attrs) =>
      assert InnerData(attrs) == InnerData(kwargs) by {
        assert InnerData(attrs).Keys == InnerData(kwargs).Keys;
      }
      Ok(Options(attrs))
    case Raised(e) => Raised(e)
  }

  /** Rebuilding a notification from its `.data` keeps its `.data`. */
  lemma NotificationRoundTrip(n: Notification)
    requires n.WellFormed()
    ensures NewNotification(n.Data()).Ok?
    ensures NewNotification(n.Data()).value.Data() == n.Data()
  {
    DataIdempotent(n.attrs);
  }

  /** Rebuilding options from their `.data` keeps their `.data`. */
  lemma OptionsRoundTrip(o: Options)
    requires o.WellFormed()
    ensures NewOptions(o.Data()).Ok?
    ensures NewOptions(o.Data()).value.Data() == o.Data()
  {
    DataIdempotent(o.attrs);
  }
}
