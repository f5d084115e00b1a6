/**
 * The field rules and row shaping of `AppSerializer` and
 * `SubscriptionSerializer` (home/api/v1/serializers.py): length caps, the
 * choice checks of `validate_type` and `validate_framework`, the screenshot
 * file name built by `create`, and the selective overwrite of `update`.
 */
module Serializers {
  import opened Common
  import opened Models

  const NameMaxLength: nat := 50        // App.name
  const TypeMaxLength: nat := 6         // AppSerializer.type
  const FrameworkMaxLength: nat := 12   // AppSerializer.framework
  const DomainNameMaxLength: nat := 50  // App.domain_name
  const ScreenshotSuffix: string := "_screenshot.png"

  /** A key of the request body: missing, or present with a value. */
  datatype Field<T> = Absent | Present(value: T)

  /** `validated_data.get(key)` for a nullable field: null when absent. */
  function Get<T>(f: Field<Option<T>>): (r: Option<T>)
  {
    if f.Present? then f.value else None
  }

  /** The allowed values of `type` and `framework` (APP_CHOICES_LIST and
      FRAMEWORK_CHOICES_LIST; home/constants.py is not part of this model). */
  datatype Choices = Choices(appTypes: seq<string>, frameworks: seq<string>)

  datatype FieldName =
    | NameField | DescriptionField | TypeField | FrameworkField | DomainNameField | ScreenshotField
    | SubscriptionField | UserField | PlanField | AppField | ActiveField

  /** One entry of the serializer's error report. */
  datatype FieldError =
    | Required(field: FieldName)
    | Blank(field: FieldName)
    | TooLong(field: FieldName, maxLength: nat)
    | NullCharacter(field: FieldName)
    | NotAnAppType(value: string, valid: seq<string>)
    | NotAFramework(value: string, valid: seq<string>)
    | NoSuchRow(field: FieldName, key: nat)

  /** The body of an app request, as far as the serializer reads it. */
  datatype AppRequest = AppRequest(
    name: Field<string>,
    description: Field<Option<string>>,
    appType: Field<string>,
    framework: Field<string>,
    domainName: Field<Option<string>>,
    screenshot: Field<Option<string>>,
    subscription: Field<Option<SubscriptionId>>,
    user: Field<Option<UserId>>)

  /** `validated_data` of an accepted app request: the required fields are
      known to be there, the optional ones may still be absent. */
  datatype AppData = AppData(
    name: string,
    description: Field<Option<string>>,
    appType: string,
    framework: string,
    domainName: Field<Option<string>>,
    screenshot: Field<Option<string>>,
    subscription: Field<Option<SubscriptionId>>,
    user: Field<Option<UserId>>)

  /** The body of a subscription request. */
  datatype SubscriptionRequest = SubscriptionRequest(
    user: Field<UserId>,
    plan: Field<PlanId>,
    app: Field<AppId>,
    active: Field<bool>)

  /** `AppSerializer.validate_type`: the value itself, or an error naming
      it and the valid values. */
  function ValidateType(value: string, appTypes: seq<string>): (r: Result<string, FieldError>)
    ensures r.Success? <==> value in appTypes
    ensures r.Success? ==> r.value == value
    ensures r.Failure? ==> r.error == NotAnAppType(value, appTypes)
  {
    if value !in appTypes then Failure(NotAnAppType(value, appTypes)) else Success(value)
  }

  /** `AppSerializer.validate_framework`. */
  function ValidateFramework(value: string, frameworks: seq<string>): (r: Result<string, FieldError>)
    ensures r.Success? <==> value in frameworks
    ensures r.Success? ==> r.value == value
    ensures r.Failure? ==> r.error == NotAFramework(value, frameworks)
  {
    if value !in frameworks then Failure(NotAFramework(value, frameworks)) else Success(value)
  }

  /** The validators every character field runs on a non-blank value: the
      null-character check, and the length cap when the field has one. Each
      failing validator adds its own error. */
  function ValueErrors(field: FieldName, s: string, maxLength: Option<nat>): (r: seq<FieldError>)
  {
    (if maxLength.Some? && |s| > maxLength.value then [TooLong(field, maxLength.value)] else []) +
    (if '\0' in s then [NullCharacter(field)] else [])
  }

  /** The checks of a required, non-blank character field with a length cap. */
  function CharErrors(field: FieldName, f: Field<string>, maxLength: nat): (r: seq<FieldError>)
  {
    match f
    case Absent => [Required(field)]
    case Present(s) => if s == "" then [Blank(field)] else ValueErrors(field, s, Some(maxLength))
  }

  /** The checks of an optional, nullable character field: a blank value is
      an error unless `allowBlank`. */
  function NullableCharErrors(field: FieldName, f: Field<Option<string>>, maxLength: Option<nat>, allowBlank: bool)
    : (r: seq<FieldError>)
  {
    match f
    case Present(Some(s)) =>
      if s == "" then (if allowBlank then [] else [Blank(field)]) else ValueErrors(field, s, maxLength)
    case _ => []
  }

  /** The check of an optional, nullable foreign key: the row must exist. */
  function NullableKeyErrors(field: FieldName, f: Field<Option<nat>>, keys: set<nat>): (r: seq<FieldError>)
  {
    if f.Present? && f.value.Some? && f.value.value !in keys then [NoSuchRow(field, f.value.value)] else []
  }

  /** The check of a required foreign key. */
  function KeyErrors(field: FieldName, f: Field<nat>, keys: set<nat>): (r: seq<FieldError>)
  {
    match f
    case Absent => [Required(field)]
    case Present(k) => if k !in keys then [NoSuchRow(field, k)] else []
  }

  /** The `type` field: the length cap first, then `validate_type`. */
  function TypeErrors(f: Field<string>, choices: Choices): (r: seq<FieldError>)
  {
    var e := CharErrors(TypeField, f, TypeMaxLength);
    if e != [] then e
    else match ValidateType(f.value, choices.appTypes)
      case Success(_) => []
      case Failure(err) => [err]
  }

  /** The `framework` field: the length cap first, then `validate_framework`. */
  function FrameworkErrors(f: Field<string>, choices: Choices): (r: seq<FieldError>)
  {
    var e := CharErrors(FrameworkField, f, FrameworkMaxLength);
    if e != [] then e
    else match ValidateFramework(f.value, choices.frameworks)
      case Success(_) => []
      case Failure(err) => [err]
  }

  /** When an app request is acceptable, stated field by field. */
  ghost predicate AppAcceptable(data: AppRequest, choices: Choices, db: Db)
  {
    data.name.Present? && data.name.value != "" && |data.name.value| <= NameMaxLength &&
    '\0' !in data.name.value &&
    (data.description.Present? && data.description.value.Some? ==> '\0' !in data.description.value.value) &&
    data.appType.Present? && data.appType.value != "" && |data.appType.value| <= TypeMaxLength &&
    '\0' !in data.appType.value && data.appType.value in choices.appTypes &&
    data.framework.Present? && data.framework.value != "" && |data.framework.value| <= FrameworkMaxLength &&
    '\0' !in data.framework.value && data.framework.value in choices.frameworks &&
    (data.domainName.Present? && data.domainName.value.Some? ==>
       |data.domainName.value.value| <= DomainNameMaxLength && '\0' !in data.domainName.value.value) &&
    (data.screenshot.Present? && data.screenshot.value.Some? ==>
       data.screenshot.value.value != "" && '\0' !in data.screenshot.value.value) &&
    (data.subscription.Present? && data.subscription.value.Some? ==> data.subscription.value.value in db.subs) &&
    (data.user.Present? && data.user.value.Some? ==> data.user.value.value in db.users)
  }

  /** `AppSerializer.is_valid`: every field is checked and every failure
      reported; on success the validated data are the request's values. */
  function ValidateApp(data: AppRequest, choices: Choices, db: Db): (r: Result<AppData, seq<FieldError>>)
    ensures r.Success? <==> AppAcceptable(data, choices, db)
    ensures r.Failure? ==> r.error != []
    ensures r.Success? ==>
      r.value == AppData(data.name.value, data.description, data.appType.value, data.framework.value,
                         data.domainName, data.screenshot, data.subscription, data.user)
    // an accepted type or framework is one of the choices and within its cap
    ensures r.Success? ==>
      r.value.appType in choices.appTypes && |r.value.appType| <= TypeMaxLength &&
      r.value.framework in choices.frameworks && |r.value.framework| <= FrameworkMaxLength
    // a well-formed type outside the choices is reported by name
    ensures (data.appType.Present? && data.appType.value != "" && |data.appType.value| <= TypeMaxLength &&
             '\0' !in data.appType.value && data.appType.value !in choices.appTypes) ==>
      r.Failure? && NotAnAppType(data.appType.value, choices.appTypes) in r.error
    ensures (data.framework.Present? && data.framework.value != "" && |data.framework.value| <= FrameworkMaxLength &&
             '\0' !in data.framework.value && data.framework.value !in choices.frameworks) ==>
      r.Failure? && NotAFramework(data.framework.value, choices.frameworks) in r.error
  {
    var errors :=
      CharErrors(NameField, data.name, NameMaxLength) +
      NullableCharErrors(DescriptionField, data.description, None, true) +
      TypeErrors(data.appType, choices) +
      FrameworkErrors(data.framework, choices) +
      NullableCharErrors(DomainNameField, data.domainName, Some(DomainNameMaxLength), true) +
      NullableCharErrors(ScreenshotField, data.screenshot, None, false) +
      NullableKeyErrors(SubscriptionField, data.subscription, db.subs.Keys) +
      NullableKeyErrors(UserField, data.user, db.users);
    if errors != [] then Failure(errors)
    else Success(AppData(data.name.value, data.description, data.appType.value, data.framework.value,
                         data.domainName, data.screenshot, data.subscription, data.user))
  }

  /** `SubscriptionSerializer.is_valid`: user, plan and app must name
      existing rows and `active` must be given. */
  function ValidateSubscription(data: SubscriptionRequest, db: Db): (r: Result<Subscription, seq<FieldError>>)
    ensures r.Success? <==>
      data.user.Present? && data.user.value in db.users &&
      data.plan.Present? && data.plan.value in db.plans &&
      data.app.Present? && data.app.value in db.apps &&
      data.active.Present?
    ensures r.Failure? ==> r.error != []
    ensures r.Success? ==>
      r.value == Subscription(data.user.value, data.plan.value, data.app.value, data.active.value) &&
      SubscriptionLinked(db, r.value)
  {
    var errors :=
      KeyErrors(UserField, data.user, db.users) +
      KeyErrors(PlanField, data.plan, db.plans.Keys) +
      KeyErrors(AppField, data.app, db.apps.Keys) +
      (if data.active.Absent? then [Required(ActiveField)] else []);
    if errors != [] then Failure(errors)
    else Success(Subscription(data.user.value, data.plan.value, data.app.value, data.active.value))
  }

  /** `str.lower` on one character, for ASCII letters. */
  function LowerChar(c: char): (r: char)
    ensures 'A' <= c <= 'Z' ==> r as int == c as int - 'A' as int + 'a' as int
    ensures !('A' <= c <= 'Z') ==> r == c
    ensures !('A' <= r <= 'Z')
    ensures 'a' <= r <= 'z' <==> 'A' <= c <= 'Z' || 'a' <= c <= 'z'
    ensures r == ' ' <==> c == ' '
  {
    if 'A' <= c <= 'Z' then (c as int - 'A' as int + 'a' as int) as char else c
  }

  /** `s.lower()`. */
  function Lower(s: string): (r: string)
    ensures |r| == |s|
    ensures forall i :: 0 <= i < |s| ==> r[i] == LowerChar(s[i])
  {
    if s == [] then [] else [LowerChar(s[0])] + Lower(s[1..])
  }

  /** `s.replace(from, to)` for single characters. */
  function Replace(s: string, from: char, to: char): (r: string)
    ensures |r| == |s|
    ensures forall i :: 0 <= i < |s| ==> r[i] == if s[i] == from then to else s[i]
  {
    if s == [] then [] else [if s[0] == from then to else s[0]] + Replace(s[1..], from, to)
  }

  /** What one character of an app name becomes in its screenshot name. */
  function Folded(c: char): (r: char)
    ensures r != ' ' && !('A' <= r <= 'Z')
    ensures 'a' <= r <= 'z' <==> 'A' <= c <= 'Z' || 'a' <= c <= 'z'
  {
    LowerChar(if c == ' ' then '_' else c)
  }

  /** The screenshot file name `AppSerializer.create` derives from the app
      name. */
  function ScreenshotName(name: string): (r: string)
    ensures |r| == |name| + |ScreenshotSuffix|
    ensures forall i :: 0 <= i < |name| ==> r[i] == Folded(name[i])
    ensures r[|name|..] == ScreenshotSuffix
    ensures ' ' !in r
    ensures forall i :: 0 <= i < |r| ==> !('A' <= r[i] <= 'Z')
  {
    var base := Lower(Replace(name, ' ', '_'));
    assert forall i :: 0 <= i < |base| ==> base[i] == Folded(name[i]);
    assert forall i :: 0 <= i < |ScreenshotSuffix| ==> ScreenshotSuffix[i] != ' ' && !('A' <= ScreenshotSuffix[i] <= 'Z');
    base + ScreenshotSuffix
  }

  /** Two names give the same screenshot name exactly when they agree up to
      ASCII case and up to space versus underscore ("My App" and "my_app"). */
  lemma ScreenshotNameCollision(a: string, b: string)
    ensures ScreenshotName(a) == ScreenshotName(b) <==>
      |a| == |b| && forall i :: 0 <= i < |a| ==> Folded(a[i]) == Folded(b[i])
  {
  }

  /** `AppSerializer.create`: the new row before it is saved. */
  function CreatedApp(data: AppData): (r: App)
    ensures r.name == data.name && r.appType == data.appType && r.framework == data.framework
    ensures r.description == Get(data.description) && r.domainName == Get(data.domainName)
    ensures r.user == Get(data.user)
    // a `subscription` or `screenshot` in the request is not copied
    ensures r.subscription.None?
    ensures r.screenshot == Some(ScreenshotName(data.name))
  {
    App(
      name := data.name,
      appType := data.appType,
      description := Get(data.description),
      framework := data.framework,
      domainName := Get(data.domainName),
      screenshot := Some(ScreenshotName(data.name)),
      subscription := None,
      user := Get(data.user))
  }

  /** `AppSerializer.update`: name, type and framework are always
      overwritten; description and domain name only when the request has
      them. */
  function UpdatedApp(instance: App, data: AppData): (r: App)
    ensures r.name == data.name && r.appType == data.appType && r.framework == data.framework
    ensures r.description == if data.description.Present? then data.description.value else instance.description
    ensures r.domainName == if data.domainName.Present? then data.domainName.value else instance.domainName
    // owner, screenshot and subscription pointer are never touched
    ensures r.user == instance.user && r.screenshot == instance.screenshot
    ensures r.subscription == instance.subscription
  {
    var r := instance.(name := data.name, appType := data.appType, framework := data.framework);
    var r := if data.description.Present? then r.(description := data.description.value) else r;
    if data.domainName.Present? then r.(domainName := data.domainName.value) else r
  }

  /** Applying `update` twice with the same data is the same as once. */
  lemma UpdateIdempotent(instance: App, data: AppData)
    ensures UpdatedApp(UpdatedApp(instance, data), data) == UpdatedApp(instance, data)
  {
  }

  /** An updated app row keeps whatever foreign keys it had, so it stays
      linked in any database it was linked in. */
  lemma UpdateKeepsLinks(db: Db, instance: App, data: AppData)
    requires AppLinked(db, instance)
    ensures AppLinked(db, UpdatedApp(instance, data))
  {
  }
}
