# App, Plan and Subscription store: a Dafny model

This project models the business core of a small SaaS backend: an in-memory
store of `App`, `Plan` and `Subscription` rows, the rule that saving a
subscription makes it the only possibly active one of its app and points the
app at it, the delete rules declared on the foreign keys, the field rules and
row shaping of the app serializer, and the ownership-gated request handlers
for apps and subscriptions.

- `common.dfy` (`Common`): `Option` and `Result`.
- `models.dfy` (`Models`): the rows, the database value `Db`, its consistency
  predicate (foreign keys resolve; at most one active subscription per app),
  the functions `Saved`, `AppDeleted` and `SubscriptionDeleted` that state what each write does,
  and the class `Store`, whose map fields are the tables and whose methods
  update them in place.
- `serializers.dfy` (`Serializers`): validation of app and subscription
  request bodies, the screenshot file name, `create` and `update` of an app
  row.
- `viewsets.dfy` (`Viewsets`): the ownership gate, `list` and `retrieve` as
  functions of the database, `create`, `update` and `destroy` as methods on
  the store, the corrected subscription create and update, and four client
  methods: one replays the two-subscription scenario, one a foreign user's
  subscription taking over an app, one the ownership and negative-key
  rejections, and one the refusal of a name holding a null character.

The caller of a handler is the user id its bearer token resolves to; it is a
parameter. The allowed `type` and `framework` values are a parameter
(`Choices`), since the constants file is not part of this model.

The system's documented behaviour describes a "subscription activation"
service and an ownership-gated HTTP surface. Where that documented
behaviour and the code disagree, the model follows the code:

- The documentation says a new subscription is inserted active. The code writes the
  `active` value the request carries; `Saved` keeps that value.
- The documentation says a non-null app pointer always names a subscription of that
  app. A subscription update that moves the row to another app leaves the old
  app pointing at it (`Models.PointerMayNameMovedSubscription`). What the code
  does maintain is that every pointer names an existing row (`Consistent`).
- The documentation says activation runs in one transaction and reports `NotFound`
  or a descriptive validation error. The code has no transaction around the
  save, and every validation failure surfaces as a 500 with a fixed message.
- The documentation deactivates only active rows; the code sets `active=False` on
  every row of the app. The effect is the same.

## Model

| member | source | states |
|---|---|---|
| `Models.Saved` | home/models.py:67-71 | after a save the written row carries the caller's own `active` flag; every other subscription of that app is inactive and loses nothing else, so only the saved row can be active; the app points at the saved row; other apps and other apps' subscriptions are unchanged |
| `Models.SavedConsistent` | home/models.py:67-71 | a save whose user, plan and app exist keeps every foreign key resolving and keeps at most one active subscription per app |
| `Models.SavedTwice` | home/models.py:67-71 | after two saves for the same app only the second row can be active, the first (if a different row) is inactive, and the app points at the second |
| `Models.PointerMayNameMovedSubscription` | home/models.py:67-71 | saving a subscription under a different app leaves its former app's pointer naming it, though it now belongs to another app |
| `Models.AppDeleted` | home/models.py:62 | deleting an app removes exactly the subscriptions of that app, keeps the others as they were, and nulls any remaining app's pointer to a removed subscription; nothing else changes |
| `Models.AppDeletedConsistent` | home/models.py:62 | deleting an app keeps every foreign key resolving and at most one active subscription per app |
| `Models.SubscriptionDeleted` | home/models.py:39 | deleting a subscription nulls exactly the app pointers that named it and changes nothing else |
| `Models.SubscriptionDeletedConsistent` | home/models.py:39 | deleting a subscription keeps the database consistent |
| `Models.Store.SaveSubscription` | home/models.py:67-71 | the tables after the method are `Saved` of the tables before; a new row takes the next key; the store stays consistent |
| `Models.Store.InsertApp` | home/api/v1/serializers.py:110 | a new app row is added under the next key and nothing else changes |
| `Models.Store.WriteApp` | home/api/v1/serializers.py:122 | an existing app row is overwritten and nothing else changes |
| `Models.Store.DeleteApp` | home/api/v1/viewsets.py:104 | the tables after the method are `AppDeleted` of the tables before, and stay consistent |
| `Models.Store.DeleteSubscription` | home/models.py:39 | the tables after the method are `SubscriptionDeleted` of the tables before, and stay consistent |
| `Serializers.ValidateType` | home/api/v1/serializers.py:88-91 | accepts a value exactly when it is an allowed app type and then returns it unchanged; otherwise the error names the value and the allowed list |
| `Serializers.ValidateFramework` | home/api/v1/serializers.py:94-97 | accepts a value exactly when it is an allowed framework and then returns it unchanged; otherwise the error names the value and the allowed list |
| `Serializers.ValidateApp` | home/api/v1/serializers.py:79-97 | an app body is accepted exactly when name, type and framework are present, non-blank and within 50, 6 and 12 characters, type and framework are allowed values, the domain name is within 50 characters, a given screenshot is not blank, no given name, description, type, framework, domain name or screenshot holds a null character, and any subscription or user it names exists; an accepted body is passed through unchanged; a well-formed but unknown type or framework is reported by value |
| `Serializers.ValidateSubscription` | home/api/v1/serializers.py:131-135 | a subscription body is accepted exactly when its user, plan and app exist and `active` is given; the accepted row is the body's values and its foreign keys resolve |
| `Serializers.LowerChar` | home/api/v1/serializers.py:107 | lower-casing maps each ASCII capital to the small letter 32 code points above it and leaves every other character as it is; hence the result is never an ASCII capital, letters stay letters and only a space maps to a space |
| `Serializers.Lower` | home/api/v1/serializers.py:107 | lower-casing a string keeps its length and lower-cases each character |
| `Serializers.Replace` | home/api/v1/serializers.py:107 | replacing one character by another keeps the length and changes exactly the positions that held it |
| `Serializers.ScreenshotName` | home/api/v1/serializers.py:107 | the screenshot name is the app name with spaces turned into underscores and ASCII letters lower-cased, followed by `_screenshot.png`; it contains no space and no capital |
| `Serializers.ScreenshotNameCollision` | home/api/v1/serializers.py:107 | two app names get the same screenshot name exactly when they agree up to ASCII case and space versus underscore |
| `Serializers.CreatedApp` | home/api/v1/serializers.py:100-111 | a created row copies name, type, description, framework, domain name and user from the validated data (null when absent), sets the derived screenshot name, and leaves the subscription pointer null whatever the request said |
| `Serializers.UpdatedApp` | home/api/v1/serializers.py:114-123 | update always overwrites name, type and framework, overwrites description and domain name only when the request has them, and never changes owner, screenshot or subscription pointer |
| `Serializers.UpdateIdempotent` | home/api/v1/serializers.py:114-123 | applying update twice with the same data gives the same row as applying it once |
| `Serializers.UpdateKeepsLinks` | home/api/v1/serializers.py:114-123 | an updated row's foreign keys resolve wherever the original's did |
| `Viewsets.Gate` | home/api/v1/viewsets.py:56-62 | a handler on one row proceeds exactly when the key is an integer naming an existing row owned by the caller; a non-integer key gives 500, a negative key or a missing row 404 (checked before ownership), another owner's row 403 |
| `Viewsets.AppList` | home/api/v1/viewsets.py:46-52 | listing returns exactly the apps whose owner is the caller, each as stored |
| `Viewsets.AppRetrieve` | home/api/v1/viewsets.py:54-65 | retrieve answers 200 with the stored row exactly when the caller owns an existing app under that key, and otherwise the gate's rejection |
| `Viewsets.SubscriptionList` | home/api/v1/viewsets.py:132-138 | listing returns exactly the subscriptions whose user is the caller, each as stored |
| `Viewsets.SubscriptionRetrieve` | home/api/v1/viewsets.py:140-151 | retrieve answers 200 with the stored row exactly when the caller owns an existing subscription under that key, and otherwise the gate's rejection |
| `Viewsets.AppCreate` | home/api/v1/viewsets.py:67-76 | the body is validated with the caller as user; a rejected body gives 500 and changes nothing; otherwise the shaped row, owned by the caller, is inserted under the next key and returned with 201; the app key counter advances exactly on 201 and the subscription key counter never |
| `Viewsets.AppUpdate` | home/api/v1/viewsets.py:78-93 | gate rejections and invalid bodies change nothing; otherwise the stored row becomes its update with the validated data and is returned with 200; no key counter moves |
| `Viewsets.AppDestroy` | home/api/v1/viewsets.py:95-107 | gate rejections change nothing; otherwise the app is deleted with its subscriptions (and pointers to them nulled) and the answer is 200; no key counter moves |
| `Viewsets.SubscriptionCreate` | home/api/v1/viewsets.py:153-163 | the body is validated with the caller as user; a rejected body gives 500 and changes nothing; otherwise the row, owned by the caller, is saved through the activation rule under the next key and returned with 201; the subscription key counter advances exactly on 201 and the app key counter never |
| `Viewsets.SubscriptionUpdate` | home/api/v1/viewsets.py:166-183 | gate rejections and invalid bodies change nothing; otherwise the row, with the caller as user, is saved under its key through the activation rule and returned with 200; no key counter moves |
| `Viewsets.ForeignAppTakeover` | home/api/v1/viewsets.py:153-163 | a subscription saved for an app its user does not own deactivates the owner's active subscription and repoints the owner's app at the new row |
| `Viewsets.SubscriptionCreateChecked` | home/api/v1/viewsets.py:153-163 | with an ownership check on the target app, a successful create changes no app and no subscription belonging to an app of another owner; a rejected one changes nothing; the subscription key counter advances exactly on 201 |
| `Viewsets.SubscriptionUpdateChecked` | home/api/v1/viewsets.py:166-183 | with an ownership check on the app the row is moved to, a successful update changes no app of another owner and no other user's subscription on such an app; a rejected one changes nothing; no key counter moves |

## Left out

- Token resolution and the `IsAuthenticated` permission: the caller is a given user id.
- Signup, login and password reset (`SignupSerializer`, `LoginViewSet`, `PasswordSerializer`, `UserSerializer`): they delegate to the identity library (email cleaning, uniqueness lookups, password hashing, username generation), which is not part of this model.
- `PlanViewSet`: a framework-provided read-only list and retrieve of plans; no plan is written by the modelled handlers.
- URL routing and `http_method_names`: no route deletes a subscription, so `Store.DeleteSubscription` is a standalone model of the SET_NULL rule that no modelled handler reaches. A PATCH on an app reaches the same update handler, whose own validation is not partial, so it behaves as the modelled PUT.
- Deleting users and plans (the CASCADE rules on `App.user`, `Subscription.user` and `Subscription.plan`): no modelled handler deletes them; users are a fixed set.
- Timestamps (`created_at`, `updated_at`): clock-dependent and irrelevant to the invariants.
- Transactions, locking and concurrent requests: `SaveSubscription` is one sequential step; nothing is claimed about interleaved saves or a failure half-way through.
- `Models.Store.SaveSubscription`: requires that the row's user, plan and app exist and that a given key names an existing row; the serializer guarantees the first, and no handler saves under a key that is not in the table.
- `App.save` of the cached app instance writes all of its columns; the model writes only the pointer, since the instance was read in the same request.
- `Serializers.LowerChar`: lower-cases ASCII letters only; other characters are left as they are rather than given full Unicode case mapping.
- Field coercion of the serializer framework (trimming whitespace, turning strings into numbers or booleans) and the request's `id` and timestamp keys, which are read-only. A request's `screenshot` is validated (it may not be blank) but never stored.
- The handlers validate the body twice (once themselves, once in the framework's create or update); both see the same data, so the model validates once.
- Exceptions other than a failed validation or a non-integer key (database errors, an immutable request body): they would also give 500 but are not modelled. The `print(e)` of the caught exception in `SubscriptionViewSet.update` (home/api/v1/viewsets.py:181-182) writes to standard output only and is not modelled.
- Response bodies are rows and message kinds, not JSON, and the different wordings of the 404 and 403 messages are one message kind each.
- `Viewsets.AppList`: returns the rows as a map keyed by id; the order of the query result is not modelled.
- `Viewsets.SubscriptionList`: returns the rows as a map keyed by id; the order of the query result is not modelled.

## Findings

| source | as written | input that shows it | evidently intended | confidence | as-written member | corrected member |
|---|---|---|---|---|---|---|
| home/api/v1/viewsets.py:153-163 | `SubscriptionViewSet.create` replaces the request's user with the caller but never checks who owns the app the request names | user 2 creates a subscription for app 1 owned by user 1, whose subscription is active: it becomes inactive and app 1 points at user 2's row (replayed through the handler in `Viewsets.ForeignTakeoverExample`) | answer 403 unless the caller owns the app, as every other handler does for the row it touches | medium, not executed | `Viewsets.ForeignAppTakeover` | `Viewsets.SubscriptionCreateChecked` |
| home/api/v1/viewsets.py:166-183 | `SubscriptionViewSet.update` checks that the caller owns the subscription but not the app the request moves it to | user 2 moves their own subscription onto app 1 owned by user 1: user 1's active subscription becomes inactive and app 1 points at user 2's row | answer 403 unless the caller owns the new app | medium, not executed | `Viewsets.ForeignAppTakeover` | `Viewsets.SubscriptionUpdateChecked` |
