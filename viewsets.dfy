/**
 * The request handlers of `AppViewSet` and `SubscriptionViewSet`
 * (home/api/v1/viewsets.py).  The caller is the user id the bearer token
 * resolves to.  Every handler on one row first looks it up (404 when it is
 * missing), then compares its owner with the caller (403 when they differ),
 * and only then acts; any exception inside a handler, a failed validation
 * included, becomes a 500 with a fixed message.  Reads are functions of the
 * database; writes are methods on the store.
 */
module Viewsets {
  import opened Common
  import opened Models
  import opened Serializers

  const Ok: nat := 200
  const Created: nat := 201
  const Forbidden: nat := 403
  const NotFound: nat := 404
  const ServerError: nat := 500

  /** The `pk` segment of the URL: an integer, possibly negative, or text
      the ORM cannot convert to one (its lookup then raises). */
  datatype Key = Id(n: int) | Malformed

  datatype Message =
    | NoSuchRowMessage(pk: int)
    | NotOwnerMessage(pk: int)
    | InternalError
    | AppDeletedMessage

  datatype Body =
    | Text(message: Message)
    | AppBody(id: AppId, app: App)
    | AppsBody(apps: map<AppId, App>)
    | SubscriptionBody(id: SubscriptionId, sub: Subscription)
    | SubscriptionsBody(subs: map<SubscriptionId, Subscription>)

  datatype Response = Response(status: nat, body: Body)

  /** The catch-all answer of every guarded handler. */
  const Failed := Response(ServerError, Text(InternalError))

  /** The owner of each app row. */
  function AppOwners(db: Db): (r: map<nat, Option<UserId>>)
  {
    map a | a in db.apps :: db.apps[a].user
  }

  /** The owner of each subscription row. */
  function SubscriptionOwners(db: Db): (r: map<nat, Option<UserId>>)
  {
    map k | k in db.subs :: Some(db.subs[k].user)
  }

  /** The ownership guard of retrieve, update and destroy: a rejection, or
      None when the caller owns the row.  The missing-row check comes first,
      so a caller learns nothing more than 404 about keys that do not exist;
      a negative key names no row. */
  function Gate(owners: map<nat, Option<UserId>>, caller: UserId, pk: Key): (r: Option<Response>)
    ensures r.None? <==> pk.Id? && pk.n >= 0 && pk.n as nat in owners && owners[pk.n as nat] == Some(caller)
    ensures pk.Malformed? ==> r == Some(Failed)
    ensures pk.Id? && (pk.n < 0 || pk.n as nat !in owners) ==>
      r == Some(Response(NotFound, Text(NoSuchRowMessage(pk.n))))
    ensures pk.Id? && pk.n >= 0 && pk.n as nat in owners && owners[pk.n as nat] != Some(caller) ==>
      r == Some(Response(Forbidden, Text(NotOwnerMessage(pk.n))))
  {
    match pk
    case Malformed => Some(Failed)
    case Id(n) =>
      if n < 0 || n as nat !in owners then Some(Response(NotFound, Text(NoSuchRowMessage(n))))
      else if owners[n as nat] != Some(caller) then Some(Response(Forbidden, Text(NotOwnerMessage(n))))
      else None
  }

  /** `AppViewSet.list`: exactly the caller's apps. */
  function AppList(db: Db, caller: UserId): (r: Response)
    ensures r.status == Ok && r.body.AppsBody?
    ensures forall a :: a in r.body.apps <==> a in db.apps && db.apps[a].user == Some(caller)
    ensures forall a :: a in r.body.apps ==> r.body.apps[a] == db.apps[a]
  {
    Response(Ok, AppsBody(map a | a in db.apps && db.apps[a].user == Some(caller) :: db.apps[a]))
  }

  /** `AppViewSet.retrieve`. */
  function AppRetrieve(db: Db, caller: UserId, pk: Key): (r: Response)
    ensures r.status == Ok <==> pk.Id? && pk.n >= 0 && pk.n as nat in db.apps && db.apps[pk.n as nat].user == Some(caller)
    ensures r.status == Ok ==> r.body == AppBody(pk.n as nat, db.apps[pk.n as nat])
    ensures r.status != Ok ==> Gate(AppOwners(db), caller, pk) == Some(r)
  {
    match Gate(AppOwners(db), caller, pk)
    case Some(rejection) => rejection
    case None => Response(Ok, AppBody(pk.n as nat, db.apps[pk.n as nat]))
  }

  /** `SubscriptionViewSet.list`: exactly the caller's subscriptions. */
  function SubscriptionList(db: Db, caller: UserId): (r: Response)
    ensures r.status == Ok && r.body.SubscriptionsBody?
    ensures forall k :: k in r.body.subs <==> k in db.subs && db.subs[k].user == caller
    ensures forall k :: k in r.body.subs ==> r.body.subs[k] == db.subs[k]
  {
    Response(Ok, SubscriptionsBody(map k | k in db.subs && db.subs[k].user == caller :: db.subs[k]))
  }

  /** `SubscriptionViewSet.retrieve`. */
  function SubscriptionRetrieve(db: Db, caller: UserId, pk: Key): (r: Response)
    ensures r.status == Ok <==> pk.Id? && pk.n >= 0 && pk.n as nat in db.subs && db.subs[pk.n as nat].user == caller
    ensures r.status == Ok ==> r.body == SubscriptionBody(pk.n as nat, db.subs[pk.n as nat])
    ensures r.status != Ok ==> Gate(SubscriptionOwners(db), caller, pk) == Some(r)
  {
    match Gate(SubscriptionOwners(db), caller, pk)
    case Some(rejection) => rejection
    case None => Response(Ok, SubscriptionBody(pk.n as nat, db.subs[pk.n as nat]))
  }

  /** `AppViewSet.create`: the request's `user` is replaced by the caller,
      the body validated, and the shaped row inserted. */
  method AppCreate(store: Store, caller: UserId, data: AppRequest, choices: Choices) returns (resp: Response)
    requires store.Valid()
    modifies store
    ensures store.Valid()
    ensures var v := ValidateApp(data.(user := Present(Some(caller))), choices, old(store.State()));
      if v.Failure? then resp == Failed && unchanged(store)
      else
        var id, app := old(store.nextAppId), CreatedApp(v.value);
        resp == Response(Created, AppBody(id, app)) &&
        store.State() == old(store.State()).(apps := old(store.apps)[id := app])
    // the new app belongs to the caller, whatever the request named
    ensures resp.status == Created ==> resp.body.app.user == Some(caller)
    ensures resp.status != Created ==> unchanged(store)
    ensures store.nextAppId == if resp.status == Created then old(store.nextAppId) + 1 else old(store.nextAppId)
    ensures store.nextSubscriptionId == old(store.nextSubscriptionId)
  {
    var v := ValidateApp(data.(user := Present(Some(caller))), choices, store.State());
    if v.Failure? {
      return Failed;
    }
    var app := CreatedApp(v.value);
    var id := store.InsertApp(app);
    resp := Response(Created, AppBody(id, app));
  }

  /** `AppViewSet.update`: guard, validate, then `AppSerializer.update` on
      the stored row. */
  method AppUpdate(store: Store, caller: UserId, pk: Key, data: AppRequest, choices: Choices) returns (resp: Response)
    requires store.Valid()
    modifies store
    ensures store.Valid()
    ensures var db := old(store.State());
      match Gate(AppOwners(db), caller, pk)
      case Some(rejection) => resp == rejection && unchanged(store)
      case None =>
        var v := ValidateApp(data, choices, db);
        if v.Failure? then resp == Failed && unchanged(store)
        else
          var app := UpdatedApp(db.apps[pk.n as nat], v.value);
          resp == Response(Ok, AppBody(pk.n as nat, app)) && store.State() == db.(apps := db.apps[pk.n as nat := app])
    ensures resp.status != Ok ==> unchanged(store)
    ensures store.nextAppId == old(store.nextAppId) && store.nextSubscriptionId == old(store.nextSubscriptionId)
  {
    var gate := Gate(AppOwners(store.State()), caller, pk);
    if gate.Some? {
      return gate.value;
    }
    var v := ValidateApp(data, choices, store.State());
    if v.Failure? {
      return Failed;
    }
    var app := UpdatedApp(store.apps[pk.n as nat], v.value);
    UpdateKeepsLinks(store.State(), store.apps[pk.n as nat], v.value);
    store.WriteApp(pk.n as nat, app);
    resp := Response(Ok, AppBody(pk.n as nat, app));
  }

  /** `AppViewSet.destroy`: guard, then delete the app with its
      subscriptions. */
  method AppDestroy(store: Store, caller: UserId, pk: Key) returns (resp: Response)
    requires store.Valid()
    modifies store
    ensures store.Valid()
    ensures var db := old(store.State());
      match Gate(AppOwners(db), caller, pk)
      case Some(rejection) => resp == rejection && unchanged(store)
      case None => resp == Response(Ok, Text(AppDeletedMessage)) && store.State() == AppDeleted(db, pk.n as nat)
    ensures resp.status != Ok ==> unchanged(store)
    ensures store.nextAppId == old(store.nextAppId) && store.nextSubscriptionId == old(store.nextSubscriptionId)
  {
    var gate := Gate(AppOwners(store.State()), caller, pk);
    if gate.Some? {
      return gate.value;
    }
    store.DeleteApp(pk.n as nat);
    resp := Response(Ok, Text(AppDeletedMessage));
  }

  /** `SubscriptionViewSet.create`: the request's `user` is replaced by the
      caller, the body validated, and the row saved through
      `Subscription.save`.  The app named in the request is not checked
      against the caller. */
  method SubscriptionCreate(store: Store, caller: UserId, data: SubscriptionRequest) returns (resp: Response)
    requires store.Valid()
    modifies store
    ensures store.Valid()
    ensures var v := ValidateSubscription(data.(user := Present(caller)), old(store.State()));
      if v.Failure? then resp == Failed && unchanged(store)
      else
        var id := old(store.nextSubscriptionId);
        resp == Response(Created, SubscriptionBody(id, v.value)) &&
        store.State() == Saved(old(store.State()), id, v.value)
    // the new subscription belongs to the caller, whatever the request named
    ensures resp.status == Created ==> resp.body.sub.user == caller
    ensures resp.status != Created ==> unchanged(store)
    ensures store.nextSubscriptionId ==
      if resp.status == Created then old(store.nextSubscriptionId) + 1 else old(store.nextSubscriptionId)
    ensures store.nextAppId == old(store.nextAppId)
  {
    var v := ValidateSubscription(data.(user := Present(caller)), store.State());
    if v.Failure? {
      return Failed;
    }
    var id := store.SaveSubscription(v.value, None);
    resp := Response(Created, SubscriptionBody(id, v.value));
  }

  /** `SubscriptionViewSet.update`: guard, replace the request's `user` by
      the caller, validate, and save the row under its key. */
  method SubscriptionUpdate(store: Store, caller: UserId, pk: Key, data: SubscriptionRequest) returns (resp: Response)
    requires store.Valid()
    modifies store
    ensures store.Valid()
    ensures var db := old(store.State());
      match Gate(SubscriptionOwners(db), caller, pk)
      case Some(rejection) => resp == rejection && unchanged(store)
      case None =>
        var v := ValidateSubscription(data.(user := Present(caller)), db);
        if v.Failure? then resp == Failed && unchanged(store)
        else resp == Response(Ok, SubscriptionBody(pk.n as nat, v.value)) && store.State() == Saved(db, pk.n as nat, v.value)
    ensures resp.status == Ok ==> resp.body.sub.user == caller
    ensures resp.status != Ok ==> unchanged(store)
    ensures store.nextAppId == old(store.nextAppId) && store.nextSubscriptionId == old(store.nextSubscriptionId)
  {
    var gate := Gate(SubscriptionOwners(store.State()), caller, pk);
    if gate.Some? {
      return gate.value;
    }
    var v := ValidateSubscription(data.(user := Present(caller)), store.State());
    if v.Failure? {
      return Failed;
    }
    var id := store.SaveSubscription(v.value, Some(pk.n as nat));
    resp := Response(Ok, SubscriptionBody(id, v.value));
  }

  /** As written, a subscription saved by one user for an app owned by
      another deactivates that owner's active subscription and repoints
      their app at the new one. */
  lemma ForeignAppTakeover(db: Db, id: SubscriptionId, row: Subscription, k: SubscriptionId)
    requires row.app in db.apps && db.apps[row.app].user != Some(row.user)
    requires k in db.subs && k != id && db.subs[k].app == row.app && db.subs[k].active
    ensures var r := Saved(db, id, row);
      k in r.subs && !r.subs[k].active &&
      r.apps[row.app].subscription == Some(id) && r.subs[id].user == row.user &&
      r.apps[row.app].user != Some(r.subs[id].user)
  {
  }

  /** `SubscriptionViewSet.create` with the ownership check the other
      handlers apply: a subscription may only be created for an app the
      caller owns. */
  method SubscriptionCreateChecked(store: Store, caller: UserId, data: SubscriptionRequest) returns (resp: Response)
    requires store.Valid()
    modifies store
    ensures store.Valid()
    ensures var v := ValidateSubscription(data.(user := Present(caller)), old(store.State()));
      if v.Failure? then resp == Failed && unchanged(store)
      else if old(store.apps)[v.value.app].user != Some(caller) then
        resp == Response(Forbidden, Text(NotOwnerMessage(v.value.app))) && unchanged(store)
      else
        var id := old(store.nextSubscriptionId);
        resp == Response(Created, SubscriptionBody(id, v.value)) &&
        store.State() == Saved(old(store.State()), id, v.value)
    // no row of an app owned by someone else changes
    ensures forall a :: a in old(store.apps) && old(store.apps)[a].user != Some(caller) ==>
      a in store.apps && store.apps[a] == old(store.apps)[a]
    ensures forall k ::
      (k in old(store.subs) && old(store.subs)[k].app in old(store.apps) &&
       old(store.apps)[old(store.subs)[k].app].user != Some(caller)) ==>
      k in store.subs && store.subs[k] == old(store.subs)[k]
    ensures resp.status != Created ==> unchanged(store)
    ensures store.nextSubscriptionId ==
      if resp.status == Created then old(store.nextSubscriptionId) + 1 else old(store.nextSubscriptionId)
    ensures store.nextAppId == old(store.nextAppId)
  {
    var v := ValidateSubscription(data.(user := Present(caller)), store.State());
    if v.Failure? {
      return Failed;
    }
    if store.apps[v.value.app].user != Some(caller) {
      return Response(Forbidden, Text(NotOwnerMessage(v.value.app)));
    }
    var id := store.SaveSubscription(v.value, None);
    resp := Response(Created, SubscriptionBody(id, v.value));
  }

  /** `SubscriptionViewSet.update` with the same ownership check on the
      app the row is moved to. */
  method SubscriptionUpdateChecked(store: Store, caller: UserId, pk: Key, data: SubscriptionRequest) returns (resp: Response)
    requires store.Valid()
    modifies store
    ensures store.Valid()
    ensures var db := old(store.State());
      match Gate(SubscriptionOwners(db), caller, pk)
      case Some(rejection) => resp == rejection && unchanged(store)
      case None =>
        var v := ValidateSubscription(data.(user := Present(caller)), db);
        if v.Failure? then resp == Failed && unchanged(store)
        else if db.apps[v.value.app].user != Some(caller) then
          resp == Response(Forbidden, Text(NotOwnerMessage(v.value.app))) && unchanged(store)
        else resp == Response(Ok, SubscriptionBody(pk.n as nat, v.value)) && store.State() == Saved(db, pk.n as nat, v.value)
    // no app of another owner changes
    ensures forall a :: a in old(store.apps) && old(store.apps)[a].user != Some(caller) ==>
      a in store.apps && store.apps[a] == old(store.apps)[a]
    // no subscription of another user on an app of another owner changes
    ensures forall k ::
      (k in old(store.subs) && old(store.subs)[k].user != caller && old(store.subs)[k].app in old(store.apps) &&
       old(store.apps)[old(store.subs)[k].app].user != Some(caller)) ==>
      k in store.subs && store.subs[k] == old(store.subs)[k]
    ensures resp.status != Ok ==> unchanged(store)
    ensures store.nextAppId == old(store.nextAppId) && store.nextSubscriptionId == old(store.nextSubscriptionId)
  {
    var gate := Gate(SubscriptionOwners(store.State()), caller, pk);
    if gate.Some? {
      return gate.value;
    }
    var v := ValidateSubscription(data.(user := Present(caller)), store.State());
    if v.Failure? {
      return Failed;
    }
    if store.apps[v.value.app].user != Some(caller) {
      return Response(Forbidden, Text(NotOwnerMessage(v.value.app)));
    }
    var id := store.SaveSubscription(v.value, Some(pk.n as nat));
    resp := Response(Ok, SubscriptionBody(id, v.value));
  }

  /** A client of the handlers as written: user 2 subscribes user 1's app,
      which deactivates user 1's subscription and repoints user 1's app. */
  method ForeignTakeoverExample()
  {
    var plans := map[1 := Plan("Basic", "Basic tier", "10")];
    var store := new Store({1, 2}, plans);
    var choices := Choices(["Web"], ["Django"]);
    var request := AppRequest(Present("Shop"), Absent, Present("Web"), Present("Django"), Absent, Absent, Absent, Absent);
    assert AppAcceptable(request.(user := Present(Some(1))), choices, store.State());
    var created := AppCreate(store, 1, request, choices);
    var app := created.body.id;

    var own := SubscriptionCreate(store, 1, SubscriptionRequest(Absent, Present(1), Present(app), Present(true)));
    var s1 := own.body.id;
    assert store.subs[s1].active && store.apps[app].subscription == Some(s1);

    var foreign := SubscriptionCreate(store, 2, SubscriptionRequest(Absent, Present(1), Present(app), Present(true)));
    var s2 := foreign.body.id;
    assert foreign.status == Created && store.subs[s2].user == 2;
    assert store.apps[app].user == Some(1);
    assert !store.subs[s1].active && store.apps[app].subscription == Some(s2);
  }

  /** A client of the handlers: one user creates an app and subscribes it
      twice; the second subscription supersedes the first. */
  method ActivationExample()
  {
    var plans := map[1 := Plan("Basic", "Basic tier", "10"), 2 := Plan("Pro", "Pro tier", "50")];
    var store := new Store({7}, plans);
    var choices := Choices(["Web"], ["Django"]);
    var request := AppRequest(Present("My App"), Absent, Present("Web"), Present("Django"), Absent, Absent, Absent, Absent);
    assert AppAcceptable(request.(user := Present(Some(7))), choices, store.State());
    var created := AppCreate(store, 7, request, choices);
    var app := created.body.id;
    assert store.apps[app].subscription == None && store.apps[app].user == Some(7);

    var first := SubscriptionCreate(store, 7, SubscriptionRequest(Absent, Present(1), Present(app), Present(true)));
    var s1 := first.body.id;
    assert store.subs[s1].active && store.apps[app].subscription == Some(s1);

    var second := SubscriptionCreate(store, 7, SubscriptionRequest(Absent, Present(2), Present(app), Present(true)));
    var s2 := second.body.id;
    assert second.status == Created && s2 != s1;
    assert !store.subs[s1].active && store.subs[s2].active && store.apps[app].subscription == Some(s2);
  }

  /** A client of the handlers: another user may not delete an app, and a
      negative key names no row. */
  method GuardExample()
  {
    var store := new Store({7}, map[]);
    var choices := Choices(["Web"], ["Django"]);
    var request := AppRequest(Present("My App"), Absent, Present("Web"), Present("Django"), Absent, Absent, Absent, Absent);
    assert AppAcceptable(request.(user := Present(Some(7))), choices, store.State());
    var created := AppCreate(store, 7, request, choices);
    var app := created.body.id;

    assert store.apps[app].user == Some(7) && AppOwners(store.State())[app] == Some(7);
    var stranger := AppDestroy(store, 8, Id(app));
    assert stranger.status == Forbidden && app in store.apps;

    var negative := AppRetrieve(store.State(), 7, Id(-1));
    assert negative.status == NotFound;
  }

  /** A client of the handlers: an app whose name holds a null character
      is refused and nothing is stored. */
  method NullCharacterExample()
  {
    var store := new Store({7}, map[]);
    var choices := Choices(["Web"], ["Django"]);
    var request := AppRequest(Present("My\0App"), Absent, Present("Web"), Present("Django"), Absent, Absent, Absent, Absent);
    assert '\0' in request.name.value;
    var refused := AppCreate(store, 7, request, choices);
    assert refused.status == ServerError && store.apps == map[];
  }
}
