/**
 * The three tables of home/models.py (App, Plan, Subscription), the
 * referential rules their foreign keys declare, and the store that holds
 * them.  `Subscription.save` is the one operation with multi-row semantics:
 * it deactivates every subscription of the app, writes the row, and points
 * the app at it.
 */
module Models {
  import opened Common

  type UserId = nat
  type AppId = nat
  type PlanId = nat
  type SubscriptionId = nat

  /** An `App` row.  `subscription` is the app's pointer to its current
      subscription (nulled when that subscription is deleted); `user` is
      the owner, nullable. */
  datatype App = App(
    name: string,
    description: Option<string>,
    appType: string,
    framework: string,
    domainName: Option<string>,
    screenshot: Option<string>,
    subscription: Option<SubscriptionId>,
    user: Option<UserId>)

  /** A `Plan` row; `price` is one of the price choices. */
  datatype Plan = Plan(name: string, description: string, price: string)

  /** A `Subscription` row linking a user, a plan and an app. */
  datatype Subscription = Subscription(user: UserId, plan: PlanId, app: AppId, active: bool)

  /** The whole database: the users known to the identity store (read only
      here) and the three tables, each a map from primary key to row. */
  datatype Db = Db(
    users: set<UserId>,
    apps: map<AppId, App>,
    plans: map<PlanId, Plan>,
    subs: map<SubscriptionId, Subscription>)

  /** At most one subscription of any app is active. */
  ghost predicate AtMostOneActive(subs: map<SubscriptionId, Subscription>)
  {
    forall k, k' ::
      k in subs && k' in subs && subs[k].active && subs[k'].active && subs[k].app == subs[k'].app ==> k == k'
  }

  /** The foreign keys of an app row point at existing rows. */
  predicate AppLinked(db: Db, app: App)
  {
    (app.subscription.Some? ==> app.subscription.value in db.subs) &&
    (app.user.Some? ==> app.user.value in db.users)
  }

  /** The foreign keys of a subscription row point at existing rows. */
  predicate SubscriptionLinked(db: Db, s: Subscription)
  {
    s.user in db.users && s.plan in db.plans && s.app in db.apps
  }

  /** Referential integrity, as the relational store enforces it for the
      foreign keys of home/models.py, plus at most one active subscription
      per app. */
  ghost predicate Consistent(db: Db)
  {
    (forall a :: a in db.apps ==> AppLinked(db, db.apps[a])) &&
    (forall k :: k in db.subs ==> SubscriptionLinked(db, db.subs[k])) &&
    AtMostOneActive(db.subs)
  }

  /** The bulk `update(active=False)` on every subscription of `app`. */
  function Deactivated(subs: map<SubscriptionId, Subscription>, app: AppId): (r: map<SubscriptionId, Subscription>)
  {
    map k | k in subs :: if subs[k].app == app then subs[k].(active := false) else subs[k]
  }

  /** The database after `Subscription.save` writes `row` under key `id`. */
  function Saved(db: Db, id: SubscriptionId, row: Subscription): (r: Db)
    requires row.app in db.apps
    // the saved row is written as given: its `active` flag is not overridden
    ensures id in r.subs && r.subs[id] == row
    // every other subscription of the same app is inactive ...
    ensures forall k :: k in r.subs && k != id && r.subs[k].app == row.app ==> !r.subs[k].active
    // ... so the saved one is the only one of its app that can be active
    ensures forall k :: k in r.subs && r.subs[k].app == row.app && r.subs[k].active ==> k == id && row.active
    ensures r.subs.Keys == db.subs.Keys + {id}
    // siblings lose their flag and nothing else
    ensures forall k :: k in db.subs && k != id && db.subs[k].app == row.app ==>
      r.subs[k] == db.subs[k].(active := false)
    // subscriptions of other apps are untouched
    ensures forall k :: k in db.subs && k != id && db.subs[k].app != row.app ==> r.subs[k] == db.subs[k]
    // the app points at the saved subscription, and no other app row changes
    ensures r.apps.Keys == db.apps.Keys
    ensures r.apps[row.app] == db.apps[row.app].(subscription := Some(id))
    ensures forall a :: a in db.apps && a != row.app ==> r.apps[a] == db.apps[a]
    ensures r.users == db.users && r.plans == db.plans
  {
    var subs := Deactivated(db.subs, row.app)[id := row];
    var apps := db.apps[row.app := db.apps[row.app].(subscription := Some(id))];
    db.(subs := subs, apps := apps)
  }

  /** The app row with its pointer nulled if it names a key in `gone`
      (the SET_NULL rule on `App.subscription`). */
  function Unlinked(app: App, gone: set<SubscriptionId>): (r: App)
  {
    if app.subscription.Some? && app.subscription.value in gone then app.(subscription := None) else app
  }

  /** The database after deleting app `id`: its subscriptions go with it
      (CASCADE), and any app pointer to one of them becomes null (SET_NULL). */
  function AppDeleted(db: Db, id: AppId): (r: Db)
    ensures r.apps.Keys == db.apps.Keys - {id}
    ensures r.subs.Keys <= db.subs.Keys
    ensures forall k :: k in db.subs ==> (k in r.subs <==> db.subs[k].app != id)
    ensures forall k :: k in r.subs ==> r.subs[k] == db.subs[k]
    // only the subscription pointer of a remaining app can change ...
    ensures forall a :: a in r.apps ==> r.apps[a] == db.apps[a].(subscription := r.apps[a].subscription)
    // ... it is kept when it names a surviving subscription and nulled otherwise
    ensures forall a :: a in r.apps ==>
      r.apps[a].subscription == (if db.apps[a].subscription.Some? && db.apps[a].subscription.value in db.subs
                                    && db.apps[a].subscription.value !in r.subs
                                 then None else db.apps[a].subscription)
    ensures r.users == db.users && r.plans == db.plans
  {
    var gone := set k | k in db.subs && db.subs[k].app == id;
    db.(apps := map a | a in db.apps && a != id :: Unlinked(db.apps[a], gone),
        subs := map k | k in db.subs && k !in gone :: db.subs[k])
  }

  /** The database after deleting subscription `id`: every app pointer to
      it becomes null (SET_NULL); nothing else changes. */
  function SubscriptionDeleted(db: Db, id: SubscriptionId): (r: Db)
    ensures r.subs == db.subs - {id}
    ensures r.apps.Keys == db.apps.Keys
    ensures forall a :: a in db.apps ==>
      r.apps[a] == (if db.apps[a].subscription == Some(id) then db.apps[a].(subscription := None) else db.apps[a])
    ensures r.users == db.users && r.plans == db.plans
  {
    db.(apps := map a | a in db.apps :: Unlinked(db.apps[a], {id}), subs := db.subs - {id})
  }

  /** Saving a subscription whose foreign keys exist keeps the database
      consistent: in particular no app ends up with two active subscriptions. */
  lemma SavedConsistent(db: Db, id: SubscriptionId, row: Subscription)
    requires Consistent(db)
    requires SubscriptionLinked(db, row)
    ensures Consistent(Saved(db, id, row))
  {
  }

  /** Two saves for the same app: only the second can be active and the app
      points at it; the first, if a different row, is inactive. */
  lemma SavedTwice(db: Db, id1: SubscriptionId, row1: Subscription, id2: SubscriptionId, row2: Subscription)
    requires row1.app in db.apps && row2.app == row1.app
    ensures var r := Saved(Saved(db, id1, row1), id2, row2);
      r.apps[row1.app].subscription == Some(id2) &&
      (id1 != id2 ==> id1 in r.subs && !r.subs[id1].active) &&
      (forall k :: k in r.subs && r.subs[k].app == row1.app && r.subs[k].active ==> k == id2)
  {
  }

  /** Saving a subscription that used to belong to app `a` under another app
      leaves `a` pointing at it: the app pointer can name a subscription of a
      different app. */
  lemma PointerMayNameMovedSubscription(db: Db, id: SubscriptionId, row: Subscription, a: AppId)
    requires row.app in db.apps && a in db.apps && a != row.app
    requires db.apps[a].subscription == Some(id)
    ensures var r := Saved(db, id, row);
      r.apps[a].subscription == Some(id) && r.subs[id].app != a
  {
  }

  /** Deleting an app keeps the database consistent. */
  lemma AppDeletedConsistent(db: Db, id: AppId)
    requires Consistent(db)
    ensures Consistent(AppDeleted(db, id))
  {
  }

  /** Deleting a subscription keeps the database consistent. */
  lemma SubscriptionDeletedConsistent(db: Db, id: SubscriptionId)
    requires Consistent(db)
    ensures Consistent(SubscriptionDeleted(db, id))
  {
  }

  /** The relational store: one field per table, updated in place.  Keys are
      handed out from the `next…` counters, as the AutoField sequences do. */
  class Store {
    var users: set<UserId>
    var apps: map<AppId, App>
    var plans: map<PlanId, Plan>
    var subs: map<SubscriptionId, Subscription>
    var nextAppId: nat
    var nextSubscriptionId: nat

    /** The tables as one value. */
    function State(): Db
      reads this
    {
      Db(users, apps, plans, subs)
    }

    ghost predicate Valid()
      reads this
    {
      Consistent(State()) &&
      (forall a :: a in apps ==> a < nextAppId) &&
      (forall k :: k in subs ==> k < nextSubscriptionId)
    }

    /** An empty store over the given users and plans. */
    constructor (users: set<UserId>, plans: map<PlanId, Plan>)
      ensures Valid()
      ensures State() == Db(users, map[], plans, map[])
    {
      this.users := users;
      this.plans := plans;
      apps, subs := map[], map[];
      nextAppId, nextSubscriptionId := 0, 0;
    }

    /** `Subscription.save` (home/models.py:67-71): `pk` is the key of an
        existing row being rewritten, or None for a new row, which takes the
        next key. */
    method SaveSubscription(row: Subscription, pk: Option<SubscriptionId>) returns (id: SubscriptionId)
      requires Valid()
      requires SubscriptionLinked(State(), row)
      requires pk.Some? ==> pk.value in subs
      modifies this
      ensures Valid()
      ensures id == if pk.Some? then pk.value else old(nextSubscriptionId)
      ensures State() == Saved(old(State()), id, row)
      ensures nextSubscriptionId == if pk.Some? then old(nextSubscriptionId) else old(nextSubscriptionId) + 1
      ensures nextAppId == old(nextAppId)
    {
      // deactivate every subscription of the app, this one included
      subs := Deactivated(subs, row.app);
      // write the row with its own flag
      if pk.Some? {
        id := pk.value;
      } else {
        id := nextSubscriptionId;
        nextSubscriptionId := nextSubscriptionId + 1;
      }
      subs := subs[id := row];
      // repoint the app and write it
      apps := apps[row.app := apps[row.app].(subscription := Some(id))];
      SavedConsistent(old(State()), id, row);
    }

    /** `App.save` for a new row, which takes the next key. */
    method InsertApp(row: App) returns (id: AppId)
      requires Valid()
      requires AppLinked(State(), row)
      modifies this
      ensures Valid()
      ensures id == old(nextAppId) && nextAppId == old(nextAppId) + 1
      ensures State() == old(State()).(apps := old(apps)[id := row])
      ensures nextSubscriptionId == old(nextSubscriptionId)
    {
      id := nextAppId;
      apps := apps[id := row];
      nextAppId := nextAppId + 1;
    }

    /** `App.save` for an existing row. */
    method WriteApp(id: AppId, row: App)
      requires Valid()
      requires id in apps && AppLinked(State(), row)
      modifies this
      ensures Valid()
      ensures State() == old(State()).(apps := old(apps)[id := row])
      ensures nextAppId == old(nextAppId) && nextSubscriptionId == old(nextSubscriptionId)
    {
      apps := apps[id := row];
    }

    /** Deleting an app row, with the CASCADE and SET_NULL rules applied. */
    method DeleteApp(id: AppId)
      requires Valid()
      modifies this
      ensures Valid()
      ensures State() == AppDeleted(old(State()), id)
      ensures nextAppId == old(nextAppId) && nextSubscriptionId == old(nextSubscriptionId)
    {
      // collect the subscriptions the CASCADE rule removes
      var gone := set k | k in subs && subs[k].app == id;
      // SET_NULL on app pointers to them, then the deletes
      apps := map a | a in apps && a != id :: Unlinked(apps[a], gone);
      subs := map k | k in subs && k !in gone :: subs[k];
      AppDeletedConsistent(old(State()), id);
    }

    /** Deleting a subscription row, with the SET_NULL rule applied. */
    method DeleteSubscription(id: SubscriptionId)
      requires Valid()
      modifies this
      ensures Valid()
      ensures State() == SubscriptionDeleted(old(State()), id)
      ensures nextAppId == old(nextAppId) && nextSubscriptionId == old(nextSubscriptionId)
    {
      apps := map a | a in apps :: Unlinked(apps[a], {id});
      subs := subs - {id};
      SubscriptionDeletedConsistent(old(State()), id);
    }
  }
}
