/**
 Runs of subscription operations, with writes that fail and cache entries that expire: the secrets made
 by the service stay owned by subscriptions in use, and the cache agrees with the database.
 */
module SubscriptionRuns {
  import opened Common
  import opened SubscriptionDomain
  import opened Subscriptions

  datatype Event =
    | Create(draft: Draft, generated: string, stores: bool)
    | Change(id: Id, command: Command, stores: bool)
    | Update(id: Id, request: UpdateRequest, stores: bool)
    | Delete(id: Id, stores: bool)
    | Get(id: Id)
    | Expire(ids: set<Id>)
    | SetPlans(plans: map<Id, Plan>, isolateProfile: string)

  function Apply(w: World, e: Event): World
  {
    match e
    case Create(draft, generated, stores) => Created(w, draft, generated, stores).world
    case Change(id, command, stores) => Transition(w, id, command, stores).world
    case Update(id, request, stores) => Updated(w, id, request, stores).world
    case Delete(id, stores) => Deleted(w, id, stores).world
    case Get(id) => Fetched(w, id)
    case Expire(ids) => w.(cache := w.cache - ids)
    case SetPlans(plans, isolateProfile) => w.(db := w.db.(plans := plans, isolateProfile := isolateProfile))
  }

  function ApplyAll(w: World, events: seq<Event>): World
    decreases |events|
  {
    if events == [] then w else ApplyAll(Apply(w, events[0]), events[1..])
  }

  // ---- The invariants ----

  /** A name is on the router exactly when a secret bears it. */
  ghost predicate RouterOk(r: Router)
  {
    && (forall n :: n in r.names ==>
          Key(n.router, r.names[n]) in r.secrets && r.secrets[Key(n.router, r.names[n])].name == n.username)
    && (forall k :: k in r.secrets ==>
          Login(k.router, r.secrets[k].name) in r.names && r.names[Login(k.router, r.secrets[k].name)] == k.id)
    && (forall k :: k in r.secrets ==> k.id < r.next)
  }

  function KeyOf(row: Row): Key
    requires row.secret.Some?
  {
    Key(row.router, row.secret.value)
  }

  /** A stored row knows its secret's id; foreign secrets were there before the service. */
  ghost predicate RowOk(row: Row, id: Id, db: Database, r: Router, foreign: set<Key>)
  {
    && row.id == id && id < db.next
    && row.secret.Some? && row.secret.value < r.next && KeyOf(row) !in foreign
  }

  ghost predicate RowsOk(db: Database, r: Router, foreign: set<Key>)
  {
    && (forall id :: id in db.rows ==> RowOk(db.rows[id], id, db, r, foreign))
    && (forall k :: k in foreign ==> k.id < r.next)
  }

  /** No two rows have the same secret. */
  ghost predicate Distinct(rows: map<Id, Row>)
  {
    forall i, j :: i in rows && j in rows && rows[i].secret.Some? && rows[j].secret.Some? && i != j ==>
      KeyOf(rows[i]) != KeyOf(rows[j])
  }

  predicate Owns(db: Database, id: Id, k: Key)
  {
    id in db.rows && db.rows[id].secret.Some? && KeyOf(db.rows[id]) == k && db.rows[id].status != Terminated
  }

  ghost predicate Owned(db: Database, keys: set<Key>, foreign: set<Key>)
  {
    forall k :: k in keys && k !in foreign ==> exists id :: Owns(db, id, k)
  }

  ghost predicate CacheOk(rows: map<Id, Row>, cache: map<Id, Row>)
  {
    forall id :: id in cache ==> id in rows && cache[id] == Blanked(rows[id])
  }

  ghost predicate Inv(w: World, foreign: set<Key>)
  {
    && RouterOk(w.router) && RowsOk(w.db, w.router, foreign) && Distinct(w.db.rows)
    && Owned(w.db, w.router.secrets.Keys, foreign) && CacheOk(w.db.rows, w.cache)
  }

  /** A subscription is in use exactly when its secret is on the router. */
  ghost predicate Matched(w: World)
  {
    forall id :: id in w.db.rows && w.db.rows[id].secret.Some? ==>
      (w.db.rows[id].status != Terminated <==> KeyOf(w.db.rows[id]) in w.router.secrets)
  }

  // ---- The router's operations ----

  /** The same secrets under the same ids and names. */
  ghost predicate SameKeys(r: Router, after: Router)
  {
    after.secrets.Keys == r.secrets.Keys && after.names == r.names && after.next == r.next && RouterOk(after)
  }

  lemma UpdateKeepsKeys(r: Router, k: Key, p: Patch)
    requires RouterOk(r) && UpdateSecret(r, k, p).Some?
    ensures SameKeys(r, UpdateSecret(r, k, p).value)
  {}

  lemma DisableKeepsKeys(r: Router, k: Key, disabled: bool)
    requires RouterOk(r) && SetDisabled(r, k, disabled).Some?
    ensures SameKeys(r, SetDisabled(r, k, disabled).value)
  {}

  lemma RemoveDropsKey(r: Router, k: Key)
    requires RouterOk(r) && k in r.secrets
    ensures var after := RemoveSecret(r, k).value;
            RouterOk(after) && after.secrets == r.secrets - {k} && after.next == r.next
  {}

  lemma AddAddsKey(r: Router, router: Id, s: Secret)
    requires RouterOk(r) && Login(router, s.name) !in r.names
    ensures var after := AddSecret(r, router, s);
            && RouterOk(after) && after.secrets == r.secrets[Key(router, r.next) := s] && after.next == r.next + 1
            && Key(router, r.next) !in r.secrets
  {}

  lemma AddThenRemove(r: Router, router: Id, s: Secret)
    requires RouterOk(r) && Login(router, s.name) !in r.names
    ensures RemoveSecret(AddSecret(r, router, s), Key(router, r.next)) == Some(r.(next := r.next + 1))
  {
    AddAddsKey(r, router, s);
    var after := RemoveSecret(AddSecret(r, router, s), Key(router, r.next)).value;
    assert after.secrets == r.secrets;
    assert after.names == r.names;
  }

  // ---- Status changes ----

  /** What a command does to the router: nothing to the keys, or, for Terminate, removes the row's secret. */
  lemma EffectOnKeys(db: Database, r: Router, row: Row, c: Command)
    requires RouterOk(r) && row.secret.Some? && RouterEffect(db, r, row, c).Ok?
    ensures var after := RouterEffect(db, r, row, c).value;
            && RouterOk(after) && after.next == r.next && KeyOf(row) in r.secrets
            && after.secrets.Keys == if c.Terminate? then r.secrets.Keys - {KeyOf(row)} else r.secrets.Keys
  {
    var k := KeyOf(row);
    match c
    case Activate(_) => DisableKeepsKeys(r, k, false);
    case Isolate(_) => UpdateKeepsKeys(r, k, Patch("", IsolateProfile(db.plans, db.isolateProfile, row.plan), ""));
    case Restore => UpdateKeepsKeys(r, k, Patch("", db.plans[row.plan].name, ""));
    case Suspend(_) => DisableKeepsKeys(r, k, true);
    case Terminate(_) => RemoveDropsKey(r, k);
  }

  /** A secret that is present and not foreign belongs to one row, which is in use. */
  lemma PresentMeansInUse(db: Database, keys: set<Key>, foreign: set<Key>, id: Id)
    requires Distinct(db.rows) && Owned(db, keys, foreign)
    requires id in db.rows && db.rows[id].secret.Some? && KeyOf(db.rows[id]) in keys && KeyOf(db.rows[id]) !in foreign
    ensures db.rows[id].status != Terminated
  {
    var owner :| Owns(db, owner, KeyOf(db.rows[id]));
    assert owner == id;
  }

  /** The row keeps its identity and its secret. */
  predicate SameSecret(row: Row, after: Row)
  {
    after.id == row.id && after.router == row.router && after.secret == row.secret
  }

  lemma ReplaceKeepsRows(db: Database, r: Router, after: Router, foreign: set<Key>, id: Id, row: Row)
    requires RowsOk(db, r, foreign) && Distinct(db.rows) && id in db.rows && SameSecret(db.rows[id], row)
    requires after.next == r.next
    ensures RowsOk(SaveRow(db, row), after, foreign) && Distinct(SaveRow(db, row).rows)
  {
    assert RowOk(db.rows[id], id, db, r, foreign);
    forall i | i in SaveRow(db, row).rows ensures RowOk(SaveRow(db, row).rows[i], i, db, after, foreign) {
      assert RowOk(db.rows[i], i, db, r, foreign);
    }
  }

  lemma ReplaceKeepsOwned(db: Database, keys: set<Key>, after: set<Key>, foreign: set<Key>, id: Id, row: Row)
    requires Owned(db, keys, foreign) && after <= keys
    requires id in db.rows && db.rows[id].id == id && SameSecret(db.rows[id], row) && row.secret.Some?
    requires row.status == Terminated ==> KeyOf(row) !in after
    ensures Owned(SaveRow(db, row), after, foreign)
  {
    forall k | k in after && k !in foreign ensures exists i :: Owns(SaveRow(db, row), i, k) {
      var owner :| Owns(db, owner, k);
      assert Owns(SaveRow(db, row), owner, k);
    }
  }

  lemma FewerKeysOwned(db: Database, keys: set<Key>, after: set<Key>, foreign: set<Key>)
    requires Owned(db, keys, foreign) && after <= keys
    ensures Owned(db, after, foreign)
  {}

  /** The router lost some secrets at most. */
  ghost predicate Shrinks(r: Router, after: Router)
  {
    RouterOk(after) && after.next == r.next && after.secrets.Keys <= r.secrets.Keys
  }

  lemma RouterStepKeepsInv(w: World, foreign: set<Key>, after: Router)
    requires Inv(w, foreign) && Shrinks(w.router, after)
    ensures Inv(w.(router := after), foreign)
  {
    FewerKeysOwned(w.db, w.router.secrets.Keys, after.secrets.Keys, foreign);
    forall i | i in w.db.rows ensures RowOk(w.db.rows[i], i, w.db, after, foreign) {
      assert RowOk(w.db.rows[i], i, w.db, w.router, foreign);
    }
  }

  lemma StoreKeepsInv(w: World, foreign: set<Key>, after: Router, id: Id, row: Row)
    requires Inv(w, foreign) && Shrinks(w.router, after)
    requires id in w.db.rows && SameSecret(w.db.rows[id], row) && row.secret.Some?
    requires row.status == Terminated ==> KeyOf(row) !in after.secrets.Keys
    ensures Inv(World(SaveRow(w.db, row), after, w.cache - {id}), foreign)
  {
    assert RowOk(w.db.rows[id], id, w.db, w.router, foreign);
    ReplaceKeepsRows(w.db, w.router, after, foreign, id, row);
    ReplaceKeepsOwned(w.db, w.router.secrets.Keys, after.secrets.Keys, foreign, id, row);
  }

  /** The three ways a status change can end. */
  lemma TransitionCases(w: World, id: Id, c: Command, stores: bool)
    ensures var after := Transition(w, id, c, stores).world;
            || after == w
            || (id in w.db.rows && RouterEffect(w.db, w.router, w.db.rows[id], c).Ok?
                && var router := RouterEffect(w.db, w.router, w.db.rows[id], c).value;
                   if stores then after == World(SaveRow(w.db, RowEffect(w.db.rows[id], c)), router, w.cache - {id})
                   else after == w.(router := router))
  {}

  lemma EffectKeepsInv(w: World, foreign: set<Key>, id: Id, c: Command, router: Router, stores: bool)
    requires Inv(w, foreign) && id in w.db.rows && RouterEffect(w.db, w.router, w.db.rows[id], c) == Ok(router)
    ensures Inv(if stores then World(SaveRow(w.db, RowEffect(w.db.rows[id], c)), router, w.cache - {id})
                else w.(router := router), foreign)
  {
    var row := w.db.rows[id];
    assert RowOk(row, id, w.db, w.router, foreign);
    EffectOnKeys(w.db, w.router, row, c);
    if stores {
      StoreKeepsInv(w, foreign, router, id, RowEffect(row, c));
    } else {
      RouterStepKeepsInv(w, foreign, router);
    }
  }

  lemma TransitionKeepsInv(w: World, foreign: set<Key>, id: Id, c: Command, stores: bool)
    requires Inv(w, foreign)
    ensures Inv(Transition(w, id, c, stores).world, foreign)
  {
    TransitionCases(w, id, c, stores);
    if Transition(w, id, c, stores).world != w {
      EffectKeepsInv(w, foreign, id, c, RouterEffect(w.db, w.router, w.db.rows[id], c).value, stores);
    }
  }

  // ---- Creating ----

  function NewRow(w: World, d: Draft, password: string): Row
  {
    Row(w.db.next, d.customer, d.plan, d.router, d.username, password, d.options, Some(w.router.next), Pending, None, None, None)
  }

  function NewSecret(w: World, d: Draft, password: string): Secret
    requires d.plan in w.db.plans
  {
    Secret(d.username, password, w.db.plans[d.plan].name, d.options.staticIP, false)
  }

  function Inserted(w: World, d: Draft, password: string): World
    requires d.plan in w.db.plans
  {
    var row := NewRow(w, d, password);
    World(SaveRow(w.db, row).(usernames := w.db.usernames + {d.username}, next := w.db.next + 1),
          AddSecret(w.router, d.router, NewSecret(w, d, password)), w.cache - {row.id})
  }

  /** Creating either inserts a row and its secret or leaves the database, the secrets and the cache as they were. */
  lemma CreateIsAtomic(w: World, d: Draft, generated: string, stores: bool)
    requires RouterOk(w.router)
    ensures var out := Created(w, d, generated, stores);
            if out.error == None then
              && d.plan in w.db.plans && Login(d.router, d.username) !in w.router.names
              && out.world == Inserted(w, d, OrElse(d.password, generated))
            else
              out.world == if out.error == Some(NotStored) then w.(router := w.router.(next := w.router.next + 1)) else w
  {
    var password := OrElse(d.password, generated);
    if CreateError(w, d, password).None? {
      AddThenRemove(w.router, d.router, NewSecret(w, d, password));
    }
  }

  lemma InsertKeepsRows(w: World, foreign: set<Key>, d: Draft, password: string)
    requires RowsOk(w.db, w.router, foreign) && Distinct(w.db.rows) && d.plan in w.db.plans
    ensures RowsOk(Inserted(w, d, password).db, Inserted(w, d, password).router, foreign)
    ensures Distinct(Inserted(w, d, password).db.rows)
  {
    var after := Inserted(w, d, password);
    forall i | i in after.db.rows ensures RowOk(after.db.rows[i], i, after.db, after.router, foreign) {
      assert i in w.db.rows ==> RowOk(w.db.rows[i], i, w.db, w.router, foreign);
    }
    forall i | i in w.db.rows && w.db.rows[i].secret.Some? ensures KeyOf(w.db.rows[i]).id != w.router.next {
      assert RowOk(w.db.rows[i], i, w.db, w.router, foreign);
    }
  }

  lemma InsertKeepsOwned(w: World, foreign: set<Key>, d: Draft, password: string)
    requires RowsOk(w.db, w.router, foreign) && Owned(w.db, w.router.secrets.Keys, foreign) && d.plan in w.db.plans
    ensures Owned(Inserted(w, d, password).db, Inserted(w, d, password).router.secrets.Keys, foreign)
  {
    var after := Inserted(w, d, password);
    forall k | k in after.router.secrets.Keys && k !in foreign ensures exists i :: Owns(after.db, i, k) {
      if k == Key(d.router, w.router.next) {
        assert Owns(after.db, w.db.next, k);
      } else {
        var owner :| Owns(w.db, owner, k);
        assert RowOk(w.db.rows[owner], owner, w.db, w.router, foreign);
        assert Owns(after.db, owner, k);
      }
    }
  }

  lemma InsertKeepsInv(w: World, foreign: set<Key>, d: Draft, password: string)
    requires Inv(w, foreign) && d.plan in w.db.plans && Login(d.router, d.username) !in w.router.names
    ensures Inv(Inserted(w, d, password), foreign)
  {
    AddAddsKey(w.router, d.router, NewSecret(w, d, password));
    InsertKeepsRows(w, foreign, d, password);
    InsertKeepsOwned(w, foreign, d, password);
    forall id | id in w.cache ensures id != w.db.next {
      assert RowOk(w.db.rows[id], id, w.db, w.router, foreign);
    }
  }

  lemma SkippedIdKeepsInv(w: World, foreign: set<Key>)
    requires Inv(w, foreign)
    ensures Inv(w.(router := w.router.(next := w.router.next + 1)), foreign)
  {
    var after := w.router.(next := w.router.next + 1);
    forall i | i in w.db.rows ensures RowOk(w.db.rows[i], i, w.db, after, foreign) {
      assert RowOk(w.db.rows[i], i, w.db, w.router, foreign);
    }
  }

  lemma CreateKeepsInv(w: World, foreign: set<Key>, d: Draft, generated: string, stores: bool)
    requires Inv(w, foreign)
    ensures Inv(Created(w, d, generated, stores).world, foreign)
  {
    CreateIsAtomic(w, d, generated, stores);
    if Created(w, d, generated, stores).error == None {
      InsertKeepsInv(w, foreign, d, OrElse(d.password, generated));
    } else {
      SkippedIdKeepsInv(w, foreign);
    }
  }

  // ---- Reading, updating and deleting ----

  lemma FetchKeepsInv(w: World, foreign: set<Key>, id: Id)
    requires Inv(w, foreign)
    ensures Inv(Fetched(w, id), foreign)
  {}

  /** Reading through the cache gives the stored row, perhaps without its password. */
  lemma ReadRefinesDatabase(w: World, foreign: set<Key>, id: Id)
    requires Inv(w, foreign)
    ensures Read(w, id).Some? <==> id in w.db.rows
    ensures id in w.db.rows ==> Blanked(Read(w, id).value) == Blanked(w.db.rows[id])
    ensures id in w.db.rows && id !in w.cache ==> Read(w, id) == Some(w.db.rows[id])
  {}

  lemma RollbackShrinks(db: Database, r: Router, existing: Row)
    requires RouterOk(r) && existing.secret.Some?
    ensures Shrinks(r, RolledBack(db, r, existing))
  {
    if existing.plan in db.plans && KeyOf(existing) in r.secrets {
      UpdateKeepsKeys(r, KeyOf(existing), SecretOf(existing, db.plans[existing.plan]));
    }
  }

  lemma SaveKeepsInv(w: World, foreign: set<Key>, sub: Row, stores: bool)
    requires Inv(w, foreign) && sub.id in w.db.rows
    requires SameSecret(w.db.rows[sub.id], sub) && sub.status == w.db.rows[sub.id].status
    ensures Inv(SavedWith(w, sub, stores).world, foreign)
  {
    var existing := w.db.rows[sub.id];
    assert RowOk(existing, sub.id, w.db, w.router, foreign);
    if sub.plan in w.db.plans && KeyOf(existing) in w.router.secrets {
      var patch := SecretOf(sub, w.db.plans[sub.plan]);
      var router := UpdateSecret(w.router, KeyOf(existing), patch).value;
      UpdateKeepsKeys(w.router, KeyOf(existing), patch);
      PresentMeansInUse(w.db, w.router.secrets.Keys, foreign, sub.id);
      StoreKeepsInv(w, foreign, router, sub.id, sub);
      RollbackShrinks(w.db, router, existing);
      RouterStepKeepsInv(w, foreign, RolledBack(w.db, router, existing));
    }
  }

  lemma UpdateKeepsInv(w: World, foreign: set<Key>, id: Id, q: UpdateRequest, stores: bool)
    requires Inv(w, foreign)
    ensures Inv(Updated(w, id, q, stores).world, foreign)
  {
    if id in w.db.rows {
      assert RowOk(w.db.rows[id], id, w.db, w.router, foreign);
      ReadRefinesDatabase(w, foreign, id);
      FetchKeepsInv(w, foreign, id);
      SaveKeepsInv(Fetched(w, id), foreign, ApplyTo(q, Read(w, id).value), stores);
    }
  }

  lemma DropKeepsRows(db: Database, r: Router, after: Router, foreign: set<Key>, id: Id)
    requires RowsOk(db, r, foreign) && after.next == r.next
    ensures RowsOk(db.(rows := db.rows - {id}), after, foreign)
  {
    var dropped := db.(rows := db.rows - {id});
    forall i | i in dropped.rows ensures RowOk(dropped.rows[i], i, dropped, after, foreign) {
      assert RowOk(db.rows[i], i, db, r, foreign);
    }
  }

  lemma DropKeepsOwned(db: Database, keys: set<Key>, after: set<Key>, foreign: set<Key>, id: Id)
    requires Owned(db, keys, foreign) && after <= keys && id in db.rows && db.rows[id].secret.Some?
    requires KeyOf(db.rows[id]) !in after
    ensures Owned(db.(rows := db.rows - {id}), after, foreign)
  {
    var dropped := db.(rows := db.rows - {id});
    forall k | k in after && k !in foreign ensures exists i :: Owns(dropped, i, k) {
      var owner :| Owns(db, owner, k);
      assert Owns(dropped, owner, k);
    }
  }

  lemma DropKeepsInv(w: World, foreign: set<Key>, after: Router, id: Id)
    requires Inv(w, foreign) && Shrinks(w.router, after) && id in w.db.rows && w.db.rows[id].secret.Some?
    requires KeyOf(w.db.rows[id]) !in after.secrets.Keys
    ensures Inv(World(w.db.(rows := w.db.rows - {id}), after, w.cache - {id}), foreign)
  {
    DropKeepsRows(w.db, w.router, after, foreign, id);
    DropKeepsOwned(w.db, w.router.secrets.Keys, after.secrets.Keys, foreign, id);
  }

  lemma DeleteKeepsInv(w: World, foreign: set<Key>, id: Id, stores: bool)
    requires Inv(w, foreign)
    ensures Inv(Deleted(w, id, stores).world, foreign)
  {
    if id in w.db.rows {
      var row := w.db.rows[id];
      assert RowOk(row, id, w.db, w.router, foreign);
      if KeyOf(row) in w.router.secrets {
        RemoveDropsKey(w.router, KeyOf(row));
        var after := RemoveSecret(w.router, KeyOf(row)).value;
        if stores {
          DropKeepsInv(w, foreign, after, id);
        } else {
          RouterStepKeepsInv(w, foreign, after);
        }
      }
    }
  }

  // ---- Every run ----

  lemma PlansKeepInv(w: World, foreign: set<Key>, plans: map<Id, Plan>, isolateProfile: string)
    requires Inv(w, foreign)
    ensures Inv(w.(db := w.db.(plans := plans, isolateProfile := isolateProfile)), foreign)
  {
    var db := w.db.(plans := plans, isolateProfile := isolateProfile);
    forall i | i in db.rows ensures RowOk(db.rows[i], i, db, w.router, foreign) {
      assert RowOk(w.db.rows[i], i, w.db, w.router, foreign);
    }
    forall k | k in w.router.secrets.Keys && k !in foreign ensures exists i :: Owns(db, i, k) {
      var owner :| Owns(w.db, owner, k);
      assert Owns(db, owner, k);
    }
  }

  lemma EventKeepsInv(w: World, foreign: set<Key>, e: Event)
    requires Inv(w, foreign)
    ensures Inv(Apply(w, e), foreign)
  {
    match e
    case Create(draft, generated, stores) => CreateKeepsInv(w, foreign, draft, generated, stores);
    case Change(id, command, stores) => TransitionKeepsInv(w, foreign, id, command, stores);
    case Update(id, request, stores) => UpdateKeepsInv(w, foreign, id, request, stores);
    case Delete(id, stores) => DeleteKeepsInv(w, foreign, id, stores);
    case Get(id) => FetchKeepsInv(w, foreign, id);
    case Expire(_) =>
    case SetPlans(plans, isolateProfile) => PlansKeepInv(w, foreign, plans, isolateProfile);
  }

  /**
   Over every run, whatever writes fail: each secret that the service made and that is still on its
   router belongs to a stored subscription that is not terminated, and each cached copy equals its row
   but for the password.
   */
  lemma {:induction false} EveryRunKeepsInv(w: World, foreign: set<Key>, events: seq<Event>)
    requires Inv(w, foreign)
    ensures Inv(ApplyAll(w, events), foreign)
    decreases |events|
  {
    if events != [] {
      EventKeepsInv(w, foreign, events[0]);
      EveryRunKeepsInv(Apply(w, events[0]), foreign, events[1..]);
    }
  }

  lemma FreshWorld(plans: map<Id, Plan>, isolateProfile: string, r: Router)
    requires RouterOk(r)
    ensures Inv(World(Database(map[], plans, isolateProfile, {}, 0), r, map[]), r.secrets.Keys)
  {}

  // ---- A terminated subscription ----

  predicate Targets(e: Event, id: Id) { (e.Change? || e.Update? || e.Delete?) && e.id == id }

  predicate Keeps(w: World, after: World, id: Id)
    requires id in w.db.rows
  {
    id in after.db.rows && after.db.rows[id] == w.db.rows[id]
  }

  lemma CreateKeepsRow(w: World, foreign: set<Key>, d: Draft, generated: string, stores: bool, id: Id)
    requires Inv(w, foreign) && id in w.db.rows
    ensures Keeps(w, Created(w, d, generated, stores).world, id)
  {
    assert RowOk(w.db.rows[id], id, w.db, w.router, foreign);
    CreateIsAtomic(w, d, generated, stores);
  }

  lemma UpdateKeepsRow(w: World, foreign: set<Key>, i: Id, q: UpdateRequest, stores: bool, id: Id)
    requires Inv(w, foreign) && id in w.db.rows
    requires i != id || KeyOf(w.db.rows[id]) !in w.router.secrets
    ensures Keeps(w, Updated(w, i, q, stores).world, id)
  {
    assert RowOk(w.db.rows[id], id, w.db, w.router, foreign);
    ReadRefinesDatabase(w, foreign, i);
    if i in w.db.rows {
      assert RowOk(w.db.rows[i], i, w.db, w.router, foreign);
      assert ApplyTo(q, Read(w, i).value).id == i;
    }
  }

  lemma ChangeKeepsRow(w: World, foreign: set<Key>, i: Id, c: Command, stores: bool, id: Id)
    requires Inv(w, foreign) && id in w.db.rows
    requires i != id || KeyOf(w.db.rows[id]) !in w.router.secrets
    ensures Keeps(w, Transition(w, i, c, stores).world, id)
  {
    TransitionCases(w, i, c, stores);
    if i in w.db.rows {
      assert RowOk(w.db.rows[i], i, w.db, w.router, foreign);
    }
  }

  lemma DeleteKeepsRow(w: World, foreign: set<Key>, i: Id, stores: bool, id: Id)
    requires Inv(w, foreign) && id in w.db.rows
    requires i != id || KeyOf(w.db.rows[id]) !in w.router.secrets
    ensures Keeps(w, Deleted(w, i, stores).world, id)
  {
    assert RowOk(w.db.rows[id], id, w.db, w.router, foreign);
  }

  /** An operation changes no other row, and no row whose secret is gone. */
  lemma OthersKeepRow(w: World, foreign: set<Key>, id: Id, e: Event)
    requires Inv(w, foreign) && id in w.db.rows
    requires Targets(e, id) ==> KeyOf(w.db.rows[id]) !in w.router.secrets
    ensures Keeps(w, Apply(w, e), id)
  {
    match e
    case Create(draft, generated, stores) => CreateKeepsRow(w, foreign, draft, generated, stores, id);
    case Update(i, request, stores) => UpdateKeepsRow(w, foreign, i, request, stores, id);
    case Change(i, command, stores) => ChangeKeepsRow(w, foreign, i, command, stores, id);
    case Delete(i, stores) => DeleteKeepsRow(w, foreign, i, stores, id);
    case _ =>
  }

  /** Nothing changes or deletes a terminated row, although only Activate consults the status graph. */
  lemma TerminatedIsFinal(w: World, foreign: set<Key>, id: Id, e: Event)
    requires Inv(w, foreign) && id in w.db.rows && w.db.rows[id].status == Terminated
    ensures Keeps(w, Apply(w, e), id)
  {
    assert RowOk(w.db.rows[id], id, w.db, w.router, foreign);
    if KeyOf(w.db.rows[id]) in w.router.secrets {
      PresentMeansInUse(w.db, w.router.secrets.Keys, foreign, id);
    }
    OthersKeepRow(w, foreign, id, e);
  }

  lemma {:induction false} TerminatedForever(w: World, foreign: set<Key>, id: Id, events: seq<Event>)
    requires Inv(w, foreign) && id in w.db.rows && w.db.rows[id].status == Terminated
    ensures Keeps(w, ApplyAll(w, events), id)
    decreases |events|
  {
    if events != [] {
      EventKeepsInv(w, foreign, events[0]);
      TerminatedIsFinal(w, foreign, id, events[0]);
      TerminatedForever(Apply(w, events[0]), foreign, id, events[1..]);
    }
  }

  // ---- In use exactly when the secret is there ----

  /** The secret is removed and the row then not written. */
  predicate Strands(w: World, e: Event)
  {
    && ((e.Change? && e.command.Terminate?) || e.Delete?) && !e.stores
    && e.id in w.db.rows && w.db.rows[e.id].secret.Some? && KeyOf(w.db.rows[e.id]) in w.router.secrets
  }

  lemma InsertKeepsMatched(w: World, foreign: set<Key>, d: Draft, password: string)
    requires Inv(w, foreign) && Matched(w) && d.plan in w.db.plans
    ensures Matched(Inserted(w, d, password))
  {
    var after := Inserted(w, d, password);
    forall id | id in w.db.rows ensures KeyOf(w.db.rows[id]) != Key(d.router, w.router.next) && id != w.db.next {
      assert RowOk(w.db.rows[id], id, w.db, w.router, foreign);
    }
  }

  lemma StoreKeepsMatched(w: World, foreign: set<Key>, id: Id, row: Row, after: Router)
    requires RowsOk(w.db, w.router, foreign) && Distinct(w.db.rows) && Matched(w)
    requires id in w.db.rows && row.id == id && w.db.rows[id].secret.Some? && SameSecret(w.db.rows[id], row)
    requires forall k :: k != KeyOf(row) ==> (k in after.secrets <==> k in w.router.secrets)
    requires row.status != Terminated <==> KeyOf(row) in after.secrets
    ensures Matched(World(SaveRow(w.db, row), after, w.cache - {id}))
  {
    forall i | i in w.db.rows && i != id && w.db.rows[i].secret.Some? ensures KeyOf(w.db.rows[i]) != KeyOf(row) {
      assert KeyOf(w.db.rows[i]) != KeyOf(w.db.rows[id]);
    }
  }

  lemma EffectKeepsMatched(w: World, foreign: set<Key>, id: Id, c: Command, router: Router, stores: bool)
    requires Inv(w, foreign) && Matched(w) && id in w.db.rows && !Strands(w, Change(id, c, stores))
    requires RouterEffect(w.db, w.router, w.db.rows[id], c) == Ok(router)
    ensures Matched(if stores then World(SaveRow(w.db, RowEffect(w.db.rows[id], c)), router, w.cache - {id})
                    else w.(router := router))
  {
    var row := w.db.rows[id];
    assert RowOk(row, id, w.db, w.router, foreign);
    EffectOnKeys(w.db, w.router, row, c);
    if stores {
      StoreKeepsMatched(w, foreign, id, RowEffect(row, c), router);
    } else {
      SameKeysMatched(w, router);
    }
  }

  lemma SameKeysMatched(w: World, after: Router)
    requires Matched(w) && after.secrets.Keys == w.router.secrets.Keys
    ensures Matched(w.(router := after))
  {
    forall id | id in w.db.rows && w.db.rows[id].secret.Some?
      ensures w.db.rows[id].status != Terminated <==> KeyOf(w.db.rows[id]) in after.secrets.Keys
    {
      assert KeyOf(w.db.rows[id]) in w.router.secrets <==> KeyOf(w.db.rows[id]) in w.router.secrets.Keys;
    }
  }

  lemma SaveKeepsMatched(w: World, foreign: set<Key>, sub: Row, stores: bool)
    requires Inv(w, foreign) && Matched(w) && sub.id in w.db.rows
    requires SameSecret(w.db.rows[sub.id], sub) && sub.status == w.db.rows[sub.id].status
    ensures Matched(SavedWith(w, sub, stores).world)
  {
    var existing := w.db.rows[sub.id];
    assert RowOk(existing, sub.id, w.db, w.router, foreign);
    if sub.plan in w.db.plans && KeyOf(existing) in w.router.secrets {
      var patch := SecretOf(sub, w.db.plans[sub.plan]);
      var router := UpdateSecret(w.router, KeyOf(existing), patch).value;
      UpdateKeepsKeys(w.router, KeyOf(existing), patch);
      RollbackKeepsKeys(w.db, router, existing);
      SameKeysMatched(w, RolledBack(w.db, router, existing));
      StoreKeepsMatched(w, foreign, sub.id, sub, router);
    }
  }

  lemma UpdateKeepsMatched(w: World, foreign: set<Key>, id: Id, q: UpdateRequest, stores: bool)
    requires Inv(w, foreign) && Matched(w)
    ensures Matched(Updated(w, id, q, stores).world)
  {
    if id in w.db.rows {
      assert RowOk(w.db.rows[id], id, w.db, w.router, foreign);
      ReadRefinesDatabase(w, foreign, id);
      FetchKeepsInv(w, foreign, id);
      SaveKeepsMatched(Fetched(w, id), foreign, ApplyTo(q, Read(w, id).value), stores);
    }
  }

  lemma RollbackKeepsKeys(db: Database, r: Router, existing: Row)
    requires RouterOk(r) && existing.secret.Some?
    ensures RolledBack(db, r, existing).secrets.Keys == r.secrets.Keys
  {}

  lemma DeleteKeepsMatched(w: World, foreign: set<Key>, id: Id, stores: bool)
    requires Inv(w, foreign) && Matched(w) && !Strands(w, Delete(id, stores))
    ensures Matched(Deleted(w, id, stores).world)
  {
    if id in w.db.rows {
      var row := w.db.rows[id];
      assert RowOk(row, id, w.db, w.router, foreign);
      forall i | i in w.db.rows && i != id ensures KeyOf(w.db.rows[i]) != KeyOf(row) {
        assert RowOk(w.db.rows[i], i, w.db, w.router, foreign);
      }
    }
  }

  lemma EventKeepsMatched(w: World, foreign: set<Key>, e: Event)
    requires Inv(w, foreign) && Matched(w) && !Strands(w, e)
    ensures Matched(Apply(w, e))
  {
    match e
    case Create(draft, generated, stores) =>
      CreateIsAtomic(w, draft, generated, stores);
      if Created(w, draft, generated, stores).error == None {
        InsertKeepsMatched(w, foreign, draft, OrElse(draft.password, generated));
      }
    case Change(id, command, stores) =>
      TransitionCases(w, id, command, stores);
      if Apply(w, e) != w {
        EffectKeepsMatched(w, foreign, id, command, RouterEffect(w.db, w.router, w.db.rows[id], command).value, stores);
      }
    case Update(id, request, stores) => UpdateKeepsMatched(w, foreign, id, request, stores);
    case Delete(id, stores) => DeleteKeepsMatched(w, foreign, id, stores);
    case _ =>
  }

  /** A subscription in use without its secret. */
  predicate Stranded(w: World, id: Id)
  {
    && id in w.db.rows && w.db.rows[id].secret.Some?
    && w.db.rows[id].status != Terminated && KeyOf(w.db.rows[id]) !in w.router.secrets
  }

  lemma StrandsOne(w: World, foreign: set<Key>, e: Event)
    requires Inv(w, foreign) && Strands(w, e)
    ensures Stranded(Apply(w, e), e.id)
  {
    var row := w.db.rows[e.id];
    assert RowOk(row, e.id, w.db, w.router, foreign);
    PresentMeansInUse(w.db, w.router.secrets.Keys, foreign, e.id);
  }

  /** An event keeps every subscription with its secret exactly when it does not remove one and then fail to write the row. */
  lemma MatchedExactlyUnlessStranding(w: World, foreign: set<Key>, e: Event)
    requires Inv(w, foreign) && Matched(w)
    ensures Matched(Apply(w, e)) <==> !Strands(w, e)
  {
    if Strands(w, e) {
      StrandsOne(w, foreign, e);
    } else {
      EventKeepsMatched(w, foreign, e);
    }
  }

  /** An id that is not in use is never used again. */
  lemma AbsentStaysAbsent(w: World, foreign: set<Key>, e: Event, k: Key)
    requires Inv(w, foreign) && k !in w.router.secrets && k.id < w.router.next
    ensures k !in Apply(w, e).router.secrets && k.id < Apply(w, e).router.next
  {
    match e
    case Create(draft, generated, stores) => CreateIsAtomic(w, draft, generated, stores);
    case Change(id, command, stores) =>
      TransitionCases(w, id, command, stores);
      if Apply(w, e) != w {
        assert RowOk(w.db.rows[id], id, w.db, w.router, foreign);
        EffectOnKeys(w.db, w.router, w.db.rows[id], command);
        assert k !in w.router.secrets.Keys;
      }
    case Update(id, request, stores) =>
      UpdateKeepsSwitches(w, foreign, id, request, stores);
      assert k !in w.router.secrets.Keys;
    case _ =>
  }

  /** The same secrets, none of them switched. */
  ghost predicate SameSwitches(r: Router, after: Router)
  {
    && after.secrets.Keys == r.secrets.Keys && after.next == r.next
    && forall k :: k in r.secrets ==> after.secrets[k].disabled == r.secrets[k].disabled
  }

  lemma PatchKeepsSwitches(r: Router, k: Key, p: Patch)
    requires k in r.secrets
    ensures SameSwitches(r, UpdateSecret(r, k, p).value)
  {}

  lemma RollbackKeepsSwitches(db: Database, r: Router, existing: Row)
    requires existing.secret.Some?
    ensures SameSwitches(r, RolledBack(db, r, existing))
  {
    if existing.plan in db.plans && KeyOf(existing) in r.secrets {
      PatchKeepsSwitches(r, KeyOf(existing), SecretOf(existing, db.plans[existing.plan]));
    }
  }

  lemma SaveKeepsSwitches(w: World, sub: Row, stores: bool)
    requires sub.id in w.db.rows ==> w.db.rows[sub.id].secret.Some?
    ensures SameSwitches(w.router, SavedWith(w, sub, stores).world.router)
  {
    if sub.id in w.db.rows && sub.plan in w.db.plans && KeyOf(w.db.rows[sub.id]) in w.router.secrets {
      var existing, patch := w.db.rows[sub.id], SecretOf(sub, w.db.plans[sub.plan]);
      PatchKeepsSwitches(w.router, KeyOf(existing), patch);
      RollbackKeepsSwitches(w.db, UpdateSecret(w.router, KeyOf(existing), patch).value, existing);
    }
  }

  lemma UpdateKeepsSwitches(w: World, foreign: set<Key>, id: Id, q: UpdateRequest, stores: bool)
    requires Inv(w, foreign)
    ensures SameSwitches(w.router, Updated(w, id, q, stores).world.router)
  {
    if id in w.db.rows {
      assert RowOk(w.db.rows[id], id, w.db, w.router, foreign);
      ReadRefinesDatabase(w, foreign, id);
      SaveKeepsSwitches(Fetched(w, id), ApplyTo(q, Read(w, id).value), stores);
    }
  }

  lemma StrandedStays(w: World, foreign: set<Key>, e: Event, id: Id)
    requires Inv(w, foreign) && Stranded(w, id)
    ensures Stranded(Apply(w, e), id)
  {
    assert RowOk(w.db.rows[id], id, w.db, w.router, foreign);
    OthersKeepRow(w, foreign, id, e);
    AbsentStaysAbsent(w, foreign, e, KeyOf(w.db.rows[id]));
  }

  lemma {:induction false} StrandedForever(w: World, foreign: set<Key>, events: seq<Event>, id: Id)
    requires Inv(w, foreign) && Stranded(w, id)
    ensures Stranded(ApplyAll(w, events), id)
    decreases |events|
  {
    if events != [] {
      EventKeepsInv(w, foreign, events[0]);
      StrandedStays(w, foreign, events[0], id);
      StrandedForever(Apply(w, events[0]), foreign, events[1..], id);
    }
  }

  /** No removal of a secret in the run is followed by a failing write of its row. */
  predicate NeverStrands(w: World, events: seq<Event>)
    decreases |events|
  {
    events != [] ==> !Strands(w, events[0]) && NeverStrands(Apply(w, events[0]), events[1..])
  }

  /**
   Over every run, a subscription is in use exactly when its secret is on the router, if and only if no
   row write failed after its secret was removed: what is once stranded stays so.
   */
  lemma {:induction false} RunStaysMatchedExactly(w: World, foreign: set<Key>, events: seq<Event>)
    requires Inv(w, foreign) && Matched(w)
    ensures Matched(ApplyAll(w, events)) <==> NeverStrands(w, events)
    decreases |events|
  {
    if events != [] {
      var e := events[0];
      EventKeepsInv(w, foreign, e);
      if Strands(w, e) {
        StrandsOne(w, foreign, e);
        StrandedForever(Apply(w, e), foreign, events[1..], e.id);
        assert Stranded(ApplyAll(w, events), e.id);
      } else {
        EventKeepsMatched(w, foreign, e);
        RunStaysMatchedExactly(Apply(w, e), foreign, events[1..]);
      }
    }
  }

  // ---- Which secrets are disabled ----

  /** Whether the event switches the secret off or on: suspending and activating do, and nothing else. */
  function Switch(w: World, e: Event, k: Key): Option<bool>
  {
    if e.Change? && e.id in w.db.rows && Resolve(w.router, w.db.rows[e.id]) == Some(k)
       && RouterEffect(w.db, w.router, w.db.rows[e.id], e.command).Ok?
    then
      match e.command
      case Suspend(_) => Some(true)
      case Activate(_) => Some(false)
      case _ => None
    else None
  }

  function Switched(before: bool, switch: Option<bool>): bool { if switch.Some? then switch.value else before }

  lemma EffectOnDisabled(db: Database, r: Router, row: Row, c: Command, k: Key)
    requires row.secret.Some? && RouterEffect(db, r, row, c).Ok?
    requires k in r.secrets && k in RouterEffect(db, r, row, c).value.secrets
    ensures RouterEffect(db, r, row, c).value.secrets[k].disabled
         == if k == KeyOf(row) && c.Suspend? then true
            else if k == KeyOf(row) && c.Activate? then false
            else r.secrets[k].disabled
  {}

  lemma ChangeSwitches(w: World, foreign: set<Key>, id: Id, c: Command, stores: bool, k: Key)
    requires Inv(w, foreign) && k in w.router.secrets && k in Transition(w, id, c, stores).world.router.secrets
    ensures Transition(w, id, c, stores).world.router.secrets[k].disabled
         == Switched(w.router.secrets[k].disabled, Switch(w, Change(id, c, stores), k))
  {
    if id in w.db.rows {
      var row := w.db.rows[id];
      assert RowOk(row, id, w.db, w.router, foreign);
      if RouterEffect(w.db, w.router, row, c).Ok? && k in RouterEffect(w.db, w.router, row, c).value.secrets {
        EffectOnDisabled(w.db, w.router, row, c, k);
      }
    }
  }

  lemma DeleteKeepsOtherSwitches(w: World, foreign: set<Key>, id: Id, stores: bool, k: Key)
    requires Inv(w, foreign) && k in w.router.secrets && k in Deleted(w, id, stores).world.router.secrets
    ensures Deleted(w, id, stores).world.router.secrets[k] == w.router.secrets[k]
  {}

  lemma CreateKeepsOtherSwitches(w: World, d: Draft, generated: string, stores: bool, k: Key)
    requires RouterOk(w.router) && k in w.router.secrets
    ensures var after := Created(w, d, generated, stores).world.router.secrets; k in after && after[k] == w.router.secrets[k]
  {
    CreateIsAtomic(w, d, generated, stores);
  }

  /** An event leaves a secret as disabled as it was, unless it switches it. */
  lemma EventSwitches(w: World, foreign: set<Key>, e: Event, k: Key)
    requires Inv(w, foreign) && k in w.router.secrets && k in Apply(w, e).router.secrets
    ensures Apply(w, e).router.secrets[k].disabled == Switched(w.router.secrets[k].disabled, Switch(w, e, k))
  {
    match e
    case Create(draft, generated, stores) => CreateKeepsOtherSwitches(w, draft, generated, stores, k);
    case Change(id, command, stores) => ChangeSwitches(w, foreign, id, command, stores, k);
    case Update(id, request, stores) => UpdateKeepsSwitches(w, foreign, id, request, stores);
    case Delete(id, stores) => DeleteKeepsOtherSwitches(w, foreign, id, stores, k);
    case _ =>
  }

  /** What the last switch of the run made of the secret. */
  function LastSwitch(w: World, events: seq<Event>, k: Key, before: bool): bool
    decreases |events|
  {
    if events == [] then before
    else LastSwitch(Apply(w, events[0]), events[1..], k, Switched(before, Switch(w, events[0], k)))
  }

  lemma {:induction false} PresentThroughout(w: World, foreign: set<Key>, events: seq<Event>, k: Key)
    requires Inv(w, foreign) && k.id < w.router.next && k in ApplyAll(w, events).router.secrets
    ensures k in w.router.secrets
    decreases |events|
  {
    if events != [] {
      EventKeepsInv(w, foreign, events[0]);
      if k !in w.router.secrets {
        AbsentStaysAbsent(w, foreign, events[0], k);
        PresentThroughout(Apply(w, events[0]), foreign, events[1..], k);
      }
    }
  }

  lemma NextGrows(w: World, foreign: set<Key>, e: Event)
    requires Inv(w, foreign)
    ensures w.router.next <= Apply(w, e).router.next
  {
    match e
    case Create(draft, generated, stores) => CreateIsAtomic(w, draft, generated, stores);
    case Change(id, command, stores) =>
      TransitionCases(w, id, command, stores);
      if Apply(w, e) != w {
        assert RowOk(w.db.rows[id], id, w.db, w.router, foreign);
        EffectOnKeys(w.db, w.router, w.db.rows[id], command);
      }
    case Update(id, request, stores) => UpdateKeepsSwitches(w, foreign, id, request, stores);
    case _ =>
  }

  /**
   Over every run a secret that is still there is disabled exactly when it was last suspended and not
   activated since, whatever else was done to its subscription; a new secret is enabled.
   */
  lemma {:induction false} DisabledExactlyWhenLastSuspended(w: World, foreign: set<Key>, events: seq<Event>, k: Key)
    requires Inv(w, foreign) && k in w.router.secrets && k in ApplyAll(w, events).router.secrets
    ensures ApplyAll(w, events).router.secrets[k].disabled == LastSwitch(w, events, k, w.router.secrets[k].disabled)
    decreases |events|
  {
    if events != [] {
      var e := events[0];
      EventKeepsInv(w, foreign, e);
      NextGrows(w, foreign, e);
      PresentThroughout(Apply(w, e), foreign, events[1..], k);
      EventSwitches(w, foreign, e, k);
      DisabledExactlyWhenLastSuspended(Apply(w, e), foreign, events[1..], k);
    }
  }

  lemma NewSecretIsEnabled(w: World, d: Draft, generated: string, stores: bool)
    requires RouterOk(w.router) && Created(w, d, generated, stores).error == None
    ensures var secrets := Created(w, d, generated, stores).world.router.secrets;
            Key(d.router, w.router.next) in secrets && !secrets[Key(d.router, w.router.next)].disabled
  {
    CreateIsAtomic(w, d, generated, stores);
  }

  /**
   A successful restore makes the subscription active from any status, and leaves its secret enabled
   exactly when it was not disabled before.
   */
  lemma RestoreEnablesExactlyTheEnabled(w: World, foreign: set<Key>, id: Id, stores: bool)
    requires Inv(w, foreign) && Transition(w, id, Restore, stores).error == None
    ensures var k, after := KeyOf(w.db.rows[id]), Transition(w, id, Restore, stores).world;
            && id in after.db.rows && after.db.rows[id].status == Active
            && k in w.router.secrets && k in after.router.secrets
            && (!after.router.secrets[k].disabled <==> !w.router.secrets[k].disabled)
  {
    assert RowOk(w.db.rows[id], id, w.db, w.router, foreign);
    EffectOnKeys(w.db, w.router, w.db.rows[id], Restore);
    assert KeyOf(w.db.rows[id]) in w.router.secrets.Keys;
    ChangeSwitches(w, foreign, id, Restore, stores, KeyOf(w.db.rows[id]));
  }

  // ---- Isolating and restoring ----

  /**
   Isolating an active subscription and restoring it brings back its status and its plan's profile, and
   changes nothing else but the suspend reason; the profile is the plan's unless the plan has no name.
   */
  lemma IsolateThenRestore(w: World, foreign: set<Key>, id: Id, reason: string)
    requires Inv(w, foreign) && id in w.db.rows && w.db.rows[id].status == Active
    requires w.db.rows[id].plan in w.db.plans && KeyOf(w.db.rows[id]) in w.router.secrets
    ensures var row, k := w.db.rows[id], KeyOf(w.db.rows[id]);
            var secret, plan := w.router.secrets[k], w.db.plans[row.plan];
            var isolated := Transition(w, id, Isolate(reason), true);
            var restored := Transition(isolated.world, id, Restore, true);
            var profile := OrElse(plan.name, OrElse(IsolateProfile(w.db.plans, w.db.isolateProfile, row.plan), secret.profile));
            && isolated.error == None && restored.error == None
            && isolated.world.db.rows[id].status == Status.Isolated
            && isolated.world.router.secrets[k].profile
               == OrElse(IsolateProfile(w.db.plans, w.db.isolateProfile, row.plan), secret.profile)
            && restored.world.db == SaveRow(w.db, row.(suspendReason := None))
            && restored.world.router == w.router.(secrets := w.router.secrets[k := secret.(profile := profile)])
            && (plan.name != "" ==> profile == plan.name)
  {
    assert RowOk(w.db.rows[id], id, w.db, w.router, foreign);
    var isolated := Transition(w, id, Isolate(reason), true).world;
    var restored := Transition(isolated, id, Restore, true).world;
    assert restored.db.rows == w.db.rows[id := w.db.rows[id].(suspendReason := None)];
    assert restored.router.secrets[KeyOf(w.db.rows[id])].disabled == w.router.secrets[KeyOf(w.db.rows[id])].disabled;
    assert restored.router.secrets.Keys == w.router.secrets.Keys;
  }

  /** Restore looks at no status: a suspended subscription becomes active while its secret stays disabled. */
  lemma SuspendThenRestoreStaysDisabled(w: World, foreign: set<Key>, id: Id, reason: string)
    requires Inv(w, foreign) && id in w.db.rows
    requires w.db.rows[id].plan in w.db.plans && KeyOf(w.db.rows[id]) in w.router.secrets
    ensures var suspended := Transition(w, id, Suspend(reason), true);
            var restored := Transition(suspended.world, id, Restore, true);
            && suspended.error == None && restored.error == None
            && restored.world.db.rows[id].status == Active && restored.world.router.secrets[KeyOf(w.db.rows[id])].disabled
  {
    assert RowOk(w.db.rows[id], id, w.db, w.router, foreign);
  }

  // ---- The password of an updated subscription ----

  /**
   An update that reads the subscription from the cache and brings no password stores an empty one, while
   the router keeps the old; otherwise the stored password is the request's or the old one.
   */
  lemma UpdateThroughCacheErasesPassword(w: World, foreign: set<Key>, id: Id, q: UpdateRequest)
    requires Inv(w, foreign) && id in w.db.rows && Updated(w, id, q, true).error == None
    ensures var row, after := w.db.rows[id], Updated(w, id, q, true).world;
            && id in after.db.rows && KeyOf(row) in w.router.secrets && KeyOf(row) in after.router.secrets
            && after.db.rows[id].password ==
                 (if q.password.Some? then q.password.value else if id in w.cache then "" else row.password)
            && after.router.secrets[KeyOf(row)].password ==
                 OrElse(after.db.rows[id].password, w.router.secrets[KeyOf(row)].password)
  {
    assert RowOk(w.db.rows[id], id, w.db, w.router, foreign);
    ReadRefinesDatabase(w, foreign, id);
  }
}
