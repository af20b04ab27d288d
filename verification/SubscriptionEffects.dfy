/**
 What each operation on a subscription achieves, in terms of the row, the secret and the cached copy, and
 exactly when: internal/service/subscription_service.go after any history (the invariant of SubscriptionRuns).
 */
module SubscriptionEffects {
  import opened Common
  import opened SubscriptionDomain
  import opened Subscriptions
  import opened SubscriptionRuns

  /** The row's secret is on its router. */
  predicate Present(w: World, id: Id)
  {
    id in w.db.rows && w.db.rows[id].secret.Some? && KeyOf(w.db.rows[id]) in w.router.secrets
  }

  /** The value where there is one, else what was there before. */
  function Given<T>(value: Option<T>, before: T): T { if value.Some? then value.value else before }

  function NonEmpty(value: string, before: string): string { if value != "" then value else before }

  /** One secret is another one now; nothing else on the routers has changed. */
  ghost predicate Rewrites(r: Router, after: Router, k: Key, secret: Secret)
  {
    k in r.secrets && after.secrets == r.secrets[k := secret] && after.names == r.names && after.next == r.next
  }

  /** One row is another one now, its cached copy is dropped, and nothing else in database and cache has changed. */
  ghost predicate Stores(w: World, after: World, id: Id, row: Row)
  {
    && after.db == w.db.(rows := w.db.rows[id := row])
    && after.cache.Keys == w.cache.Keys - {id} && forall i :: i in after.cache ==> after.cache[i] == w.cache[i]
  }

  // ---- Rows that do not know their secret ----

  /** Such a row, written by something else than the service, is taken to have the secret that bears its name on its router. */
  lemma ResolvedByName(r: Router, row: Row, k: Key)
    requires RouterOk(r) && row.secret.None?
    ensures Resolve(r, row) == Some(k) <==> k in r.secrets && k.router == row.router && r.secrets[k].name == row.username
  {
    if k in r.secrets && k.router == row.router && r.secrets[k].name == row.username {
      assert r.names[Login(k.router, r.secrets[k].name)] == k.id;
    }
  }

  /** Removing its secret removes that one, and is no error when there is none. */
  lemma RemovedByName(r: Router, row: Row)
    requires RouterOk(r) && row.secret.None?
    ensures RemoveFromRouter(r, row).Ok?
    ensures forall k :: k in RemoveFromRouter(r, row).value.secrets <==>
              k in r.secrets && !(k.router == row.router && r.secrets[k].name == row.username)
    ensures forall k :: k in RemoveFromRouter(r, row).value.secrets ==>
              RemoveFromRouter(r, row).value.secrets[k] == r.secrets[k]
  {
    forall k | k in r.secrets
      ensures Resolve(r, row) == Some(k) <==> k.router == row.router && r.secrets[k].name == row.username
    {
      ResolvedByName(r, row, k);
    }
  }

  // ---- Creating ----

  /** Creating succeeds exactly for a plan of the same router, good credentials, a free login and a name never used. */
  lemma CreateSucceedsExactly(w: World, foreign: set<Key>, d: Draft, generated: string, stores: bool)
    requires Inv(w, foreign)
    ensures var password := if d.password == "" then generated else d.password;
            Created(w, d, generated, stores).error == None <==>
              && d.plan in w.db.plans && w.db.plans[d.plan].router == d.router
              && 3 <= |d.username| <= 100 && 6 <= |password|
              && (forall k :: k in w.router.secrets ==> !(k.router == d.router && w.router.secrets[k].name == d.username))
              && d.username !in w.db.usernames && stores
  {
    if Login(d.router, d.username) in w.router.names {
      var k := Key(d.router, w.router.names[Login(d.router, d.username)]);
      assert k in w.router.secrets && w.router.secrets[k].name == d.username;
    }
  }

  /** It makes a pending row and an enabled secret with the plan's profile, joined by the secret's id. */
  lemma CreateSets(w: World, foreign: set<Key>, d: Draft, generated: string)
    requires Inv(w, foreign) && Created(w, d, generated, true).error == None
    ensures var after, id, k := Created(w, d, generated, true).world, w.db.next, Key(d.router, w.router.next);
            var password := if d.password == "" then generated else d.password;
            && id !in w.db.rows && k !in w.router.secrets
            && after.db.rows == w.db.rows[id := Row(id, d.customer, d.plan, d.router, d.username, password, d.options,
                                                    Some(k.id), Pending, None, None, None)]
            && after.db.plans == w.db.plans && after.db.usernames == w.db.usernames + {d.username} && id < after.db.next
            && after.router.secrets == w.router.secrets[k :=
                 Secret(d.username, password, w.db.plans[d.plan].name, d.options.staticIP, false)]
  {
    CreateIsAtomic(w, d, generated, true);
    forall i | i in w.db.rows ensures i < w.db.next {
      assert RowOk(w.db.rows[i], i, w.db, w.router, foreign);
    }
  }

  // ---- Reading ----

  /** Reading puts a copy into the cache, so that the next read does not ask the database. */
  lemma ReadFillsTheCache(w: World, foreign: set<Key>, id: Id)
    requires Inv(w, foreign)
    ensures var after := Fetched(w, id);
            && after.db == w.db && after.router == w.router
            && (forall i :: i in after.cache <==> i in w.cache || (i == id && id in w.db.rows))
            && (forall i :: i in w.cache ==> after.cache[i] == w.cache[i])
  {}

  // ---- Updating ----

  /** The plan that the row has after the update. */
  function PlanAfter(w: World, id: Id, q: UpdateRequest): Id
    requires id in w.db.rows
  {
    Given(q.plan, w.db.rows[id].plan)
  }

  /**
   An update succeeds exactly for a stored row with its secret on the router and a plan that exists and, if
   new, is of that router.
   */
  lemma UpdateSucceedsExactly(w: World, foreign: set<Key>, id: Id, q: UpdateRequest, stores: bool)
    requires Inv(w, foreign)
    ensures Updated(w, id, q, stores).error == None <==>
              && Present(w, id) && stores && PlanAfter(w, id, q) in w.db.plans
              && (PlanAfter(w, id, q) != w.db.rows[id].plan ==> w.db.plans[PlanAfter(w, id, q)].router == w.db.rows[id].router)
  {
    ReadRefinesDatabase(w, foreign, id);
    if id in w.db.rows {
      assert RowOk(w.db.rows[id], id, w.db, w.router, foreign);
    }
  }

  /** A secret after it was sent a row's and its plan's values: those that are not empty. */
  function Sent(secret: Secret, row: Row, plan: Plan): Secret
  {
    Secret(secret.name, NonEmpty(row.password, secret.password), NonEmpty(plan.name, secret.profile),
           NonEmpty(row.options.staticIP, secret.remoteAddress), secret.disabled)
  }

  lemma SendingSets(r: Router, row: Row, plan: Plan)
    requires row.secret.Some? && KeyOf(row) in r.secrets
    ensures var sent := UpdateSecret(r, KeyOf(row), SecretOf(row, plan));
            sent.Some? && Rewrites(r, sent.value, KeyOf(row), Sent(r.secrets[KeyOf(row)], row, plan))
  {}

  /** What saving a row does that has its secret on the router and a plan to go with it. */
  lemma SaveSets(w: World, sub: Row)
    requires sub.id in w.db.rows && w.db.rows[sub.id].secret.Some? && SameSecret(w.db.rows[sub.id], sub)
    requires Present(w, sub.id) && sub.plan in w.db.plans
    requires sub.plan != w.db.rows[sub.id].plan ==> w.db.plans[sub.plan].router == sub.router
    ensures var k, out := KeyOf(sub), SavedWith(w, sub, true);
            && out.error == None && Stores(w, out.world, sub.id, sub)
            && Rewrites(w.router, out.world.router, k, Sent(w.router.secrets[k], sub, w.db.plans[sub.plan]))
  {
    SendingSets(w.router, sub, w.db.plans[sub.plan]);
  }

  lemma SetBack(w: World, sub: Row)
    requires sub.id in w.db.rows && w.db.rows[sub.id].secret.Some? && SameSecret(w.db.rows[sub.id], sub)
    requires Present(w, sub.id) && sub.plan in w.db.plans
    requires sub.plan != w.db.rows[sub.id].plan ==> w.db.plans[sub.plan].router == sub.router
    ensures var k, existing, out := KeyOf(sub), w.db.rows[sub.id], SavedWith(w, sub, false);
            var sent := Sent(w.router.secrets[k], sub, w.db.plans[sub.plan]);
            && out.error == Some(NotStored) && out.world.db == w.db && out.world.cache == w.cache
            && Rewrites(w.router, out.world.router, k,
                        if existing.plan !in w.db.plans then sent else Sent(sent, existing, w.db.plans[existing.plan]))
  {
    SendingSets(w.router, sub, w.db.plans[sub.plan]);
    var existing := w.db.rows[sub.id];
    if existing.plan in w.db.plans {
      SendingSets(UpdateSecret(w.router, KeyOf(sub), SecretOf(sub, w.db.plans[sub.plan])).value, existing,
                  w.db.plans[existing.plan]);
    }
  }

  /** The row that an update means to write. */
  function RowAfterUpdate(w: World, id: Id, q: UpdateRequest): Row
    requires id in w.db.rows
  {
    var row := w.db.rows[id];
    row.(plan := PlanAfter(w, id, q), options := Given(q.options, row.options),
         password := Given(q.password, if id in w.cache then "" else row.password))
  }

  lemma UpdateSaves(w: World, foreign: set<Key>, id: Id, q: UpdateRequest, stores: bool)
    requires Inv(w, foreign) && id in w.db.rows
    ensures w.db.rows[id].id == id && w.db.rows[id].secret.Some?
    ensures Updated(w, id, q, stores) == SavedWith(Fetched(w, id), RowAfterUpdate(w, id, q), stores)
  {
    assert RowOk(w.db.rows[id], id, w.db, w.router, foreign);
    ReadRefinesDatabase(w, foreign, id);
    assert ApplyTo(q, Read(w, id).value) == RowAfterUpdate(w, id, q);
  }

  /**
   The row then has the plan, the options and the password of the request, where given, and its secret the
   plan's name as profile, the static address and the password, where not empty. Nothing else changes, but
   that a row from the cache has no password.
   */
  lemma UpdateSets(w: World, foreign: set<Key>, id: Id, q: UpdateRequest)
    requires Inv(w, foreign) && Updated(w, id, q, true).error == None
    ensures Present(w, id) && PlanAfter(w, id, q) in w.db.plans
    ensures var k, row, after := KeyOf(w.db.rows[id]), RowAfterUpdate(w, id, q), Updated(w, id, q, true).world;
            && Stores(w, after, id, row)
            && Rewrites(w.router, after.router, k, Sent(w.router.secrets[k], row, w.db.plans[row.plan]))
  {
    UpdateSucceedsExactly(w, foreign, id, q, true);
    UpdateSaves(w, foreign, id, q, true);
    SaveSets(Fetched(w, id), RowAfterUpdate(w, id, q));
  }

  /** After a failed update the database is as it was; the routers are, too, unless it was the write that failed. */
  lemma FailedUpdateKeeps(w: World, foreign: set<Key>, id: Id, q: UpdateRequest, stores: bool)
    requires Inv(w, foreign) && Updated(w, id, q, stores).error.Some?
    ensures var out := Updated(w, id, q, stores);
            out.world.db == w.db && (out.error != Some(NotStored) ==> out.world.router == w.router)
  {
    ReadRefinesDatabase(w, foreign, id);
    if id in w.db.rows {
      assert RowOk(w.db.rows[id], id, w.db, w.router, foreign);
    }
  }

  /**
   When it was, the secret is set back to the stored row: its profile, address and password are the stored
   ones where those are not empty, and else what the update made of them; if the stored plan is gone, all
   are. No other secret changes.
   */
  lemma FailedWriteSetsBack(w: World, foreign: set<Key>, id: Id, q: UpdateRequest)
    requires Inv(w, foreign) && Updated(w, id, q, true).error == None
    ensures Present(w, id) && PlanAfter(w, id, q) in w.db.plans
    ensures var k, existing, row := KeyOf(w.db.rows[id]), w.db.rows[id], RowAfterUpdate(w, id, q);
            var sent, out := Sent(w.router.secrets[k], row, w.db.plans[row.plan]), Updated(w, id, q, false);
            && out.error == Some(NotStored) && out.world.db == w.db
            && Rewrites(w.router, out.world.router, k,
                        if existing.plan !in w.db.plans then sent else Sent(sent, existing, w.db.plans[existing.plan]))
  {
    UpdateSucceedsExactly(w, foreign, id, q, true);
    UpdateSaves(w, foreign, id, q, false);
    SetBack(Fetched(w, id), RowAfterUpdate(w, id, q));
  }

  // ---- Status changes ----

  /** The status that a command gives. */
  function Target(c: Command): Status
  {
    match c
    case Activate(_) => Active
    case Isolate(_) => Status.Isolated
    case Restore => Active
    case Suspend(_) => Suspended
    case Terminate(_) => Terminated
  }

  /**
   A command succeeds exactly if the row is stored with its secret on the router and can be written,
   Activate unless it is active or terminated, Restore if its plan exists; isolating an isolated one does
   nothing, and so always succeeds.
   */
  lemma CommandSucceedsExactly(w: World, foreign: set<Key>, id: Id, c: Command, stores: bool)
    requires Inv(w, foreign)
    ensures Transition(w, id, c, stores).error == None <==>
              && id in w.db.rows
              && var row := w.db.rows[id];
                 || (c.Isolate? && row.status == Status.Isolated)
                 || (&& Present(w, id) && stores
                     && (c.Activate? ==> row.status in {Pending, Suspended, Status.Isolated, Expired})
                     && (c.Restore? ==> row.plan in w.db.plans))
  {
    if id in w.db.rows {
      assert RowOk(w.db.rows[id], id, w.db, w.router, foreign);
    }
  }

  /** The row that a command leaves. */
  ghost predicate RowAfter(row: Row, c: Command, after: Row)
  {
    && after == row.(status := Target(c), activatedAt := after.activatedAt, terminatedAt := after.terminatedAt,
                     suspendReason := after.suspendReason)
    && after.activatedAt == (if c.Activate? then Some(c.now) else row.activatedAt)
    && after.terminatedAt == (if c.Terminate? then Some(c.now) else row.terminatedAt)
    && after.suspendReason == (if c.Isolate? || c.Suspend? then Some(c.reason)
                               else if c.Restore? then None
                               else row.suspendReason)
  }

  /** The isolate profile: that of the plan if it names one, else the general one. */
  function ProfileFor(w: World, row: Row): string
  {
    if row.plan in w.db.plans && w.db.plans[row.plan].isolateProfile != "" then w.db.plans[row.plan].isolateProfile
    else w.db.isolateProfile
  }

  /** The secret that a command other than Terminate leaves. */
  function SecretAfter(w: World, row: Row, c: Command, secret: Secret): Secret
    requires c.Restore? ==> row.plan in w.db.plans
  {
    match c
    case Activate(_) => secret.(disabled := false)
    case Isolate(_) => secret.(profile := NonEmpty(ProfileFor(w, row), secret.profile))
    case Restore => secret.(profile := NonEmpty(w.db.plans[row.plan].name, secret.profile))
    case Suspend(_) => secret.(disabled := true)
    case Terminate(_) => secret
  }

  /** What a command does to the routers: Terminate removes the secret and its name, the others rewrite it. */
  ghost predicate RouterAfter(w: World, row: Row, c: Command, after: Router)
    requires row.secret.Some? && (c.Restore? ==> row.plan in w.db.plans)
  {
    && KeyOf(row) in w.router.secrets
    && var k := KeyOf(row);
       var secret := w.router.secrets[k];
       if c.Terminate? then
         && after.secrets == w.router.secrets - {k} && after.next == w.router.next
         && after.names == w.router.names - {Login(k.router, secret.name)}
       else Rewrites(w.router, after, k, SecretAfter(w, row, c, secret))
  }

  /**
   A command that succeeds sets the status, its time or reason, and the secret to match; one that fails to
   write, the secret alone.
   */
  lemma CommandSets(w: World, foreign: set<Key>, id: Id, c: Command, stores: bool)
    requires Inv(w, foreign) && Transition(w, id, c, true).error == None
    requires !(c.Isolate? && w.db.rows[id].status == Status.Isolated)
    ensures var out := Transition(w, id, c, stores);
            && w.db.rows[id].secret.Some? && (c.Restore? ==> w.db.rows[id].plan in w.db.plans)
            && RouterAfter(w, w.db.rows[id], c, out.world.router)
            && if stores then id in out.world.db.rows && RowAfter(w.db.rows[id], c, out.world.db.rows[id])
                              && Stores(w, out.world, id, out.world.db.rows[id])
               else out.error == Some(NotStored) && out.world.db == w.db && out.world.cache == w.cache
  {
    CommandSucceedsExactly(w, foreign, id, c, true);
    assert RowOk(w.db.rows[id], id, w.db, w.router, foreign);
    EffectAfter(w, w.db.rows[id], c);
  }

  lemma EffectAfter(w: World, row: Row, c: Command)
    requires row.secret.Some? && RouterEffect(w.db, w.router, row, c).Ok?
    ensures (c.Restore? ==> row.plan in w.db.plans) && RouterAfter(w, row, c, RouterEffect(w.db, w.router, row, c).value)
  {
    var after := RouterEffect(w.db, w.router, row, c).value;
    if !c.Terminate? {
      assert after.secrets == w.router.secrets[KeyOf(row) := after.secrets[KeyOf(row)]];
    }
  }

  /** A command that fails before its write, like any isolation of an isolated row, changes nothing. */
  lemma FailedCommandKeeps(w: World, foreign: set<Key>, id: Id, c: Command, stores: bool)
    requires Inv(w, foreign)
    requires Transition(w, id, c, true).error.Some? || (c.Isolate? && w.db.rows[id].status == Status.Isolated)
    ensures Transition(w, id, c, stores).world == w
  {
    if id in w.db.rows {
      assert RowOk(w.db.rows[id], id, w.db, w.router, foreign);
    }
  }

  /** The errors of a command: the first thing that it finds wrong. */
  lemma CommandErrors(w: World, foreign: set<Key>, id: Id, c: Command, stores: bool)
    requires Inv(w, foreign)
    ensures var error := Transition(w, id, c, stores).error;
            error.Some? ==>
              error.value == if id !in w.db.rows then NotFound
                             else if c.Activate? && w.db.rows[id].status in {Active, Terminated} then WrongTransition
                             else if c.Restore? && w.db.rows[id].plan !in w.db.plans then PlanNotFound
                             else if !Present(w, id) then RouterRefused
                             else NotStored
  {
    if id in w.db.rows {
      assert RowOk(w.db.rows[id], id, w.db, w.router, foreign);
    }
  }

  /** The errors of the other operations, likewise. */
  lemma UpdateErrors(w: World, foreign: set<Key>, id: Id, q: UpdateRequest, stores: bool)
    requires Inv(w, foreign)
    ensures var error := Updated(w, id, q, stores).error;
            error.Some? ==>
              error.value == if id !in w.db.rows then NotFound
                             else if PlanAfter(w, id, q) !in w.db.plans then PlanNotFound
                             else if PlanAfter(w, id, q) != w.db.rows[id].plan
                                     && w.db.plans[PlanAfter(w, id, q)].router != w.db.rows[id].router then WrongRouter
                             else if !Present(w, id) then RouterRefused
                             else NotStored
  {
    ReadRefinesDatabase(w, foreign, id);
    if id in w.db.rows {
      assert RowOk(w.db.rows[id], id, w.db, w.router, foreign);
    }
  }

  lemma SaveErrors(w: World, sub: Row, stores: bool)
    requires sub.id in w.db.rows ==> w.db.rows[sub.id].secret.Some?
    ensures var error := SavedWith(w, sub, stores).error;
            error.Some? ==>
              error.value == if sub.id !in w.db.rows then NotFound
                             else if sub.plan !in w.db.plans then PlanNotFound
                             else if sub.plan != w.db.rows[sub.id].plan && w.db.plans[sub.plan].router != sub.router
                             then WrongRouter
                             else if !Present(w, sub.id) then RouterRefused
                             else NotStored
  {}

  lemma CreateErrors(w: World, foreign: set<Key>, d: Draft, generated: string, stores: bool)
    requires Inv(w, foreign)
    ensures var error, password := Created(w, d, generated, stores).error, if d.password == "" then generated else d.password;
            error.Some? ==>
              error.value == if d.plan !in w.db.plans then PlanNotFound
                             else if w.db.plans[d.plan].router != d.router then WrongRouter
                             else if |d.username| < 3 || |d.username| > 100 || |password| < 6 then BadCredentials
                             else if Login(d.router, d.username) in w.router.names then SecretExists
                             else NotStored
  {}

  // ---- Deleting ----

  lemma DeleteSucceedsExactly(w: World, foreign: set<Key>, id: Id, stores: bool)
    requires Inv(w, foreign)
    ensures Deleted(w, id, stores).error == None <==> Present(w, id) && stores
    ensures Present(w, id) ==>
              var after, k := Deleted(w, id, stores).world, KeyOf(w.db.rows[id]);
              && after.router.secrets == w.router.secrets - {k}
              && after.db == (if stores then w.db.(rows := w.db.rows - {id}) else w.db)
              && after.cache == if stores then w.cache - {id} else w.cache
    ensures !Present(w, id) ==> Deleted(w, id, stores).world == w
    ensures Deleted(w, id, stores).error.Some? ==>
              Deleted(w, id, stores).error.value
                == if id !in w.db.rows then NotFound else if !Present(w, id) then RouterRefused else NotStored
  {
    if id in w.db.rows {
      assert RowOk(w.db.rows[id], id, w.db, w.router, foreign);
    }
  }

  // ---- The status over a run ----

  /** The status that the event gives the subscription, if it does. */
  function Sets(w: World, e: Event, id: Id): Option<Status>
  {
    if e.Change? && e.id == id && Transition(w, id, e.command, e.stores).error == None then Some(Target(e.command)) else None
  }

  function LastSet(w: World, events: seq<Event>, id: Id, before: Status): Status
    decreases |events|
  {
    if events == [] then before
    else LastSet(Apply(w, events[0]), events[1..], id, Given(Sets(w, events[0], id), before))
  }

  lemma EventSets(w: World, foreign: set<Key>, e: Event, id: Id)
    requires Inv(w, foreign) && id in w.db.rows && id in Apply(w, e).db.rows
    ensures Apply(w, e).db.rows[id].status == Given(Sets(w, e, id), w.db.rows[id].status)
  {
    if e.Change? && e.id == id {
      ChangeSets(w, foreign, id, e.command, e.stores);
    } else if e.Update? && e.id == id {
      UpdateKeepsStatus(w, foreign, id, e.request, e.stores);
    } else if !Targets(e, id) {
      OthersKeepRow(w, foreign, id, e);
    }
  }

  lemma ChangeSets(w: World, foreign: set<Key>, id: Id, c: Command, stores: bool)
    requires Inv(w, foreign) && id in w.db.rows
    ensures var out := Transition(w, id, c, stores);
            && id in out.world.db.rows
            && out.world.db.rows[id].status == if out.error == None then Target(c) else w.db.rows[id].status
  {
    assert RowOk(w.db.rows[id], id, w.db, w.router, foreign);
  }

  lemma UpdateKeepsStatus(w: World, foreign: set<Key>, id: Id, q: UpdateRequest, stores: bool)
    requires Inv(w, foreign) && id in w.db.rows
    ensures id in Updated(w, id, q, stores).world.db.rows
    ensures Updated(w, id, q, stores).world.db.rows[id].status == w.db.rows[id].status
  {
    assert RowOk(w.db.rows[id], id, w.db, w.router, foreign);
    ReadRefinesDatabase(w, foreign, id);
  }

  /** A row that is gone never comes back: ids are not used twice. */
  lemma GoneStaysGone(w: World, foreign: set<Key>, e: Event, id: Id)
    requires Inv(w, foreign) && id !in w.db.rows && id < w.db.next
    ensures id !in Apply(w, e).db.rows && id < Apply(w, e).db.next
  {
    match e
    case Create(draft, generated, stores) => CreateIsAtomic(w, draft, generated, stores);
    case Update(i, request, _) =>
      ReadRefinesDatabase(w, foreign, i);
      if i in w.db.rows {
        assert RowOk(w.db.rows[i], i, w.db, w.router, foreign);
      }
    case Change(i, _, _) =>
      if i in w.db.rows {
        assert RowOk(w.db.rows[i], i, w.db, w.router, foreign);
      }
    case _ =>
  }

  lemma {:induction false} StoredThroughout(w: World, foreign: set<Key>, events: seq<Event>, id: Id)
    requires Inv(w, foreign) && id < w.db.next && id in ApplyAll(w, events).db.rows
    ensures id in w.db.rows
    decreases |events|
  {
    if events != [] {
      EventKeepsInv(w, foreign, events[0]);
      if id !in w.db.rows {
        GoneStaysGone(w, foreign, events[0], id);
        StoredThroughout(Apply(w, events[0]), foreign, events[1..], id);
      }
    }
  }

  /** Over every run a subscription that is still stored has the status of the last command that succeeded on it. */
  lemma {:induction false} StatusIsTheLastSet(w: World, foreign: set<Key>, events: seq<Event>, id: Id)
    requires Inv(w, foreign) && id in w.db.rows && id in ApplyAll(w, events).db.rows
    ensures ApplyAll(w, events).db.rows[id].status == LastSet(w, events, id, w.db.rows[id].status)
    decreases |events|
  {
    if events != [] {
      var e := events[0];
      assert RowOk(w.db.rows[id], id, w.db, w.router, foreign);
      EventKeepsInv(w, foreign, e);
      NextRowGrows(w, foreign, e);
      StoredThroughout(Apply(w, e), foreign, events[1..], id);
      EventSets(w, foreign, e, id);
      StatusIsTheLastSet(Apply(w, e), foreign, events[1..], id);
    }
  }

  lemma NextRowGrows(w: World, foreign: set<Key>, e: Event)
    requires Inv(w, foreign)
    ensures w.db.next <= Apply(w, e).db.next
  {
    if e.Create? {
      CreateIsAtomic(w, e.draft, e.generated, e.stores);
    } else if e.Update? {
      ReadRefinesDatabase(w, foreign, e.id);
    }
  }
}
