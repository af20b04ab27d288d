/**
 Subscriptions, internal/service/subscription_service.go. Each one has a row in the database, a PPP
 secret on its router and perhaps a copy in the cache, and every operation updates them one after the
 other. A database write can fail; the router answers, but refuses to touch a secret it does not have.
 */
module Subscriptions {
  import opened Common
  import opened SubscriptionDomain

  type Id = nat

  // ---- The router ----

  datatype Key = Key(router: Id, id: nat)

  datatype Login = Login(router: Id, username: string)

  datatype Secret = Secret(name: string, password: string, profile: string, remoteAddress: string, disabled: bool)

  /** The secrets of all routers, the secret that bears each name, and the next unused id. */
  datatype Router = Router(secrets: map<Key, Secret>, names: map<Login, nat>, next: nat)

  function AddSecret(r: Router, router: Id, s: Secret): Router
  {
    Router(r.secrets[Key(router, r.next) := s], r.names[Login(router, s.name) := r.next], r.next + 1)
  }

  function RemoveSecret(r: Router, k: Key): Option<Router>
  {
    if k !in r.secrets then None
    else Some(Router(r.secrets - {k}, r.names - {Login(k.router, r.secrets[k].name)}, r.next))
  }

  datatype Patch = Patch(password: string, profile: string, remoteAddress: string)

  function OrElse(s: string, old_: string): string { if s == "" then old_ else s }

  /** Only the non-empty fields are sent to the router. */
  function Patched(s: Secret, p: Patch): Secret
  {
    Secret(s.name, OrElse(p.password, s.password), OrElse(p.profile, s.profile),
           OrElse(p.remoteAddress, s.remoteAddress), s.disabled)
  }

  function UpdateSecret(r: Router, k: Key, p: Patch): Option<Router>
  {
    if k !in r.secrets then None else Some(r.(secrets := r.secrets[k := Patched(r.secrets[k], p)]))
  }

  function SetDisabled(r: Router, k: Key, disabled: bool): Option<Router>
  {
    if k !in r.secrets then None else Some(r.(secrets := r.secrets[k := r.secrets[k].(disabled := disabled)]))
  }

  // ---- The database ----

  datatype Options = Options(staticIP: string, gateway: string, billingDay: Option<int>, autoIsolate: bool,
                             grace: Option<int>, notes: string)

  datatype Row = Row(id: Id, customer: Id, plan: Id, router: Id, username: string, password: string, options: Options,
                     secret: Option<nat>, status: Status, activatedAt: Option<int>, terminatedAt: Option<int>,
                     suspendReason: Option<string>)

  datatype Plan = Plan(router: Id, name: string, isolateProfile: string)

  /** usernames holds those of deleted rows too: they stay reserved. */
  datatype Database = Database(rows: map<Id, Row>, plans: map<Id, Plan>, isolateProfile: string,
                               usernames: set<string>, next: Id)

  /** Database, router and cached subscriptions. */
  datatype World = World(db: Database, router: Router, cache: map<Id, Row>)

  datatype Error =
    | NotFound | PlanNotFound | WrongRouter | BadCredentials | WrongTransition
    | SecretExists | SecretNotFound | RouterRefused | NotStored

  /** What an operation leaves behind, and its error, if any. */
  datatype Outcome = Outcome(world: World, error: Option<Error>)

  function SaveRow(db: Database, row: Row): Database { db.(rows := db.rows[row.id := row]) }

  /** What JSON keeps of a row: all but the password. */
  function Blanked(row: Row): Row { row.(password := "") }

  function Resolve(r: Router, row: Row): Option<Key>
  {
    if row.secret.Some? then Some(Key(row.router, row.secret.value))
    else if Login(row.router, row.username) in r.names then Some(Key(row.router, r.names[Login(row.router, row.username)]))
    else None
  }

  function SecretOf(row: Row, plan: Plan): Patch { Patch(row.password, plan.name, row.options.staticIP) }

  // ---- Status changes ----

  datatype Command = Activate(now: int) | Isolate(reason: string) | Restore | Suspend(reason: string) | Terminate(now: int)

  /** The plan's own isolate profile, or else the general one. */
  function IsolateProfile(plans: map<Id, Plan>, general: string, plan: Id): string
  {
    if plan in plans then OrElse(plans[plan].isolateProfile, general) else general
  }

  function OnSecret(r: Router, row: Row, change: (Router, Key) -> Option<Router>): Result<Router, Error>
  {
    var k := Resolve(r, row);
    if k.None? then Err(SecretNotFound)
    else
      var changed := change(r, k.value);
      if changed.None? then Err(RouterRefused) else Ok(changed.value)
  }

  function ApplyProfile(r: Router, row: Row, profile: string): Result<Router, Error>
  {
    OnSecret(r, row, (r: Router, k: Key) => UpdateSecret(r, k, Patch("", profile, "")))
  }

  /** A secret that cannot be found needs no removal. */
  function RemoveFromRouter(r: Router, row: Row): Result<Router, Error>
  {
    var removed := OnSecret(r, row, RemoveSecret);
    if removed == Err(SecretNotFound) then Ok(r) else removed
  }

  function RouterEffect(db: Database, r: Router, row: Row, c: Command): Result<Router, Error>
  {
    match c
    case Activate(_) =>
      if !ValidateStatusTransition(row.status, Active) then Err(WrongTransition)
      else OnSecret(r, row, (r: Router, k: Key) => SetDisabled(r, k, false))
    case Isolate(_) => ApplyProfile(r, row, IsolateProfile(db.plans, db.isolateProfile, row.plan))
    case Restore =>
      if row.plan !in db.plans then Err(PlanNotFound) else ApplyProfile(r, row, db.plans[row.plan].name)
    case Suspend(_) => OnSecret(r, row, (r: Router, k: Key) => SetDisabled(r, k, true))
    case Terminate(_) => RemoveFromRouter(r, row)
  }

  function RowEffect(row: Row, c: Command): Row
  {
    match c
    case Activate(now) => row.(status := Active, activatedAt := Some(now))
    case Isolate(reason) => row.(status := Status.Isolated, suspendReason := Some(reason))
    case Restore => row.(status := Active, suspendReason := None)
    case Suspend(reason) => row.(status := Suspended, suspendReason := Some(reason))
    case Terminate(now) => row.(status := Terminated, terminatedAt := Some(now))
  }

  /** The router changes first, then the row is written, then the cached copy dropped. */
  function Transition(w: World, id: Id, c: Command, stores: bool): Outcome
  {
    if id !in w.db.rows then Outcome(w, Some(NotFound))
    else
      var row := w.db.rows[id];
      if c.Isolate? && row.status == Status.Isolated then Outcome(w, None)
      else
        var router := RouterEffect(w.db, w.router, row, c);
        if router.Err? then Outcome(w, Some(router.error))
        else if !stores then Outcome(w.(router := router.value), Some(NotStored))
        else Outcome(World(SaveRow(w.db, RowEffect(row, c)), router.value, w.cache - {id}), None)
  }

  // ---- Creating, reading, updating and deleting ----

  datatype Draft = Draft(customer: Id, plan: Id, router: Id, username: string, password: string, options: Options)

  predicate ValidCredentials(username: string, password: string) { 3 <= |username| <= 100 && |password| >= 6 }

  function CreateError(w: World, d: Draft, password: string): Option<Error>
  {
    if d.plan !in w.db.plans then Some(PlanNotFound)
    else if w.db.plans[d.plan].router != d.router then Some(WrongRouter)
    else if !ValidCredentials(d.username, password) then Some(BadCredentials)
    else if Login(d.router, d.username) in w.router.names then Some(SecretExists)
    else None
  }

  /** generated is the random password used when the draft has none. */
  function Created(w: World, d: Draft, generated: string, stores: bool): Outcome
  {
    var password := OrElse(d.password, generated);
    var error := CreateError(w, d, password);
    if error.Some? then Outcome(w, error)
    else
      var secret := Secret(d.username, password, w.db.plans[d.plan].name, d.options.staticIP, false);
      var router := AddSecret(w.router, d.router, secret);
      var row := Row(w.db.next, d.customer, d.plan, d.router, d.username, password, d.options,
                     Some(w.router.next), Pending, None, None, None);
      if !stores || d.username in w.db.usernames then
        Outcome(w.(router := RemoveFromRouter(router, row).value), Some(NotStored))
      else
        var db := SaveRow(w.db, row).(usernames := w.db.usernames + {d.username}, next := w.db.next + 1);
        Outcome(World(db, router, w.cache - {row.id}), None)
  }

  /** Reading through the cache: a stored row is copied into it without its password. */
  function Fetched(w: World, id: Id): World
  {
    if id in w.cache || id !in w.db.rows then w else w.(cache := w.cache[id := Blanked(w.db.rows[id])])
  }

  function Read(w: World, id: Id): Option<Row>
  {
    if id in w.cache then Some(w.cache[id]) else if id in w.db.rows then Some(w.db.rows[id]) else None
  }

  datatype UpdateRequest = UpdateRequest(plan: Option<Id>, password: Option<string>, options: Option<Options>)

  function ApplyTo(q: UpdateRequest, row: Row): Row
  {
    row.(plan := if q.plan.Some? then q.plan.value else row.plan,
         password := if q.password.Some? then q.password.value else row.password,
         options := if q.options.Some? then q.options.value else row.options)
  }

  /** The update of a request applied to the row as read through the cache. */
  function Updated(w: World, id: Id, q: UpdateRequest, stores: bool): Outcome
  {
    var base := Read(w, id);
    if base.None? then Outcome(w, Some(NotFound))
    else SavedWith(Fetched(w, id), ApplyTo(q, base.value), stores)
  }

  function SavedWith(w: World, sub: Row, stores: bool): Outcome
  {
    if sub.id !in w.db.rows then Outcome(w, Some(NotFound))
    else
      var existing := w.db.rows[sub.id];
      if sub.plan !in w.db.plans then Outcome(w, Some(PlanNotFound))
      else if sub.plan != existing.plan && w.db.plans[sub.plan].router != sub.router then Outcome(w, Some(WrongRouter))
      else
        var router := OnSecret(w.router, existing, (r: Router, k: Key) => UpdateSecret(r, k, SecretOf(sub, w.db.plans[sub.plan])));
        if router.Err? then Outcome(w, Some(router.error))
        else if stores then Outcome(World(SaveRow(w.db, sub), router.value, w.cache - {sub.id}), None)
        else Outcome(w.(router := RolledBack(w.db, router.value, existing)), Some(NotStored))
  }

  /** After a failed write the secret is set back to the stored row's values, as far as they are not empty. */
  function RolledBack(db: Database, r: Router, existing: Row): Router
  {
    if existing.plan !in db.plans then r
    else
      var back := OnSecret(r, existing, (r: Router, k: Key) => UpdateSecret(r, k, SecretOf(existing, db.plans[existing.plan])));
      if back.Ok? then back.value else r
  }

  function Deleted(w: World, id: Id, stores: bool): Outcome
  {
    if id !in w.db.rows then Outcome(w, Some(NotFound))
    else
      var router := RemoveFromRouter(w.router, w.db.rows[id]);
      if router.Err? then Outcome(w, Some(router.error))
      else if !stores then Outcome(w.(router := router.value), Some(NotStored))
      else Outcome(World(w.db.(rows := w.db.rows - {id}), router.value, w.cache - {id}), None)
  }

  class SubscriptionService {
    var db: Database
    var router: Router
    var cache: map<Id, Row>

    function State(): World
      reads this
    {
      World(db, router, cache)
    }

    method Create(d: Draft, generated: string, stores: bool) returns (error: Option<Error>)
      modifies this
      ensures Outcome(State(), error) == Created(old(State()), d, generated, stores)
    {
      if d.plan !in db.plans {
        return Some(PlanNotFound);
      }
      var profile := db.plans[d.plan];
      if profile.router != d.router {
        return Some(WrongRouter);
      }
      var password := d.password;
      if password == "" {
        password := generated;
      }
      if !ValidCredentials(d.username, password) {
        return Some(BadCredentials);
      }
      if Login(d.router, d.username) in router.names {
        return Some(SecretExists);
      }
      var id := router.next;
      router := AddSecret(router, d.router, Secret(d.username, password, profile.name, d.options.staticIP, false));
      var sub := Row(db.next, d.customer, d.plan, d.router, d.username, password, d.options, Some(id), Pending, None, None, None);
      if !stores || d.username in db.usernames {
        var removed := RemoveFromRouter(router, sub);
        if removed.Ok? {
          router := removed.value;
        }
        return Some(NotStored);
      }
      db := Database(db.rows[sub.id := sub], db.plans, db.isolateProfile, db.usernames + {d.username}, db.next + 1);
      cache := cache - {sub.id};
      error := None;
    }

    method GetByID(id: Id) returns (r: Option<Row>)
      modifies this`cache
      ensures r == Read(old(State()), id)
      ensures State() == Fetched(old(State()), id)
    {
      if id in cache {
        return Some(cache[id]);
      }
      if id !in db.rows {
        return None;
      }
      cache := cache[id := Blanked(db.rows[id])];
      r := Some(db.rows[id]);
    }

    method Update(id: Id, q: UpdateRequest, stores: bool) returns (error: Option<Error>)
      modifies this
      ensures Outcome(State(), error) == Updated(old(State()), id, q, stores)
    {
      var base := GetByID(id);
      if base.None? {
        return Some(NotFound);
      }
      error := Save(ApplyTo(q, base.value), stores);
    }

    method Save(sub: Row, stores: bool) returns (error: Option<Error>)
      modifies this
      ensures Outcome(State(), error) == SavedWith(old(State()), sub, stores)
    {
      if sub.id !in db.rows {
        return Some(NotFound);
      }
      var existing := db.rows[sub.id];
      if sub.plan != existing.plan {
        if sub.plan !in db.plans {
          return Some(PlanNotFound);
        }
        if db.plans[sub.plan].router != sub.router {
          return Some(WrongRouter);
        }
      }
      if sub.plan !in db.plans {
        return Some(PlanNotFound);
      }
      var k := Resolve(router, existing);
      if k.None? {
        return Some(SecretNotFound);
      }
      var updated := UpdateSecret(router, k.value, SecretOf(sub, db.plans[sub.plan]));
      if updated.None? {
        return Some(RouterRefused);
      }
      router := updated.value;
      if !stores {
        if existing.plan in db.plans {
          k := Resolve(router, existing);
          if k.Some? {
            updated := UpdateSecret(router, k.value, SecretOf(existing, db.plans[existing.plan]));
            if updated.Some? {
              router := updated.value;
            }
          }
        }
        return Some(NotStored);
      }
      db := SaveRow(db, sub);
      cache := cache - {sub.id};
      error := None;
    }

    method Delete(id: Id, stores: bool) returns (error: Option<Error>)
      modifies this
      ensures Outcome(State(), error) == Deleted(old(State()), id, stores)
    {
      if id !in db.rows {
        return Some(NotFound);
      }
      var removed := RemoveFromRouter(router, db.rows[id]);
      if removed.Err? {
        return Some(removed.error);
      }
      router := removed.value;
      if !stores {
        return Some(NotStored);
      }
      db := db.(rows := db.rows - {id});
      cache := cache - {id};
      error := None;
    }

    method ActivateSub(id: Id, now: int, stores: bool) returns (error: Option<Error>)
      modifies this
      ensures Outcome(State(), error) == Transition(old(State()), id, Activate(now), stores)
    {
      if id !in db.rows {
        return Some(NotFound);
      }
      var sub := db.rows[id];
      if !ValidateStatusTransition(sub.status, Active) {
        return Some(WrongTransition);
      }
      var k := Resolve(router, sub);
      if k.None? {
        return Some(SecretNotFound);
      }
      var enabled := SetDisabled(router, k.value, false);
      if enabled.None? {
        return Some(RouterRefused);
      }
      router := enabled.value;
      sub := sub.(status := Active);
      sub := sub.(activatedAt := Some(now));
      error := Store(id, sub, stores);
    }

    method IsolateSub(id: Id, reason: string, stores: bool) returns (error: Option<Error>)
      modifies this
      ensures Outcome(State(), error) == Transition(old(State()), id, Isolate(reason), stores)
    {
      if id !in db.rows {
        return Some(NotFound);
      }
      var sub := db.rows[id];
      if sub.status == Status.Isolated {
        return None;
      }
      var isolateProfile := db.isolateProfile;
      if sub.plan in db.plans && db.plans[sub.plan].isolateProfile != "" {
        isolateProfile := db.plans[sub.plan].isolateProfile;
      }
      var applied := ApplyProfile(router, sub, isolateProfile);
      if applied.Err? {
        return Some(applied.error);
      }
      router := applied.value;
      sub := sub.(suspendReason := Some(reason));
      sub := sub.(status := Status.Isolated);
      error := Store(id, sub, stores);
    }

    method RestoreSub(id: Id, stores: bool) returns (error: Option<Error>)
      modifies this
      ensures Outcome(State(), error) == Transition(old(State()), id, Restore, stores)
    {
      if id !in db.rows {
        return Some(NotFound);
      }
      var sub := db.rows[id];
      if sub.plan !in db.plans {
        return Some(PlanNotFound);
      }
      var applied := ApplyProfile(router, sub, db.plans[sub.plan].name);
      if applied.Err? {
        return Some(applied.error);
      }
      router := applied.value;
      sub := sub.(status := Active);
      sub := sub.(suspendReason := None);
      error := Store(id, sub, stores);
    }

    method SuspendSub(id: Id, reason: string, stores: bool) returns (error: Option<Error>)
      modifies this
      ensures Outcome(State(), error) == Transition(old(State()), id, Suspend(reason), stores)
    {
      if id !in db.rows {
        return Some(NotFound);
      }
      var sub := db.rows[id];
      var k := Resolve(router, sub);
      if k.None? {
        return Some(SecretNotFound);
      }
      var disabled := SetDisabled(router, k.value, true);
      if disabled.None? {
        return Some(RouterRefused);
      }
      router := disabled.value;
      sub := sub.(suspendReason := Some(reason));
      sub := sub.(status := Suspended);
      error := Store(id, sub, stores);
    }

    method TerminateSub(id: Id, now: int, stores: bool) returns (error: Option<Error>)
      modifies this
      ensures Outcome(State(), error) == Transition(old(State()), id, Terminate(now), stores)
    {
      if id !in db.rows {
        return Some(NotFound);
      }
      var sub := db.rows[id];
      var removed := RemoveFromRouter(router, sub);
      if removed.Err? {
        return Some(removed.error);
      }
      router := removed.value;
      sub := sub.(status := Terminated);
      sub := sub.(terminatedAt := Some(now));
      error := Store(id, sub, stores);
    }

    /** The end of every status change: write the row, then drop the cached copy. */
    method Store(id: Id, sub: Row, stores: bool) returns (error: Option<Error>)
      modifies this`db, this`cache
      ensures State() == if stores then World(SaveRow(old(db), sub), router, old(cache) - {id}) else old(State())
      ensures error == if stores then None else Some(NotStored)
    {
      if !stores {
        return Some(NotStored);
      }
      db := SaveRow(db, sub);
      cache := cache - {id};
      error := None;
    }
  }
}
