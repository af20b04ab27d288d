/**
 The customers' side of internal/service/customer_service.go: a customer is created together with a
 first subscription, and its subscriptions are isolated and restored together.
 */
module Customers {
  import opened Common
  import opened SubscriptionDomain
  import opened Subscriptions
  import opened SubscriptionRuns

  datatype Failure = InvalidCustomer | InvalidPlan | InvalidCredentials | CustomerNotStored | SubscriptionFailed(error: Error)

  /** The rows of one customer, in the order in which the database returns them. */
  ghost predicate ListOf(list: seq<Row>, rows: map<Id, Row>, customer: Id)
  {
    && (forall row :: row in list ==> row.id in rows && rows[row.id] == row && row.customer == customer)
    && (forall id :: id in rows && rows[id].customer == customer ==> rows[id] in list)
    && (forall i, j :: 0 <= i < j < |list| ==> list[i].id != list[j].id)
  }

  class CustomerService {
    var customers: map<Id, bool>
    var next: Id
    const subscriptions: SubscriptionService

    constructor (subscriptions: SubscriptionService)
      ensures this.subscriptions == subscriptions && customers == map[] && next == 0
    {
      this.subscriptions := subscriptions;
      customers := map[];
      next := 0;
    }

    /**
     Creates both or neither: when the subscription fails the customer is dropped again, and the database
     rows, the secrets and the cache are as before. valid tells whether the customer's own data is.
     */
    method CreateWithSubscription(valid: bool, draft: Draft, customerStored: bool, subscriptionStored: bool, dropped: bool)
        returns (r: Result<Id, Failure>)
      requires RouterOk(subscriptions.router) && next !in customers
      modifies this`customers, this`next, subscriptions
      ensures r.Ok? <==>
                && valid && draft.password != "" && customerStored
                && Created(old(subscriptions.State()), draft.(customer := old(next)), "", subscriptionStored).error == None
      ensures r.Ok? ==>
                && r.value == old(next) && customers == old(customers)[r.value := true]
                && Outcome(subscriptions.State(), None)
                   == Created(old(subscriptions.State()), draft.(customer := r.value), "", subscriptionStored)
      ensures r.Err? ==>
                && subscriptions.db == old(subscriptions.db) && subscriptions.cache == old(subscriptions.cache)
                && subscriptions.router.secrets == old(subscriptions.router.secrets)
                && subscriptions.router.names == old(subscriptions.router.names)
      ensures r.Err? && dropped ==> customers == old(customers)
      ensures customers.Keys <= old(customers).Keys + {old(next)}
    {
      if !valid {
        return Err(InvalidCustomer);
      }
      if draft.plan !in subscriptions.db.plans || subscriptions.db.plans[draft.plan].router != draft.router {
        return Err(InvalidPlan);
      }
      if draft.username == "" || draft.password == "" {
        return Err(InvalidCredentials);
      }
      if !ValidCredentials(draft.username, draft.password) {
        return Err(InvalidCredentials);
      }
      if !customerStored {
        return Err(CustomerNotStored);
      }
      var id := next;
      customers := customers[id := true];
      next := next + 1;
      CreateIsAtomic(subscriptions.State(), draft.(customer := id), "", subscriptionStored);
      var error := subscriptions.Create(draft.(customer := id), "", subscriptionStored);
      if error.Some? {
        if dropped {
          customers := customers - {id};
        }
        return Err(SubscriptionFailed(error.value));
      }
      r := Ok(id);
    }

    /** Isolates the active ones among the customer's subscriptions, one after the other. */
    method IsolateAllSubscriptions(customer: Id, list: seq<Row>, failing: set<Id>)
      requires ListOf(list, subscriptions.db.rows, customer)
      modifies subscriptions
      ensures subscriptions.State()
           == Turns(old(subscriptions.State()), list, Job(customer, Active, Isolate("invoice_overdue"), failing))
    {
      ghost var before := subscriptions.State();
      ghost var job := Job(customer, Active, Isolate("invoice_overdue"), failing);
      var k := 0;
      while k < |list|
        invariant 0 <= k <= |list|
        invariant subscriptions.State() == Turns(before, list[..k], job)
      {
        TurnsNext(before, list, k, job);
        if list[k].status == Active {
          var _ := subscriptions.IsolateSub(list[k].id, "invoice_overdue", list[k].id !in failing);
        }
        k := k + 1;
      }
      assert list[..k] == list;
    }

    /** Restores the isolated ones among the customer's subscriptions, one after the other. */
    method RestoreAllSubscriptions(customer: Id, list: seq<Row>, failing: set<Id>)
      requires ListOf(list, subscriptions.db.rows, customer)
      modifies subscriptions
      ensures subscriptions.State() == Turns(old(subscriptions.State()), list, Job(customer, Status.Isolated, Restore, failing))
    {
      ghost var before := subscriptions.State();
      ghost var job := Job(customer, Status.Isolated, Restore, failing);
      var k := 0;
      while k < |list|
        invariant 0 <= k <= |list|
        invariant subscriptions.State() == Turns(before, list[..k], job)
      {
        TurnsNext(before, list, k, job);
        if list[k].status == Status.Isolated {
          var _ := subscriptions.RestoreSub(list[k].id, list[k].id !in failing);
        }
        k := k + 1;
      }
      assert list[..k] == list;
    }
  }

  // ---- A bulk operation ----

  /** The customer's subscriptions with a status, and what is done to them; the row writes of failing fail. */
  datatype Job = Job(customer: Id, from: Status, command: Command, failing: set<Id>)

  predicate IsBulk(job: Job) { job.command.Restore? || (job.command.Isolate? && job.from != Status.Isolated) }

  /** One subscription's turn: the operation, when it was listed with the status looked for. */
  function Turn(w: World, listed: Row, job: Job): World
  {
    if listed.status == job.from then Transition(w, listed.id, job.command, listed.id !in job.failing).world else w
  }

  function Turns(w: World, list: seq<Row>, job: Job): World
  {
    if list == [] then w else Turn(Turns(w, list[..|list| - 1], job), list[|list| - 1], job)
  }

  lemma TurnsNext(w: World, list: seq<Row>, k: nat, job: Job)
    requires k < |list|
    ensures Turns(w, list[..k + 1], job) == Turn(Turns(w, list[..k], job), list[k], job)
  {
    assert list[..k + 1][..k] == list[..k];
  }

  /** The part of the world that a bulk operation looks at and does not change. */
  datatype Setting = Setting(plans: map<Id, Plan>, isolateProfile: string, keys: set<Key>)

  function SettingOf(w: World): Setting { Setting(w.db.plans, w.db.isolateProfile, w.router.secrets.Keys) }

  /** The profile that the operation gives to the row's secret. */
  function NewProfile(s: Setting, row: Row, c: Command): string
  {
    if c.Isolate? then IsolateProfile(s.plans, s.isolateProfile, row.plan)
    else if row.plan in s.plans then s.plans[row.plan].name
    else ""
  }

  /** The router can be told: the secret is there, and so is the plan that a restore needs. */
  predicate Applies(s: Setting, row: Row, job: Job)
  {
    && row.customer == job.customer && row.status == job.from
    && row.secret.Some? && KeyOf(row) in s.keys
    && (job.command.Restore? ==> row.plan in s.plans)
  }

  /** What a bulk operation makes of a row, unless its write fails. */
  function BulkRow(s: Setting, row: Row, job: Job): Row
  {
    if Applies(s, row, job) && row.id !in job.failing then RowEffect(row, job.command) else row
  }

  /** What it makes of the row's secret: the new profile if not empty, whether or not the row's write fails. */
  function BulkSecret(s: Setting, row: Row, secret: Secret, job: Job): Secret
  {
    if Applies(s, row, job) then secret.(profile := OrElse(NewProfile(s, row, job.command), secret.profile)) else secret
  }

  predicate Seen(seen: seq<Row>, id: Id) { exists row <- seen :: row.id == id }

  lemma SeenOneMore(seen: seq<Row>, row: Row, id: Id)
    ensures Seen(seen + [row], id) <==> Seen(seen, id) || row.id == id
  {
    assert row in seen + [row];
  }

  ghost predicate RowsDone(s: Setting, before: map<Id, Row>, after: map<Id, Row>, seen: seq<Row>, job: Job)
  {
    && after.Keys == before.Keys
    && forall id :: id in before ==> after[id] == if Seen(seen, id) then BulkRow(s, before[id], job) else before[id]
  }

  predicate BelongsTo(rows: map<Id, Row>, k: Key, id: Id) { id in rows && rows[id].secret.Some? && KeyOf(rows[id]) == k }

  ghost predicate SecretsDone(s: Setting, rows: map<Id, Row>, before: map<Key, Secret>, after: map<Key, Secret>,
                              seen: seq<Row>, job: Job)
  {
    && after.Keys == before.Keys
    && (forall k, id :: k in before && BelongsTo(rows, k, id) ==>
          after[k] == if Seen(seen, id) then BulkSecret(s, rows[id], before[k], job) else before[k])
    && (forall k :: k in before && (forall id :: !BelongsTo(rows, k, id)) ==> after[k] == before[k])
  }

  /** Rows and secrets when these subscriptions have had their turn: theirs are done, all others as before. */
  ghost predicate Progress(before: World, now: World, seen: seq<Row>, job: Job)
  {
    && now.db == before.db.(rows := now.db.rows) && now.router == before.router.(secrets := now.router.secrets)
    && RowsDone(SettingOf(before), before.db.rows, now.db.rows, seen, job)
    && SecretsDone(SettingOf(before), before.db.rows, before.router.secrets, now.router.secrets, seen, job)
  }

  lemma RowsStep(s: Setting, before: map<Id, Row>, now: map<Id, Row>, seen: seq<Row>, row: Row, job: Job)
    requires RowsDone(s, before, now, seen, job) && row.id in before && before[row.id] == row
    ensures RowsDone(s, before, now[row.id := BulkRow(s, row, job)], seen + [row], job)
  {
    forall id ensures Seen(seen + [row], id) <==> Seen(seen, id) || row.id == id {
      SeenOneMore(seen, row, id);
    }
  }

  lemma SecretsStep(s: Setting, rows: map<Id, Row>, before: map<Key, Secret>, now: map<Key, Secret>,
                    seen: seq<Row>, row: Row, job: Job)
    requires SecretsDone(s, rows, before, now, seen, job) && Distinct(rows)
    requires row.id in rows && rows[row.id] == row && row.secret.Some?
    ensures var k := KeyOf(row);
            SecretsDone(s, rows, before, if k in before then now[k := BulkSecret(s, row, before[k], job)] else now,
                        seen + [row], job)
  {
    var k := KeyOf(row);
    assert BelongsTo(rows, k, row.id);
    forall i | BelongsTo(rows, k, i) ensures i == row.id {}
    forall id ensures Seen(seen + [row], id) <==> Seen(seen, id) || row.id == id {
      SeenOneMore(seen, row, id);
    }
  }

  /** The row's own turn. */
  lemma TurnOnRow(w: World, row: Row, job: Job)
    requires IsBulk(job) && row.id in w.db.rows && w.db.rows[row.id] == row && row.secret.Some?
    requires row.customer == job.customer
    ensures var after, k := Turn(w, row, job), KeyOf(row);
            && after.db == SaveRow(w.db, BulkRow(SettingOf(w), row, job))
            && after.router == w.router.(secrets :=
                 if k in w.router.secrets then w.router.secrets[k := BulkSecret(SettingOf(w), row, w.router.secrets[k], job)]
                 else w.router.secrets)
  {
    var k := KeyOf(row);
    assert w.db.rows[row.id := row] == w.db.rows;
    assert k in w.router.secrets ==> w.router.secrets[k := w.router.secrets[k]] == w.router.secrets;
    assert Resolve(w.router, row) == Some(k);
    assert k in w.router.secrets <==> k in w.router.secrets.Keys;
  }

  /** A row that has not had its turn, and its secret, are as before. */
  lemma NotYet(before: World, now: World, seen: seq<Row>, row: Row, job: Job)
    requires Progress(before, now, seen, job) && !Seen(seen, row.id)
    requires row.id in before.db.rows && before.db.rows[row.id] == row && row.secret.Some?
    ensures row.id in now.db.rows && now.db.rows[row.id] == row && SettingOf(now) == SettingOf(before)
    ensures KeyOf(row) in now.router.secrets <==> KeyOf(row) in before.router.secrets
    ensures KeyOf(row) in before.router.secrets ==> now.router.secrets[KeyOf(row)] == before.router.secrets[KeyOf(row)]
  {
    assert BelongsTo(before.db.rows, KeyOf(row), row.id);
    assert KeyOf(row) in now.router.secrets <==> KeyOf(row) in now.router.secrets.Keys;
  }

  lemma TurnMakesProgress(before: World, now: World, seen: seq<Row>, row: Row, job: Job)
    requires Distinct(before.db.rows) && Progress(before, now, seen, job) && IsBulk(job) && !Seen(seen, row.id)
    requires row.id in before.db.rows && before.db.rows[row.id] == row && row.secret.Some? && row.customer == job.customer
    ensures Progress(before, Turn(now, row, job), seen + [row], job)
  {
    NotYet(before, now, seen, row, job);
    TurnOnRow(now, row, job);
    RowsStep(SettingOf(before), before.db.rows, now.db.rows, seen, row, job);
    SecretsStep(SettingOf(before), before.db.rows, before.router.secrets, now.router.secrets, seen, row, job);
  }

  lemma {:induction false} TurnsMakeProgress(w: World, list: seq<Row>, job: Job)
    requires Distinct(w.db.rows) && IsBulk(job)
    requires forall row :: row in list ==>
               row.id in w.db.rows && w.db.rows[row.id] == row && row.secret.Some? && row.customer == job.customer
    requires forall i, j :: 0 <= i < j < |list| ==> list[i].id != list[j].id
    ensures Progress(w, Turns(w, list, job), list, job)
  {
    if list != [] {
      var n := |list| - 1;
      TurnsMakeProgress(w, list[..n], job);
      assert list[n] in list && !Seen(list[..n], list[n].id);
      TurnMakesProgress(w, Turns(w, list[..n], job), list[..n], list[n], job);
      assert list[..n] + [list[n]] == list;
    }
  }

  /** Every row of the customer and its secret are as the operation makes them; everything else is as before. */
  ghost predicate BulkDone(before: World, after: World, job: Job)
  {
    && after.db == before.db.(rows := after.db.rows) && after.router == before.router.(secrets := after.router.secrets)
    && after.db.rows.Keys == before.db.rows.Keys && after.router.secrets.Keys == before.router.secrets.Keys
    && (forall id :: id in before.db.rows ==>
          after.db.rows[id] == BulkRow(SettingOf(before), before.db.rows[id], job))
    && (forall k, id :: k in before.router.secrets && BelongsTo(before.db.rows, k, id) ==>
          after.router.secrets[k] == BulkSecret(SettingOf(before), before.db.rows[id], before.router.secrets[k], job))
    && (forall k :: k in before.router.secrets && (forall id :: !BelongsTo(before.db.rows, k, id)) ==>
          after.router.secrets[k] == before.router.secrets[k])
  }

  lemma AllSeenIsDone(before: World, now: World, list: seq<Row>, job: Job)
    requires Progress(before, now, list, job) && ListOf(list, before.db.rows, job.customer)
    requires forall id :: id in before.db.rows ==> before.db.rows[id].id == id
    ensures BulkDone(before, now, job)
  {
    forall id | id in before.db.rows && before.db.rows[id].customer == job.customer ensures Seen(list, id) {
      assert before.db.rows[id] in list;
    }
  }

  /**
   IsolateAllSubscriptions and RestoreAllSubscriptions do to each of the customer's rows, and to its
   secret's profile, exactly what they should, and leave all others alone; one that fails does not stop
   the others.
   */
  lemma TurnsAreBulk(w: World, foreign: set<Key>, list: seq<Row>, job: Job)
    requires Inv(w, foreign) && IsBulk(job) && ListOf(list, w.db.rows, job.customer)
    ensures BulkDone(w, Turns(w, list, job), job)
  {
    forall id | id in w.db.rows ensures w.db.rows[id].id == id && w.db.rows[id].secret.Some? {
      assert RowOk(w.db.rows[id], id, w.db, w.router, foreign);
    }
    TurnsMakeProgress(w, list, job);
    AllSeenIsDone(w, Turns(w, list, job), list, job);
  }

  /**
   After IsolateAllSubscriptions each active subscription of the customer that has its secret is isolated for
   the unpaid invoice, unless its write failed, and its secret has the isolate profile; the rows of all
   others are as before.
   */
  lemma IsolateAllIsolates(w: World, foreign: set<Key>, customer: Id, list: seq<Row>, failing: set<Id>, id: Id)
    requires Inv(w, foreign) && ListOf(list, w.db.rows, customer) && id in w.db.rows
    ensures var row, after := w.db.rows[id], Turns(w, list, Job(customer, Active, Isolate("invoice_overdue"), failing));
            && row.secret.Some? && id in after.db.rows
            && var k := KeyOf(row);
               if row.customer == customer && row.status == Active && k in w.router.secrets then
                 && k in after.router.secrets
                 && after.router.secrets[k] == w.router.secrets[k].(profile := after.router.secrets[k].profile)
                 && (w.db.isolateProfile != "" && row.plan !in w.db.plans ==>
                       after.router.secrets[k].profile == w.db.isolateProfile)
                 && (row.plan in w.db.plans && w.db.plans[row.plan].isolateProfile != "" ==>
                       after.router.secrets[k].profile == w.db.plans[row.plan].isolateProfile)
                 && after.db.rows[id] == if id in failing then row
                                         else row.(status := Status.Isolated, suspendReason := Some("invoice_overdue"))
               else after.db.rows[id] == row && (k in w.router.secrets ==>
                      k in after.router.secrets && after.router.secrets[k] == w.router.secrets[k])
  {
    OneOfBulk(w, foreign, list, Job(customer, Active, Isolate("invoice_overdue"), failing), id);
  }

  /**
   After RestoreAllSubscriptions, likewise, each isolated one that has its secret and a plan is active with
   the plan's profile.
   */
  lemma RestoreAllRestores(w: World, foreign: set<Key>, customer: Id, list: seq<Row>, failing: set<Id>, id: Id)
    requires Inv(w, foreign) && ListOf(list, w.db.rows, customer) && id in w.db.rows
    ensures var row, after := w.db.rows[id], Turns(w, list, Job(customer, Status.Isolated, Restore, failing));
            && row.secret.Some? && id in after.db.rows
            && var k := KeyOf(row);
               if row.customer == customer && row.status == Status.Isolated && k in w.router.secrets
                  && row.plan in w.db.plans then
                 && k in after.router.secrets
                 && after.router.secrets[k] == w.router.secrets[k].(profile := after.router.secrets[k].profile)
                 && (w.db.plans[row.plan].name != "" ==> after.router.secrets[k].profile == w.db.plans[row.plan].name)
                 && after.db.rows[id] == if id in failing then row else row.(status := Active, suspendReason := None)
               else after.db.rows[id] == row && (k in w.router.secrets ==>
                      k in after.router.secrets && after.router.secrets[k] == w.router.secrets[k])
  {
    OneOfBulk(w, foreign, list, Job(customer, Status.Isolated, Restore, failing), id);
  }

  lemma OneOfBulk(w: World, foreign: set<Key>, list: seq<Row>, job: Job, id: Id)
    requires Inv(w, foreign) && IsBulk(job) && ListOf(list, w.db.rows, job.customer) && id in w.db.rows
    ensures var row, after := w.db.rows[id], Turns(w, list, job);
            && row.id == id && row.secret.Some? && id in after.db.rows
            && after.db.rows[id] == BulkRow(SettingOf(w), row, job)
            && (KeyOf(row) in w.router.secrets ==>
                  && KeyOf(row) in after.router.secrets
                  && after.router.secrets[KeyOf(row)] == BulkSecret(SettingOf(w), row, w.router.secrets[KeyOf(row)], job))
  {
    assert RowOk(w.db.rows[id], id, w.db, w.router, foreign);
    TurnsAreBulk(w, foreign, list, job);
    assert BelongsTo(w.db.rows, KeyOf(w.db.rows[id]), id);
    assert KeyOf(w.db.rows[id]) in w.router.secrets ==> KeyOf(w.db.rows[id]) in w.router.secrets.Keys;
  }
}
