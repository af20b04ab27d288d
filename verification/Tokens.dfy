/**
 Token revocation: internal/service/auth_service.go, internal/middleware/auth.go and the Redis markers of
 pkg/redis/session.go. Signatures are taken as unforgeable, so a token stands for the claims issued
 with its id. Claims carry whole seconds (section 4.1.4 of RFC 7519); clocks are finer.
 */
module Tokens {
  import opened Common

  type Id = nat

  /** An instant: whole seconds and the milliseconds after them. */
  datatype Clock = Clock(sec: nat, ms: nat)

  predicate Before(a: Clock, b: Clock) { a.sec < b.sec || (a.sec == b.sec && a.ms < b.ms) }

  predicate NotAfter(a: Clock, b: Clock) { !Before(b, a) }

  lemma BeforeCountsMilliseconds(a: Clock, b: Clock)
    requires a.ms < 1000 && b.ms < 1000
    ensures Before(a, b) <==> 1000 * a.sec + a.ms < 1000 * b.sec + b.ms
  {}

  datatype TokenType = Access | Refresh

  datatype Claims = Claims(user: Id, kind: TokenType, issuedAt: nat, expiresAt: nat)

  datatype PasswordMarker = PasswordMarker(changedAt: nat, until: Clock)

  const PASSWORD_MARKER_SECONDS: nat := 604800

  /**
   Issued claims by token id, blacklist entries with the end of their life, password markers by user,
   and for each user whether it is active.
   */
  datatype World = World(issued: map<Id, Claims>, next: Id, blacklist: map<Id, Clock>,
                         passwords: map<Id, PasswordMarker>, users: map<Id, bool>)

  datatype Error =
    | InvalidToken | WrongType | Revoked | StoreDown | UserNotFound | Inactive | PasswordChanged | InvalidCredentials | NotStored

  predicate Valid(w: World, id: Id, now: Clock)
  {
    id in w.issued && Before(now, Clock(w.issued[id].expiresAt, 0)) && w.issued[id].issuedAt <= now.sec
  }

  /** A marker is in Redis until its life ends. */
  predicate Blacklisted(w: World, id: Id, now: Clock) { id in w.blacklist && Before(now, w.blacklist[id]) }

  predicate PasswordNewer(w: World, c: Claims, now: Clock)
  {
    c.user in w.passwords && Before(now, w.passwords[c.user].until) && c.issuedAt < w.passwords[c.user].changedAt
  }

  // ---- The operations ----

  /** Lifetimes in whole seconds. */
  datatype Lifetimes = Lifetimes(access: nat, refresh: nat)

  function Paired(w: World, user: Id, now: Clock, lives: Lifetimes): World
  {
    var access := Claims(user, Access, now.sec, now.sec + lives.access);
    var refresh := Claims(user, Refresh, now.sec, now.sec + lives.refresh);
    w.(issued := w.issued[w.next := access][w.next + 1 := refresh], next := w.next + 2)
  }

  /** Marks the token for the rest of its life, which ends at its expiry. */
  function Marked(w: World, id: Id): World
    requires id in w.issued
  {
    w.(blacklist := w.blacklist[id := Clock(w.issued[id].expiresAt, 0)])
  }

  /** redisUp tells whether Redis answers; the middleware takes its silence for a clean record. */
  function AuthenticateError(w: World, id: Id, now: Clock, redisUp: bool): Option<Error>
  {
    if !Valid(w, id, now) then Some(InvalidToken)
    else if w.issued[id].kind == Refresh then Some(WrongType)
    else if redisUp && Blacklisted(w, id, now) then Some(Revoked)
    else if redisUp && PasswordNewer(w, w.issued[id], now) then Some(PasswordChanged)
    else None
  }

  /** readable and writable tell whether Redis answers the check and stores the marker. */
  function RefreshError(w: World, id: Id, now: Clock, readable: bool): Option<Error>
  {
    if !Valid(w, id, now) then Some(InvalidToken)
    else if w.issued[id].kind != Refresh then Some(WrongType)
    else if !readable then Some(StoreDown)
    else if Blacklisted(w, id, now) then Some(Revoked)
    else if w.issued[id].user !in w.users then Some(UserNotFound)
    else if !w.users[w.issued[id].user] then Some(Inactive)
    else None
  }

  function Refreshed(w: World, id: Id, now: Clock, lives: Lifetimes, readable: bool, writable: bool): World
  {
    if RefreshError(w, id, now, readable).Some? then w
    else Paired(if writable then Marked(w, id) else w, w.issued[id].user, now, lives)
  }

  function LogoutError(w: World, id: Id, now: Clock, writable: bool): Option<Error>
  {
    if !Valid(w, id, now) then Some(InvalidToken) else if !writable then Some(StoreDown) else None
  }

  function LoggedOut(w: World, id: Id, now: Clock, writable: bool): World
  {
    if LogoutError(w, id, now, writable).Some? then w else Marked(w, id)
  }

  /** saves tells whether the user's new hash is stored, which comes before the marker. */
  function PasswordSet(w: World, user: Id, now: Clock, matches: bool, saves: bool, writable: bool): World
  {
    if user !in w.users || !matches || !saves || !writable then w
    else
      w.(passwords := w.passwords[user := PasswordMarker(now.sec, Clock(now.sec + PASSWORD_MARKER_SECONDS, now.ms))])
  }

  function LoggedIn(w: World, user: Id, now: Clock, lives: Lifetimes, matches: bool): World
  {
    if user !in w.users || !w.users[user] || !matches then w else Paired(w, user, now, lives)
  }

  class AuthService {
    var issued: map<Id, Claims>
    var next: Id
    var blacklist: map<Id, Clock>
    var passwords: map<Id, PasswordMarker>
    var users: map<Id, bool>
    const lives: Lifetimes

    constructor (lives: Lifetimes)
      ensures State() == World(map[], 0, map[], map[], map[]) && this.lives == lives
    {
      this.lives := lives;
      issued, next, blacklist, passwords, users := map[], 0, map[], map[], map[];
    }

    function State(): World
      reads this
    {
      World(issued, next, blacklist, passwords, users)
    }

    method GenerateTokenPair(user: Id, now: Clock) returns (access: Id, refresh: Id)
      modifies this`issued, this`next
      ensures State() == Paired(old(State()), user, now, lives)
      ensures access == old(next) && refresh == old(next) + 1
    {
      access := next;
      issued := issued[access := Claims(user, Access, now.sec, now.sec + lives.access)];
      refresh := next + 1;
      issued := issued[refresh := Claims(user, Refresh, now.sec, now.sec + lives.refresh)];
      next := next + 2;
    }

    method Login(user: Id, now: Clock, matches: bool) returns (error: Option<Error>)
      modifies this
      ensures State() == LoggedIn(old(State()), user, now, lives, matches)
      ensures error == None <==> user in users && users[user] && matches
    {
      if user !in users {
        return Some(InvalidCredentials);
      }
      if !users[user] {
        return Some(Inactive);
      }
      if !matches {
        return Some(InvalidCredentials);
      }
      var _, _ := GenerateTokenPair(user, now);
      error := None;
    }

    /** The handler's part, validation and remaining life, and the service's, the marker. */
    method Logout(id: Id, now: Clock, writable: bool) returns (error: Option<Error>)
      modifies this
      ensures error == LogoutError(old(State()), id, now, writable)
      ensures State() == LoggedOut(old(State()), id, now, writable)
    {
      if !Valid(State(), id, now) {
        return Some(InvalidToken);
      }
      if !writable {
        return Some(StoreDown);
      }
      blacklist := blacklist[id := Clock(issued[id].expiresAt, 0)];
      error := None;
    }

    method RefreshToken(id: Id, now: Clock, readable: bool, writable: bool) returns (error: Option<Error>)
      modifies this
      ensures error == RefreshError(old(State()), id, now, readable)
      ensures State() == Refreshed(old(State()), id, now, lives, readable, writable)
    {
      if !Valid(State(), id, now) {
        return Some(InvalidToken);
      }
      var claims := issued[id];
      if claims.kind != Refresh {
        return Some(WrongType);
      }
      if !readable {
        return Some(StoreDown);
      }
      if id in blacklist && Before(now, blacklist[id]) {
        return Some(Revoked);
      }
      if claims.user !in users {
        return Some(UserNotFound);
      }
      if !users[claims.user] {
        return Some(Inactive);
      }
      if writable {
        blacklist := blacklist[id := Clock(claims.expiresAt, 0)];
      }
      var _, _ := GenerateTokenPair(claims.user, now);
      error := None;
    }

    method ChangePassword(user: Id, now: Clock, matches: bool, saves: bool, writable: bool) returns (error: Option<Error>)
      modifies this`passwords
      ensures State() == PasswordSet(old(State()), user, now, matches, saves, writable)
      ensures error == None <==> user in users && matches && saves
      ensures user in users && matches && !saves ==> error == Some(NotStored)
    {
      if user !in users {
        return Some(UserNotFound);
      }
      if !matches {
        return Some(InvalidCredentials);
      }
      if !saves {
        return Some(NotStored);
      }
      if writable {
        var until := Clock(now.sec + PASSWORD_MARKER_SECONDS, now.ms);
        passwords := passwords[user := PasswordMarker(now.sec, until)];
      }
      error := None;
    }

    method Authenticate(id: Id, now: Clock, redisUp: bool) returns (error: Option<Error>)
      ensures error == AuthenticateError(State(), id, now, redisUp)
    {
      if !Valid(State(), id, now) {
        return Some(InvalidToken);
      }
      var claims := issued[id];
      if claims.kind == Refresh {
        return Some(WrongType);
      }
      if redisUp {
        if id in blacklist && Before(now, blacklist[id]) {
          return Some(Revoked);
        }
        if claims.user in passwords && Before(now, passwords[claims.user].until)
           && claims.issuedAt < passwords[claims.user].changedAt {
          return Some(PasswordChanged);
        }
      }
      error := None;
    }
  }

  // ---- Runs ----

  datatype Event =
    | DoLogin(user: Id, now: Clock, matches: bool)
    | DoLogout(id: Id, now: Clock, writable: bool)
    | DoRefresh(id: Id, now: Clock, readable: bool, writable: bool)
    | DoChangePassword(user: Id, now: Clock, matches: bool, saves: bool, writable: bool)
    | SetUsers(users: map<Id, bool>)

  function Apply(w: World, e: Event, lives: Lifetimes): World
  {
    match e
    case DoLogin(user, now, matches) => LoggedIn(w, user, now, lives, matches)
    case DoLogout(id, now, writable) => LoggedOut(w, id, now, writable)
    case DoRefresh(id, now, readable, writable) => Refreshed(w, id, now, lives, readable, writable)
    case DoChangePassword(user, now, matches, saves, writable) => PasswordSet(w, user, now, matches, saves, writable)
    case SetUsers(users) => w.(users := users)
  }

  function ApplyAll(w: World, events: seq<Event>, lives: Lifetimes): World
    decreases |events|
  {
    if events == [] then w else ApplyAll(Apply(w, events[0], lives), events[1..], lives)
  }

  /** Ids are given out in turn, and only issued ones are blacklisted. */
  predicate FreshIds(w: World)
  {
    (forall id :: id in w.issued ==> id < w.next) && (forall id :: id in w.blacklist ==> id in w.issued)
  }

  /** The marker of a revoked token lives as long as its claims. */
  predicate IsRevoked(w: World, id: Id)
  {
    id in w.issued && id in w.blacklist && w.blacklist[id] == Clock(w.issued[id].expiresAt, 0)
  }

  /** What the marker is for: a revoked token passes exactly the middleware that Redis does not answer. */
  lemma RevokedIsRefused(w: World, id: Id, now: Clock, redisUp: bool)
    requires IsRevoked(w, id)
    ensures AuthenticateError(w, id, now, redisUp) == None <==> !redisUp && w.issued[id].kind == Access && Valid(w, id, now)
    ensures RefreshError(w, id, now, redisUp).Some?
  {}

  lemma EventKeepsRevoked(w: World, e: Event, lives: Lifetimes, id: Id)
    requires FreshIds(w) && IsRevoked(w, id)
    ensures FreshIds(Apply(w, e, lives)) && IsRevoked(Apply(w, e, lives), id)
    ensures Apply(w, e, lives).issued[id] == w.issued[id]
  {}

  /** After every run and at every time a revoked token is accepted only while Redis is silent, and never refreshed. */
  lemma {:induction false} RevokedForever(w: World, events: seq<Event>, lives: Lifetimes, id: Id, now: Clock, redisUp: bool)
    requires FreshIds(w) && IsRevoked(w, id)
    ensures AuthenticateError(ApplyAll(w, events, lives), id, now, redisUp) == None
       <==> !redisUp && w.issued[id].kind == Access && Valid(w, id, now)
    ensures RefreshError(ApplyAll(w, events, lives), id, now, redisUp).Some?
    decreases |events|
  {
    if events == [] {
      RevokedIsRefused(w, id, now, redisUp);
    } else {
      EventKeepsRevoked(w, events[0], lives, id);
      RevokedForever(Apply(w, events[0], lives), events[1..], lives, id, now, redisUp);
    }
  }

  /** After a logout that stored its marker the token is refused for ever, whatever happens next. */
  lemma LogoutIsForever(w: World, id: Id, at: Clock, events: seq<Event>, lives: Lifetimes, now: Clock)
    requires FreshIds(w) && LogoutError(w, id, at, true) == None
    ensures var after := ApplyAll(LoggedOut(w, id, at, true), events, lives);
            AuthenticateError(after, id, now, true).Some? && RefreshError(after, id, now, true).Some?
  {
    RevokedForever(LoggedOut(w, id, at, true), events, lives, id, now, true);
  }

  /** A refresh token works once. */
  lemma RefreshWorksOnce(w: World, id: Id, at: Clock, events: seq<Event>, lives: Lifetimes, now: Clock)
    requires FreshIds(w) && RefreshError(w, id, at, true) == None
    ensures RefreshError(ApplyAll(Refreshed(w, id, at, lives, true, true), events, lives), id, now, true).Some?
  {
    RevokedForever(Refreshed(w, id, at, lives, true, true), events, lives, id, now, true);
  }

  /** Unless its marker was not stored: exactly then it works again at once. */
  lemma UnstoredMarkerAllowsReuse(w: World, id: Id, at: Clock, lives: Lifetimes, writable: bool)
    requires FreshIds(w) && RefreshError(w, id, at, true) == None
    ensures RefreshError(Refreshed(w, id, at, lives, true, writable), id, at, true) == None <==> !writable
  {}

  /** While Redis is silent the middleware lets exactly the unexpired access tokens pass, revoked or not. */
  lemma AuthenticateFailsOpen(w: World, id: Id, now: Clock)
    ensures AuthenticateError(w, id, now, false) == None <==> Valid(w, id, now) && w.issued[id].kind == Access
  {}

  // ---- Exactly which tokens are accepted ----

  /** A login gives two tokens to an active user: one for access and one for refreshing, from then on and for their lifetimes. */
  lemma LoginIssues(w: World, user: Id, now: Clock, lives: Lifetimes, matches: bool)
    requires FreshIds(w)
    ensures var after := LoggedIn(w, user, now, lives, matches);
            if user in w.users && w.users[user] && matches then
              && w.next !in w.issued && w.next + 1 !in w.issued && FreshIds(after)
              && after.issued == w.issued[w.next := Claims(user, Access, now.sec, now.sec + lives.access)]
                                         [w.next + 1 := Claims(user, Refresh, now.sec, now.sec + lives.refresh)]
              && after.blacklist == w.blacklist && after.passwords == w.passwords && after.users == w.users
            else after == w
  {}

  predicate InLife(c: Claims, now: Clock) { c.issuedAt <= now.sec < c.expiresAt }

  /** The event marks the token: a logout with it in its life, or a refresh that succeeds with it, when the marker is stored. */
  predicate Marks(w: World, e: Event, id: Id)
  {
    && id in w.issued
    && match e
       case DoLogout(i, now, writable) => i == id && writable && InLife(w.issued[id], now)
       case DoRefresh(i, now, readable, writable) =>
         && i == id && readable && writable && w.issued[id].kind == Refresh && InLife(w.issued[id], now)
         && id !in w.blacklist && w.issued[id].user in w.users && w.users[w.issued[id].user]
       case _ => false
  }

  predicate MarkedIn(w: World, events: seq<Event>, lives: Lifetimes, id: Id)
    decreases |events|
  {
    events != [] && (Marks(w, events[0], id) || MarkedIn(Apply(w, events[0], lives), events[1..], lives, id))
  }

  /** Markers are those of tokens, and live as long as these. */
  ghost predicate MarkersLive(w: World) { forall id :: id in w.blacklist ==> IsRevoked(w, id) }

  lemma EventKeepsMarkers(w: World, e: Event, lives: Lifetimes)
    requires FreshIds(w) && MarkersLive(w)
    ensures FreshIds(Apply(w, e, lives)) && MarkersLive(Apply(w, e, lives))
  {}

  lemma EventMarks(w: World, e: Event, lives: Lifetimes, id: Id)
    requires FreshIds(w) && MarkersLive(w) && id in w.issued
    ensures id in Apply(w, e, lives).issued && Apply(w, e, lives).issued[id] == w.issued[id]
    ensures id in Apply(w, e, lives).blacklist <==> id in w.blacklist || Marks(w, e, id)
  {}

  lemma {:induction false} RunMarks(w: World, events: seq<Event>, lives: Lifetimes, id: Id)
    requires FreshIds(w) && MarkersLive(w) && id in w.issued
    ensures var after := ApplyAll(w, events, lives);
            && id in after.issued && after.issued[id] == w.issued[id] && MarkersLive(after)
            && (id in after.blacklist <==> id in w.blacklist || MarkedIn(w, events, lives, id))
    decreases |events|
  {
    if events != [] {
      EventKeepsMarkers(w, events[0], lives);
      EventMarks(w, events[0], lives, id);
      RunMarks(Apply(w, events[0], lives), events[1..], lives, id);
    }
  }

  /**
   After every run a refresh with an unmarked token succeeds if and only if it is a refresh token in its
   life, no logout or earlier refresh of the run marked it, and its user is active now.
   */
  lemma RefreshSucceedsExactly(w: World, events: seq<Event>, lives: Lifetimes, id: Id, now: Clock)
    requires FreshIds(w) && MarkersLive(w) && id in w.issued && id !in w.blacklist
    ensures var after, c := ApplyAll(w, events, lives), w.issued[id];
            RefreshError(after, id, now, true) == None <==>
              && c.kind == Refresh && InLife(c, now) && !MarkedIn(w, events, lives, id)
              && c.user in after.users && after.users[c.user]
  {
    RunMarks(w, events, lives, id);
  }

  /** Whether the run changed the user's password in the second given or a later one, and the marker was stored. */
  ghost predicate PasswordSetAfter(w: World, events: seq<Event>, lives: Lifetimes, user: Id, sec: nat)
    decreases |events|
  {
    events != [] &&
      (|| (events[0].DoChangePassword? && events[0].user == user && user in w.users && events[0].matches && events[0].saves
           && events[0].writable && events[0].now.sec > sec)
       || PasswordSetAfter(Apply(w, events[0], lives), events[1..], lives, user, sec))
  }

  /** The marker of a user's last change of password, if it was after the second, still there and good for its life. */
  predicate NewerMarker(w: World, user: Id, sec: nat)
  {
    user in w.passwords && w.passwords[user].changedAt > sec
  }

  /** Events in the order of their times, none before the second. */
  predicate InTime(events: seq<Event>, sec: nat)
    decreases |events|
  {
    events != [] ==>
      && HappensFrom(events[0], sec)
      && InTime(events[1..], if events[0].DoChangePassword? then events[0].now.sec else sec)
  }

  lemma {:induction false} RunSetsPassword(w: World, events: seq<Event>, lives: Lifetimes, user: Id, sec: nat, from: nat)
    requires InTime(events, from) && (user in w.passwords ==> w.passwords[user].changedAt <= from) && sec <= from
    ensures NewerMarker(ApplyAll(w, events, lives), user, sec)
       <==> NewerMarker(w, user, sec) || PasswordSetAfter(w, events, lives, user, sec)
    decreases |events|
  {
    if events != [] {
      var e := events[0];
      RunSetsPassword(Apply(w, e, lives), events[1..], lives, user, sec, if e.DoChangePassword? then e.now.sec else from);
    }
  }

  /** Password markers are good for seven days from the change. */
  predicate PasswordMarkersLive(w: World)
  {
    forall user :: user in w.passwords ==> w.passwords[user].until.sec == w.passwords[user].changedAt + PASSWORD_MARKER_SECONDS
  }

  lemma {:induction false} RunKeepsPasswordMarkers(w: World, events: seq<Event>, lives: Lifetimes)
    requires PasswordMarkersLive(w)
    ensures PasswordMarkersLive(ApplyAll(w, events, lives))
    decreases |events|
  {
    if events != [] {
      RunKeepsPasswordMarkers(Apply(w, events[0], lives), events[1..], lives);
    }
  }

  /**
   While Redis answers, the middleware accepts an unmarked access token that lives at most seven days and a
   second, after every run in time order, if and only if it is in its life, no logout of the run was with
   it, and its user's password was not changed in a later second than its own.
   */
  lemma AuthenticateAcceptsExactly(w: World, events: seq<Event>, lives: Lifetimes, id: Id, now: Clock)
    requires FreshIds(w) && MarkersLive(w) && PasswordMarkersLive(w) && id in w.issued && id !in w.blacklist
    requires w.issued[id].kind == Access && w.issued[id].expiresAt <= w.issued[id].issuedAt + PASSWORD_MARKER_SECONDS + 1
    requires InTime(events, w.issued[id].issuedAt)
    requires w.issued[id].user in w.passwords ==> w.passwords[w.issued[id].user].changedAt <= w.issued[id].issuedAt
    ensures var after, c := ApplyAll(w, events, lives), w.issued[id];
            AuthenticateError(after, id, now, true) == None <==>
              && InLife(c, now) && !MarkedIn(w, events, lives, id)
              && !PasswordSetAfter(w, events, lives, c.user, c.issuedAt)
  {
    RunMarks(w, events, lives, id);
    RunKeepsPasswordMarkers(w, events, lives);
    RunSetsPassword(w, events, lives, w.issued[id].user, w.issued[id].issuedAt, w.issued[id].issuedAt);
  }

  // ---- Changed passwords ----

  /** Issued access tokens live no longer than their lifetime. */
  predicate Lives(w: World, lives: Lifetimes)
  {
    forall id :: id in w.issued && w.issued[id].kind == Access ==> w.issued[id].expiresAt <= w.issued[id].issuedAt + lives.access
  }

  /** A marker for that user from that second or a later one, good for the marker's life. */
  predicate MarkedSince(w: World, user: Id, sec: nat)
  {
    && user in w.passwords && w.passwords[user].changedAt >= sec
    && w.passwords[user].until.sec == w.passwords[user].changedAt + PASSWORD_MARKER_SECONDS
  }

  predicate HappensFrom(e: Event, sec: nat)
  {
    match e
    case DoLogin(_, now, _) => now.sec >= sec
    case DoLogout(_, now, _) => now.sec >= sec
    case DoRefresh(_, now, _, _) => now.sec >= sec
    case DoChangePassword(_, now, _, _, _) => now.sec >= sec
    case SetUsers(_) => true
  }

  lemma EventKeepsMarked(w: World, e: Event, lives: Lifetimes, user: Id, sec: nat)
    requires MarkedSince(w, user, sec) && Lives(w, lives) && FreshIds(w) && HappensFrom(e, sec)
    ensures MarkedSince(Apply(w, e, lives), user, sec) && Lives(Apply(w, e, lives), lives) && FreshIds(Apply(w, e, lives))
  {}

  lemma OldTokenIsRefused(w: World, lives: Lifetimes, id: Id, sec: nat, now: Clock)
    requires lives.access <= PASSWORD_MARKER_SECONDS + 1 && Lives(w, lives)
    requires id in w.issued && w.issued[id].issuedAt < sec && MarkedSince(w, w.issued[id].user, sec)
    ensures AuthenticateError(w, id, now, true).Some?
  {}

  lemma EventKeepsClaims(w: World, e: Event, lives: Lifetimes, id: Id)
    requires FreshIds(w) && id in w.issued
    ensures FreshIds(Apply(w, e, lives)) && id in Apply(w, e, lives).issued && Apply(w, e, lives).issued[id] == w.issued[id]
  {}

  lemma {:induction false} OldTokenStaysRefused(w: World, events: seq<Event>, lives: Lifetimes, id: Id, sec: nat, now: Clock)
    requires lives.access <= PASSWORD_MARKER_SECONDS + 1 && Lives(w, lives) && FreshIds(w)
    requires id in w.issued && w.issued[id].issuedAt < sec && MarkedSince(w, w.issued[id].user, sec)
    requires forall e <- events :: HappensFrom(e, sec)
    ensures AuthenticateError(ApplyAll(w, events, lives), id, now, true).Some?
    decreases |events|
  {
    if events == [] {
      OldTokenIsRefused(w, lives, id, sec, now);
    } else {
      EventKeepsMarked(w, events[0], lives, w.issued[id].user, sec);
      EventKeepsClaims(w, events[0], lives, id);
      OldTokenStaysRefused(Apply(w, events[0], lives), events[1..], lives, id, sec, now);
    }
  }

  /**
   With an access lifetime of at most seven days and a second, no token that the user got in an earlier
   second than a change of password is accepted after it, over every later run.
   */
  lemma ChangePasswordRevokesOlderTokens(w: World, id: Id, at: Clock, events: seq<Event>, lives: Lifetimes, now: Clock)
    requires lives.access <= PASSWORD_MARKER_SECONDS + 1 && Lives(w, lives) && FreshIds(w)
    requires id in w.issued && w.issued[id].user in w.users && w.issued[id].issuedAt < at.sec
    requires forall e <- events :: HappensFrom(e, at.sec)
    ensures var after := ApplyAll(PasswordSet(w, w.issued[id].user, at, true, true, true), events, lives);
            AuthenticateError(after, id, now, true).Some?
  {
    OldTokenStaysRefused(PasswordSet(w, w.issued[id].user, at, true, true, true), events, lives, id, at.sec, now);
  }

  /** The token was issued to a user in an earlier second, and the run is of later events. */
  ghost predicate Older(w: World, lives: Lifetimes, id: Id, at: Clock, events: seq<Event>)
  {
    && Lives(w, lives) && FreshIds(w)
    && id in w.issued && w.issued[id].user in w.users && w.issued[id].issuedAt < at.sec
    && forall e <- events :: HappensFrom(e, at.sec)
  }

  /** A change of password revokes the user's older access tokens for good. */
  ghost predicate ChangeRevokes(lives: Lifetimes)
  {
    forall w, id, at, events, now :: Older(w, lives, id, at, events) ==>
      AuthenticateError(ApplyAll(PasswordSet(w, w.issued[id].user, at, true, true, true), events, lives), id, now, true).Some?
  }

  /** With a longer lifetime, a token from the second before the change outlives the marker. */
  lemma LongLivedTokenReturns(lives: Lifetimes)
    requires lives.access > PASSWORD_MARKER_SECONDS + 1
    ensures !ChangeRevokes(lives)
  {
    var w := World(map[0 := Claims(0, Access, 0, lives.access)], 1, map[], map[], map[0 := true]);
    var at, now := Clock(1, 0), Clock(PASSWORD_MARKER_SECONDS + 1, 0);
    assert Older(w, lives, 0, at, []);
    assert ApplyAll(PasswordSet(w, 0, at, true, true, true), [], lives) == PasswordSet(w, 0, at, true, true, true);
    assert AuthenticateError(PasswordSet(w, 0, at, true, true, true), 0, now, true) == None;
  }

  /**
   Over every run a change of password revokes all older access tokens for good if and only if they live
   at most seven days and a second.
   */
  lemma ChangeRevokesExactlyUpToTheMarkersLife(lives: Lifetimes)
    ensures ChangeRevokes(lives) <==> lives.access <= PASSWORD_MARKER_SECONDS + 1
  {
    if lives.access <= PASSWORD_MARKER_SECONDS + 1 {
      forall w, id, at, events, now | Older(w, lives, id, at, events)
        ensures
          var after := ApplyAll(PasswordSet(w, w.issued[id].user, at, true, true, true), events, lives);
          AuthenticateError(after, id, now, true).Some?
      {
        ChangePasswordRevokesOlderTokens(w, id, at, events, lives, now);
      }
    } else {
      LongLivedTokenReturns(lives);
    }
  }

  /** The comparison is by seconds: of the tokens accepted until then, exactly those from the second of the change still are. */
  lemma SameSecondTokenSurvives(w: World, id: Id, at: Clock)
    requires AuthenticateError(w, id, at, true) == None
    ensures AuthenticateError(PasswordSet(w, w.issued[id].user, at, true, true, true), id, at, true) == None
       <==> w.issued[id].user !in w.users || w.issued[id].issuedAt == at.sec
  {}

  /** Refreshing never asks for the change of password: what it answers is the same with and without. */
  lemma PasswordChangeLeavesRefresh(w: World, user: Id, at: Clock, matches: bool, saves: bool, writable: bool,
                                    id: Id, now: Clock, readable: bool)
    ensures RefreshError(PasswordSet(w, user, at, matches, saves, writable), id, now, readable)
         == RefreshError(w, id, now, readable)
  {}

  /** A refresh token is not measured against the change: an older one still yields a new pair, with a new access token. */
  lemma RefreshIgnoresPasswordChange(w: World, id: Id, at: Clock, lives: Lifetimes, now: Clock)
    requires FreshIds(w) && RefreshError(w, id, now, true) == None && NotAfter(at, now) && lives.access > 0
    ensures var changed := PasswordSet(w, w.issued[id].user, at, true, true, true);
            && RefreshError(changed, id, now, true) == None
            && AuthenticateError(Refreshed(changed, id, now, lives, true, true), w.next, now, true) == None
  {
    var changed := PasswordSet(w, w.issued[id].user, at, true, true, true);
    PasswordChangeLeavesRefresh(w, w.issued[id].user, at, true, true, true, id, now, true);
    assert w.next in Refreshed(changed, id, now, lives, true, true).issued;
  }
}
