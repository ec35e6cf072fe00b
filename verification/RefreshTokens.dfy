/** backend/app/api/auth.py: sessions and the rotation of refresh tokens. The tables keep their rows in creation order;
    times are parameters, and password checks end before a login reaches this module. */
module RefreshTokens {
  import opened Basics

  /** A refresh_tokens row; revoked stands for a set revoked_at. */
  datatype Token = Token(hash: string, session: nat, user: string, expiresAt: int, revoked: bool,
    replacedBy: Option<string>)

  /** An auth_sessions row; its id is its position. */
  datatype Session = Session(user: string, expiresAt: int, revoked: bool)

  datatype AuthDb = AuthDb(sessions: seq<Session>, tokens: seq<Token>)

  /** New token hashes are the hashes of freshly drawn tokens; live says that the user exists and is enabled. */
  datatype Request =
    | Login(user: string, hash: string, expiry: int)
    | Refresh(presented: string, hash: string, now: int, expiry: int, live: bool)
    | Logout(presented: string)

  function IndexOfToken(tokens: seq<Token>, hash: string): (i: nat)
    ensures i <= |tokens|
    ensures i < |tokens| ==> tokens[i].hash == hash
    ensures forall j | 0 <= j < i :: tokens[j].hash != hash
  {
    if tokens == [] || tokens[0].hash == hash then 0 else 1 + IndexOfToken(tokens[1..], hash)
  }

  /** The unique index on token_hash refuses a second row with the same hash. */
  predicate Unused(db: AuthDb, hash: string)
  {
    IndexOfToken(db.tokens, hash) == |db.tokens|
  }

  function LoggedIn(db: AuthDb, user: string, hash: string, expiry: int): AuthDb
  {
    AuthDb(db.sessions + [Session(user, expiry, false)],
      db.tokens + [Token(hash, |db.sessions|, user, expiry, false, None)])
  }

  predicate Usable(db: AuthDb, presented: string, now: int)
  {
    var i := IndexOfToken(db.tokens, presented);
    i < |db.tokens| && !db.tokens[i].revoked && db.tokens[i].expiresAt > now
  }

  function Rotated(db: AuthDb, i: nat, hash: string, expiry: int): AuthDb
    requires i < |db.tokens|
  {
    var t := db.tokens[i];
    AuthDb(if t.session < |db.sessions| then db.sessions[t.session := db.sessions[t.session].(expiresAt := expiry)]
           else db.sessions,
           db.tokens[i := t.(revoked := true, replacedBy := Some(hash))] +
             [Token(hash, t.session, t.user, expiry, false, None)])
  }

  function RevokedIn(tokens: seq<Token>, session: nat): (r: seq<Token>)
    ensures |r| == |tokens|
  {
    seq(|tokens|, i requires 0 <= i < |tokens| =>
      if tokens[i].session == session then tokens[i].(revoked := true) else tokens[i])
  }

  function LoggedOut(db: AuthDb, i: nat): AuthDb
    requires i < |db.tokens|
  {
    var s := db.tokens[i].session;
    AuthDb(if s < |db.sessions| then db.sessions[s := db.sessions[s].(revoked := true)] else db.sessions,
           RevokedIn(db.tokens, s))
  }

  function Handle(db: AuthDb, r: Request): AuthDb
  {
    match r
    case Login(user, hash, expiry) => if Unused(db, hash) then LoggedIn(db, user, hash, expiry) else db
    case Refresh(presented, hash, now, expiry, live) =>
      if Usable(db, presented, now) && live && Unused(db, hash)
      then Rotated(db, IndexOfToken(db.tokens, presented), hash, expiry) else db
    case Logout(presented) =>
      var i := IndexOfToken(db.tokens, presented);
      if i < |db.tokens| && !db.tokens[i].revoked then LoggedOut(db, i) else db
  }

  function HandleAll(db: AuthDb, rs: seq<Request>): AuthDb
  {
    if rs == [] then db else Handle(HandleAll(db, rs[..|rs| - 1]), rs[|rs| - 1])
  }

  const EMPTY := AuthDb([], [])

  /* ---- the tables as the endpoints change them ---- */

  class AuthStore {
    var sessions: seq<Session>
    var tokens: seq<Token>

    function Tables(): AuthDb
      reads this
    {
      AuthDb(sessions, tokens)
    }

    constructor ()
      ensures Tables() == EMPTY
    {
      sessions, tokens := [], [];
    }

    /** _token_response: with no session id it opens a session. */
    method IssueToken(user: string, session: Option<nat>, hash: string, expiry: int)
      modifies this
      ensures match session
              case None => Tables() == LoggedIn(old(Tables()), user, hash, expiry)
              case Some(id) =>
                && tokens == old(tokens) + [Token(hash, id, user, expiry, false, None)]
                && sessions == if id < |old(sessions)|
                               then old(sessions)[id := old(sessions)[id].(expiresAt := expiry)] else old(sessions)
    {
      var id := |sessions|;
      if session.Some? {
        id := session.value;
        if id < |sessions| {
          sessions := sessions[id := sessions[id].(expiresAt := expiry)];
        }
      } else {
        sessions := sessions + [Session(user, expiry, false)];
      }
      tokens := tokens + [Token(hash, id, user, expiry, false, None)];
    }

    /** login, the password having been verified. */
    method Login(user: string, hash: string, expiry: int) returns (ok: bool)
      modifies this
      ensures ok == Unused(old(Tables()), hash)
      ensures Tables() == Handle(old(Tables()), Request.Login(user, hash, expiry))
    {
      ok := IndexOfToken(tokens, hash) == |tokens|;
      if ok {
        IssueToken(user, None, hash, expiry);
      }
    }

    /** refresh */
    method Refresh(presented: string, hash: string, now: int, expiry: int, live: bool) returns (ok: bool)
      modifies this
      ensures ok == (Usable(old(Tables()), presented, now) && live && Unused(old(Tables()), hash))
      ensures Tables() == Handle(old(Tables()), Request.Refresh(presented, hash, now, expiry, live))
    {
      var i := IndexOfToken(tokens, presented);
      if i == |tokens| || tokens[i].revoked || tokens[i].expiresAt <= now {
        return false;
      }
      if !live || IndexOfToken(tokens, hash) < |tokens| {
        return false;
      }
      IssueToken(tokens[i].user, Some(tokens[i].session), hash, expiry);
      tokens := tokens[i := tokens[i].(revoked := true)];
      tokens := tokens[i := tokens[i].(replacedBy := Some(hash))];
      ok := true;
    }

    /** logout */
    method Logout(presented: string)
      modifies this
      ensures Tables() == Handle(old(Tables()), Request.Logout(presented))
    {
      var i := IndexOfToken(tokens, presented);
      if i < |tokens| && !tokens[i].revoked {
        var s := tokens[i].session;
        tokens := tokens[i := tokens[i].(revoked := true)];
        if s < |sessions| && !sessions[s].revoked {
          sessions := sessions[s := sessions[s].(revoked := true)];
        }
        for k := 0 to |tokens|
          invariant |tokens| == |old(tokens)| && sessions == LoggedOut(old(Tables()), i).sessions
          invariant forall n | 0 <= n < |tokens| ::
                      tokens[n] == if n == i || (n < k && old(tokens)[n].session == s)
                                   then old(tokens)[n].(revoked := true) else old(tokens)[n]
        {
          if tokens[k].session == s && !tokens[k].revoked {
            tokens := tokens[k := tokens[k].(revoked := true)];
          }
        }
      }
    }
  }

  /* ---- the token chain of a session ---- */

  /** The first token of the session at or after position `from`, or |tokens|. */
  function TokenFrom(tokens: seq<Token>, session: nat, from: nat): (k: nat)
    requires from <= |tokens|
    ensures from <= k <= |tokens|
    ensures k < |tokens| ==> tokens[k].session == session
    ensures forall j | from <= j < k :: tokens[j].session != session
    decreases |tokens| - from
  {
    if from == |tokens| || tokens[from].session == session then from else TokenFrom(tokens, session, from + 1)
  }

  /** The next token of the same session. */
  function Successor(tokens: seq<Token>, i: nat): nat
    requires i < |tokens|
  {
    TokenFrom(tokens, tokens[i].session, i + 1)
  }

  /** A token was revoked and replaced by its successor; the last of a session was replaced by none, and is revoked if
      its session is. */
  ghost predicate Follows(db: AuthDb, i: nat)
    requires i < |db.tokens|
  {
    var t, n := db.tokens[i], Successor(db.tokens, i);
    && t.session < |db.sessions|
    && (if n < |db.tokens| then t.revoked && t.replacedBy == Some(db.tokens[n].hash) else t.replacedBy == None)
    && (db.sessions[t.session].revoked ==> t.revoked)
  }

  ghost predicate DistinctHashes(tokens: seq<Token>)
  {
    forall i, j | 0 <= i < j < |tokens| :: tokens[i].hash != tokens[j].hash
  }

  /** Hashes are unique, and the tokens of each session form one chain in creation order. */
  ghost predicate ChainedTokens(db: AuthDb)
  {
    DistinctHashes(db.tokens) && forall i | 0 <= i < |db.tokens| :: Follows(db, i)
  }

  /** Of two tokens of one session the older is revoked. */
  lemma OneUnrevoked(db: AuthDb, i: nat, j: nat)
    requires ChainedTokens(db) && i < j < |db.tokens| && db.tokens[i].session == db.tokens[j].session
    ensures db.tokens[i].revoked
  {
    assert Follows(db, i) && Successor(db.tokens, i) <= j;
  }

  lemma SuccessorSnoc(a: seq<Token>, b: seq<Token>, i: nat)
    requires i < |a| && |b| == |a| + 1 && forall k | 0 <= k < |a| :: b[k].session == a[k].session
    ensures Successor(b, i) == if Successor(a, i) < |a| then Successor(a, i)
                               else if b[|a|].session == a[i].session then |a| else |b|
  {
    var n := Successor(a, i);
    assert n < |a| ==> b[n].session == b[i].session;
  }

  lemma SuccessorSame(a: seq<Token>, b: seq<Token>, i: nat)
    requires i < |a| == |b| && forall k | 0 <= k < |a| :: b[k].session == a[k].session
    ensures Successor(b, i) == Successor(a, i)
  {
    var n, m := Successor(a, i), Successor(b, i);
    assert n < |a| ==> b[n].session == b[i].session;
    assert m < |a| ==> a[m].session == a[i].session;
  }

  lemma LoginChained(db: AuthDb, user: string, hash: string, expiry: int)
    requires ChainedTokens(db) && Unused(db, hash)
    ensures ChainedTokens(LoggedIn(db, user, hash, expiry))
  {
    hide Successor;
    var after := LoggedIn(db, user, hash, expiry);
    forall i | 0 <= i < |db.tokens| ensures Follows(after, i) {
      assert Follows(db, i);
      SuccessorSnoc(db.tokens, after.tokens, i);
    }
    NoSuccessor(after.tokens);
  }

  lemma NoSuccessor(tokens: seq<Token>)
    requires tokens != []
    ensures Successor(tokens, |tokens| - 1) == |tokens|
  {
  }

  lemma RotateChained(db: AuthDb, i: nat, hash: string, expiry: int)
    requires ChainedTokens(db) && i < |db.tokens| && !db.tokens[i].revoked && Unused(db, hash)
    ensures ChainedTokens(Rotated(db, i, hash, expiry))
  {
    hide Successor;
    var after := Rotated(db, i, hash, expiry);
    assert Follows(db, i);
    forall k | 0 <= k < |db.tokens| ensures Follows(after, k) {
      assert Follows(db, k);
      SuccessorSnoc(db.tokens, after.tokens, k);
      if k < i && db.tokens[k].session == db.tokens[i].session { EarlierHasSuccessor(db.tokens, k, i); }
      if i < k && db.tokens[k].session == db.tokens[i].session { EarlierHasSuccessor(db.tokens, i, k); }
    }
    NoSuccessor(after.tokens);
  }

  lemma EarlierHasSuccessor(tokens: seq<Token>, i: nat, j: nat)
    requires i < j < |tokens| && tokens[i].session == tokens[j].session
    ensures Successor(tokens, i) <= j
  {
  }

  lemma LogoutChained(db: AuthDb, i: nat)
    requires ChainedTokens(db) && i < |db.tokens|
    ensures ChainedTokens(LoggedOut(db, i))
  {
    hide Successor;
    var after := LoggedOut(db, i);
    forall k | 0 <= k < |db.tokens| ensures Follows(after, k) {
      assert Follows(db, k);
      SuccessorSame(db.tokens, after.tokens, k);
    }
  }

  lemma HandleChained(db: AuthDb, r: Request)
    requires ChainedTokens(db)
    ensures ChainedTokens(Handle(db, r))
  {
    hide ChainedTokens, Rotated, LoggedIn, LoggedOut;
    match r
    case Login(user, hash, expiry) => if Unused(db, hash) { LoginChained(db, user, hash, expiry); }
    case Refresh(presented, hash, now, expiry, live) =>
      if Usable(db, presented, now) && live && Unused(db, hash) {
        RotateChained(db, IndexOfToken(db.tokens, presented), hash, expiry);
      }
    case Logout(presented) =>
      if IndexOfToken(db.tokens, presented) < |db.tokens| { LogoutChained(db, IndexOfToken(db.tokens, presented)); }
  }

  /** In every run of logins, refreshes and logouts, each session's tokens form one chain in creation order and at most
      the last of them is unrevoked. */
  lemma {:induction false} RunsChained(rs: seq<Request>)
    ensures ChainedTokens(HandleAll(EMPTY, rs))
  {
    hide Handle;
    if rs != [] {
      RunsChained(rs[..|rs| - 1]);
      HandleChained(HandleAll(EMPTY, rs[..|rs| - 1]), rs[|rs| - 1]);
    }
  }

  /** No token of the session is unrevoked. */
  predicate Dead(db: AuthDb, session: nat)
  {
    session < |db.sessions| && db.sessions[session].revoked
    && forall t | t in db.tokens && t.session == session :: t.revoked
  }

  lemma HandleDead(db: AuthDb, r: Request, session: nat)
    requires Dead(db, session)
    ensures Dead(Handle(db, r), session)
  {
    hide IndexOfToken, Unused;
    if r.Refresh? && Usable(db, r.presented, r.now) { PresentedLives(db, r.presented, r.now); }
    var after := Handle(db, r);
    forall k | 0 <= k < |after.tokens| && after.tokens[k].session == session ensures after.tokens[k].revoked {
      if k < |db.tokens| { assert db.tokens[k] in db.tokens; }
    }
  }

  lemma PresentedLives(db: AuthDb, presented: string, now: int)
    requires Usable(db, presented, now)
    ensures var t := db.tokens[IndexOfToken(db.tokens, presented)]; t in db.tokens && !t.revoked
  {
  }

  lemma {:induction false} DeadForever(db: AuthDb, rs: seq<Request>, session: nat)
    requires ChainedTokens(db) && Dead(db, session)
    ensures ChainedTokens(HandleAll(db, rs)) && Dead(HandleAll(db, rs), session)
  {
    hide Handle, ChainedTokens, Dead;
    if rs != [] {
      DeadForever(db, rs[..|rs| - 1], session);
      HandleChained(HandleAll(db, rs[..|rs| - 1]), rs[|rs| - 1]);
      HandleDead(HandleAll(db, rs[..|rs| - 1]), rs[|rs| - 1], session);
    }
  }

  /** Logging out with an unrevoked token ends its session for good: in every continuation the session has no unrevoked
      token, although refresh never looks at the session's own revocation. */
  lemma LoggedOutForever(before: seq<Request>, presented: string, after: seq<Request>)
    ensures var db := HandleAll(EMPTY, before);
            var i := IndexOfToken(db.tokens, presented);
            i < |db.tokens| && !db.tokens[i].revoked ==>
              Dead(HandleAll(Handle(db, Logout(presented)), after), db.tokens[i].session)
  {
    hide HandleAll, ChainedTokens;
    var db := HandleAll(EMPTY, before);
    RunsChained(before);
    HandleChained(db, Logout(presented));
    var i := IndexOfToken(db.tokens, presented);
    if i < |db.tokens| && !db.tokens[i].revoked {
      InSession(db, i);
      DeadForever(Handle(db, Logout(presented)), after, db.tokens[i].session);
    }
  }

  lemma InSession(db: AuthDb, i: nat)
    requires ChainedTokens(db) && i < |db.tokens|
    ensures db.tokens[i].session < |db.sessions|
  {
    assert Follows(db, i);
  }

  /** Presenting a token a second time is refused: rotation succeeds at most once per token. */
  lemma ReuseRefused(db: AuthDb, presented: string, hash: string, now: int, expiry: int, later: int)
    requires Usable(db, presented, now) && Unused(db, hash)
    ensures var once := Handle(db, Refresh(presented, hash, now, expiry, true));
            && !Usable(once, presented, later)
            && (later < expiry ==> Usable(once, hash, later))
  {
    var i := IndexOfToken(db.tokens, presented);
    var once := Handle(db, Refresh(presented, hash, now, expiry, true));
    assert once.tokens[|db.tokens|].hash == hash && once.tokens[i].hash == presented;
    assert IndexOfToken(once.tokens, presented) == i;
    assert IndexOfToken(once.tokens, hash) == |db.tokens|;
  }
}
