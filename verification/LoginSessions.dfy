/**
 Who is logged in. Over any run of the system, a lookup finds a user exactly from the
 login with its token until the session expires, is logged out or is revoked.
 */
module LoginSessions {
  import opened Common
  import opened Database
  import opened Protocol
  import opened SharedSystem

  predicate IsLogin(a: SystemAction, token: string) {
    a.Login? && a.token == token
  }

  predicate Ends(a: SystemAction, token: string, user: int) {
    a == Logout(token) || a == Revoke(user)
  }

  // The cleanup statement deletes a session that expires then.
  predicate Purges(p: Policy, a: SystemAction, expires: Time) {
    a.PurgeSessions? && expires < a.now - p.sessionRetention
  }

  // The i-th action is the login that opened the session of this token.
  predicate Opens(p: Policy, actions: seq<SystemAction>, i: nat, token: string, user: int, expires: Time) {
    && i < |actions| && actions[i] == Login(token, user, expires - p.sessionLifetime)
    && forall k :: 0 <= k < i ==> !IsLogin(actions[k], token)
  }

  predicate NotEnded(actions: seq<SystemAction>, i: nat, token: string, user: int) {
    forall k :: i < k < |actions| ==> !Ends(actions[k], token, user)
  }

  predicate NotPurged(p: Policy, actions: seq<SystemAction>, i: nat, expires: Time) {
    forall k :: i < k < |actions| ==> !Purges(p, actions[k], expires)
  }

  ghost predicate Stored(p: Policy, actions: seq<SystemAction>, token: string, row: SessionRow) {
    exists i: nat :: Opens(p, actions, i, token, row.user, row.expiresAt)
                     && NotEnded(actions, i, token, row.user) && NotPurged(p, actions, i, row.expiresAt)
  }

  ghost predicate LoggedIn(p: Policy, actions: seq<SystemAction>, token: string, user: int, now: Time) {
    exists i: nat, expires: Time ::
      Opens(p, actions, i, token, user, expires) && NotEnded(actions, i, token, user) && now < expires
  }

  predicate Sized(actions: seq<SystemAction>) {
    forall k :: 0 <= k < |actions| && actions[k].Limit? ==> actions[k].check.seconds >= 1
  }

  // The system after these actions.
  ghost function After(p: Policy, start: Time, actions: seq<SystemAction>): (s: System)
    requires Sized(actions)
    ensures WellKeyed(s.queue)
  {
    if actions == [] then Start(start)
    else Step(p, After(p, start, actions[..|actions| - 1]), actions[|actions| - 1])
  }

  lemma DrawnStep(p: Policy, s: System, a: SystemAction, token: string)
    requires WellKeyed(s.queue) && (a.Limit? ==> a.check.seconds >= 1)
    ensures token in Step(p, s, a).drawn <==> token in s.drawn || IsLogin(a, token)
  {
  }

  lemma {:induction false} DrawnExactly(p: Policy, start: Time, actions: seq<SystemAction>, token: string)
    requires Sized(actions)
    ensures token in After(p, start, actions).drawn <==> exists k :: 0 <= k < |actions| && IsLogin(actions[k], token)
    decreases |actions|
  {
    if actions != [] {
      var before := actions[..|actions| - 1];
      DrawnExactly(p, start, before, token);
      DrawnStep(p, After(p, start, before), actions[|actions| - 1], token);
      assert forall k :: 0 <= k < |before| ==> before[k] == actions[k];
    }
  }

  predicate HasRow(s: System, token: string, row: SessionRow) {
    token in s.sessions && s.sessions[token] == row
  }

  lemma RowStep(p: Policy, s: System, a: SystemAction, token: string, row: SessionRow)
    requires WellKeyed(s.queue) && (a.Limit? ==> a.check.seconds >= 1)
    ensures HasRow(Step(p, s, a), token, row) <==>
            || (token !in s.drawn && a == Login(token, row.user, row.expiresAt - p.sessionLifetime))
            || (HasRow(s, token, row) && !Ends(a, token, row.user) && !Purges(p, a, row.expiresAt)
                && (token in s.drawn || !IsLogin(a, token)))
  {
  }

  lemma StoredStep(p: Policy, actions: seq<SystemAction>, a: SystemAction, token: string, row: SessionRow)
    ensures Stored(p, actions + [a], token, row) <==>
            || ((forall k :: 0 <= k < |actions| ==> !IsLogin(actions[k], token))
                && a == Login(token, row.user, row.expiresAt - p.sessionLifetime))
            || (Stored(p, actions, token, row) && !Ends(a, token, row.user) && !Purges(p, a, row.expiresAt))
  {
    var n, all := |actions|, actions + [a];
    assert all[n] == a && forall k :: 0 <= k < n ==> all[k] == actions[k];
    if Stored(p, all, token, row) {
      var i: nat :| Opens(p, all, i, token, row.user, row.expiresAt)
                    && NotEnded(all, i, token, row.user) && NotPurged(p, all, i, row.expiresAt);
      if i < n {
        assert Opens(p, actions, i, token, row.user, row.expiresAt);
      }
    }
    if (forall k :: 0 <= k < n ==> !IsLogin(actions[k], token))
       && a == Login(token, row.user, row.expiresAt - p.sessionLifetime) {
      assert Opens(p, all, n, token, row.user, row.expiresAt);
    }
    if Stored(p, actions, token, row) && !Ends(a, token, row.user) && !Purges(p, a, row.expiresAt) {
      var i: nat :| Opens(p, actions, i, token, row.user, row.expiresAt)
                    && NotEnded(actions, i, token, row.user) && NotPurged(p, actions, i, row.expiresAt);
      assert Opens(p, all, i, token, row.user, row.expiresAt);
    }
  }

  // The session table holds exactly the sessions that were opened and neither ended
  // nor purged since.
  lemma {:induction false} SessionsExactly(p: Policy, start: Time, actions: seq<SystemAction>, token: string,
                                           row: SessionRow)
    requires Sized(actions)
    ensures HasRow(After(p, start, actions), token, row) <==> Stored(p, actions, token, row)
    decreases |actions|
  {
    if actions != [] {
      var before, a := actions[..|actions| - 1], actions[|actions| - 1];
      SessionsExactly(p, start, before, token, row);
      DrawnExactly(p, start, before, token);
      RowStep(p, After(p, start, before), a, token, row);
      StoredStep(p, before, a, token, row);
      assert actions == before + [a];
      if Stored(p, before, token, row) {
        var i: nat :| Opens(p, before, i, token, row.user, row.expiresAt);
        assert IsLogin(before[i], token);
      }
    }
  }

  // ---- what a request sees ----

  lemma AfterClock(p: Policy, start: Time, actions: seq<SystemAction>, a: SystemAction)
    requires Sized(actions + [a])
    ensures Sized(actions)
    ensures After(p, start, actions + [a]).queue.clock == ClockAfter(After(p, start, actions).queue.clock, a)
  {
    assert (actions + [a])[..|actions|] == actions && (actions + [a])[|actions|] == a;
    assert forall k :: 0 <= k < |actions| ==> (actions + [a])[k] == actions[k];
    StepClock(p, After(p, start, actions), a);
  }

  // The clock after these actions, and every purge's reading before it.
  function ClockAfterAll(clock: Time, actions: seq<SystemAction>): Time
    decreases |actions|
  {
    if actions == [] then clock else ClockAfterAll(ClockAfter(clock, actions[0]), actions[1..])
  }

  lemma {:induction false} AfterAllClock(p: Policy, start: Time, done: seq<SystemAction>, rest: seq<SystemAction>)
    requires Sized(done + rest)
    ensures Sized(done)
    ensures After(p, start, done + rest).queue.clock == ClockAfterAll(After(p, start, done).queue.clock, rest)
    decreases |rest|
  {
    assert forall k :: 0 <= k < |done| ==> (done + rest)[k] == done[k];
    if rest == [] {
      assert done + rest == done;
    } else {
      assert done + [rest[0]] + rest[1..] == done + rest;
      AfterAllClock(p, start, done + [rest[0]], rest[1..]);
      AfterClock(p, start, done, rest[0]);
    }
  }

  lemma {:induction false} PurgesInTime(p: Policy, clock: Time, lag: nat, actions: seq<SystemAction>)
    requires Timely(p, clock, lag, actions)
    ensures Sized(actions)
    ensures clock <= ClockAfterAll(clock, actions)
    ensures forall k :: 0 <= k < |actions| && actions[k].PurgeSessions? ==>
                          actions[k].now <= ClockAfterAll(clock, actions)
    decreases |actions|
  {
    if actions != [] {
      PurgesInTime(p, ClockAfter(clock, actions[0]), lag, actions[1..]);
      assert forall k :: 0 < k < |actions| ==> actions[k] == actions[1..][k - 1];
    }
  }

  // A lookup finds a user exactly when the user logged in with the token, the lifetime
  // of the session has not run out at the lookup's reading, and it was neither logged
  // out nor revoked. Cleanups make no difference as long as the lookup reaches its
  // table at most the session retention plus one microsecond after its reading.
  lemma LookupExactly(p: Policy, start: Time, lag: nat, actions: seq<SystemAction>, token: string, user: int,
                      now: Time)
    requires Timely(p, start, lag, actions) && lag <= p.sessionRetention + 1
    ensures Sized(actions)
    ensures Recent(After(p, start, actions).queue.clock, lag, now) ==>
              (FindSession(After(p, start, actions).sessions, token, now) == Some(user) <==>
               LoggedIn(p, actions, token, user, now))
  {
    PurgesInTime(p, start, lag, actions);
    assert [] + actions == actions;
    AfterAllClock(p, start, [], actions);
    var s := After(p, start, actions);
    if Recent(s.queue.clock, lag, now) {
      if FindSession(s.sessions, token, now) == Some(user) {
        SessionsExactly(p, start, actions, token, s.sessions[token]);
      }
      if LoggedIn(p, actions, token, user, now) {
        var i: nat, expires: Time :|
          Opens(p, actions, i, token, user, expires) && NotEnded(actions, i, token, user) && now < expires;
        assert NotPurged(p, actions, i, expires);
        assert Stored(p, actions, token, SessionRow(user, expires));
        SessionsExactly(p, start, actions, token, SessionRow(user, expires));
      }
    }
  }
}
