/** The life of a session over whole runs of the gate: what ends it, and what does not. */
module AuthSessions {
  import opened Basics
  import opened AuthGate

  const THIRTY_DAYS := 2592000

  // ---- The clock of a run ----

  /** The instant a step reads off the gate's clock, when it reads one. */
  function InstantOf(step: Step): Option<int> {
    match step
    case Arrive(_, _, now) => Some(now)
    case Resign(_, now) => Some(now)
    case SignIn(_, _, _, now) => Some(now)
    case Respond(_, _, now) => Some(now)
    case Begin(_, change) =>
      (match change
       case Enable(_, _, _, _, at) => Some(at)
       case Regenerate(_, _, at) => Some(at)
       case Logout(_, at) => Some(at)
       case _ => None)
    case _ => None
  }

  /** The clock does not go back. */
  predicate Onward(steps: seq<Step>) {
    forall i, j :: 0 <= i < j < |steps| && InstantOf(steps[i]).Some? && InstantOf(steps[j]).Some? ==>
      InstantOf(steps[i]).value <= InstantOf(steps[j]).value
  }

  /** An instant no earlier than any read so far. */
  predicate ReachedBy(steps: seq<Step>, n: nat, now: int)
    requires n <= |steps|
  {
    forall i :: 0 <= i < n && InstantOf(steps[i]).Some? ==> InstantOf(steps[i]).value <= now
  }

  /** The clock had read an instant by the n-th step. */
  predicate HasRead(steps: seq<Step>, n: nat, at: int)
    requires n <= |steps|
  {
    exists i :: 0 <= i < n && InstantOf(steps[i]).Some? && InstantOf(steps[i]).value >= at
  }

  // ---- A logout under way ----

  /** A logout about to be written revokes its session as of an instant already read. */
  predicate Revoking(w: World, steps: seq<Step>, n: nat)
    requires n <= |steps|
  {
    w.pending.Some? && w.pending.value.change.Logout? ==>
      var c, s := w.pending.value.change, w.pending.value.after;
      c.sid in s.revoked && s.revoked[c.sid] == c.at && HasRead(steps, n, c.at)
  }

  lemma RevokingStep(w: World, step: Step, w': World, steps: seq<Step>, n: nat)
    requires n < |steps| && steps[n] == step && Takes(w, step, w') && Revoking(w, steps, n)
    ensures Revoking(w', steps, n + 1)
  {
    hide Responded, Accepts, RowOf, Purged;
    assert forall at :: HasRead(steps, n, at) ==> HasRead(steps, n + 1, at);
    match step
    case Begin(_, change) =>
      if change.Logout? {
        assert InstantOf(steps[n]) == Some(change.at);
      }
    case Respond(id, sid, now) => RespondShape(w, id, sid, now);
    case _ =>
  }

  lemma {:induction false} RunRevoking(ws: seq<World>, steps: seq<Step>, n: nat)
    requires Run(ws, steps) && n < |ws|
    ensures Revoking(ws[n], steps, n)
  {
    hide Takes, Revoking, Initial;
    if n > 0 {
      RunRevoking(ws, steps, n - 1);
      RevokingStep(ws[n - 1], steps[n - 1], ws[n], steps, n - 1);
    } else {
      NothingRevoking(ws[0], steps);
    }
  }

  lemma NothingRevoking(w: World, steps: seq<Step>)
    requires Initial(w)
    ensures Revoking(w, steps, 0)
  {
  }

  // ---- A session logged out ----

  /** Under this state the session is over: another secret, or revoked since, or too old for the clock. */
  predicate Over(s: AuthState, sid: string, secret: nat, at: int, steps: seq<Step>, n: nat)
    requires n <= |steps|
  {
    || s.secret != Some(secret)
    || (sid in s.revoked && s.revoked[sid] >= at)
    || HasRead(steps, n, at + THIRTY_DAYS)
  }

  predicate Ended(w: World, sid: string, secret: nat, at: int, steps: seq<Step>, n: nat)
    requires n <= |steps|
  {
    && secret in w.bound && HasRead(steps, n, at)
    && Over(w.state, sid, secret, at, steps, n)
    && (w.pending.Some? ==> Over(w.pending.value.after, sid, secret, at, steps, n))
  }

  /** The change a commit applies leaves an ended session ended. */
  lemma AppliedOver(w: World, c: Change, sid: string, secret: nat, at: int, steps: seq<Step>, n: nat)
    requires n < |steps| && steps[n].Begin? && steps[n].change == c && Onward(steps)
    requires Drawn(w, c) && secret in w.bound && HasRead(steps, n, at) && Over(w.state, sid, secret, at, steps, n)
    ensures Applied(w.state, c).Next? ==> Over(Applied(w.state, c).state, sid, secret, at, steps, n + 1)
  {
    ReadOn(steps, n, at + THIRTY_DAYS);
    if c.Logout? {
      assert InstantOf(steps[n]) == Some(c.at);
      assert c.at >= at;
      if c.at >= at + THIRTY_DAYS {
        assert HasRead(steps, n + 1, at + THIRTY_DAYS);
      }
    }
  }

  lemma ReadOn(steps: seq<Step>, n: nat, at: int)
    requires n < |steps|
    ensures HasRead(steps, n, at) ==> HasRead(steps, n + 1, at)
  {
  }

  /** What is read back from the row is the snapshot's state, or that of the commit that wrote it. */
  lemma RowIsEither(w: World)
    requires Sound(w)
    ensures ReadState(w.row) == w.state || (w.pending.Some? && ReadState(w.row) == w.pending.value.after)
  {
    hide RequestOk, Descends;
    RowRoundTrip(w.state);
    if w.pending.Some? {
      RowRoundTrip(w.pending.value.after);
    }
  }

  lemma EndedStep(w: World, step: Step, w': World, sid: string, secret: nat, at: int, steps: seq<Step>, n: nat)
    requires n < |steps| && steps[n] == step && Takes(w, step, w') && Onward(steps) && Sound(w)
    requires Ended(w, sid, secret, at, steps, n)
    ensures Ended(w', sid, secret, at, steps, n + 1)
  {
    hide Responded, Accepts, RowOf, Applied, Sound, HasRead, WithDraws;
    ReadOn(steps, n, at);
    ReadOn(steps, n, at + THIRTY_DAYS);
    StepExtends(w, step, w');
    match step
    case Begin(id, change) =>
      BegunShape(w, id, change, w');
      AppliedOver(w, change, sid, secret, at, steps, n);
    case Respond(id, own, now) => RespondShape(w, id, own, now);
    case Restart => RowIsEither(w);
    case _ =>
  }

  lemma {:induction false} StaysEnded(ws: seq<World>, steps: seq<Step>, m: nat, n: nat, sid: string, secret: nat,
                                      at: int)
    requires Run(ws, steps) && Onward(steps) && m <= n < |ws| && Ended(ws[m], sid, secret, at, steps, m)
    ensures Ended(ws[n], sid, secret, at, steps, n)
  {
    hide Takes, Ended, Initial;
    if m < n {
      StaysEnded(ws, steps, m, n - 1, sid, secret, at);
      RunSound(ws, steps, n - 1);
      EndedStep(ws[n - 1], steps[n - 1], ws[n], sid, secret, at, steps, n - 1);
    }
  }

  lemma SwapEnds(ws: seq<World>, steps: seq<Step>, m: nat)
    requires Run(ws, steps) && m < |steps| && steps[m].Swap?
    requires ws[m].pending.Some? && ws[m].pending.value.change.Logout? && ws[m + 1].state.secret.Some?
    ensures var c := ws[m].pending.value.change;
            Ended(ws[m + 1], c.sid, ws[m + 1].state.secret.value, c.at, steps, m + 1)
  {
    var c := ws[m].pending.value.change;
    RunRevoking(ws, steps, m);
    RunSound(ws, steps, m + 1);
    ReadOn(steps, m, c.at);
    SwappedShape(ws[m], ws[m + 1]);
    hide Takes, Initial, HasRead;
  }

  /** An ended session's cookie, signed by then, is refused; but for one signed in the very second of the logout,
      thirty days later to the second. */
  lemma OverIsRefused(s: AuthState, c: Cookie, at: int, now: int, steps: seq<Step>, n: nat)
    requires n <= |steps| && Over(s, c.sid, c.secret, at, steps, n) && c.signedAt <= at && ReachedBy(steps, n, now)
    ensures Accepts(s, c, now) ==> c.signedAt == at && now == at + THIRTY_DAYS
  {
    if Accepts(s, c, now) && HasRead(steps, n, at + THIRTY_DAYS) {
      var i :| 0 <= i < n && InstantOf(steps[i]).Some? && InstantOf(steps[i]).value >= at + THIRTY_DAYS;
      assert InstantOf(steps[i]).value <= now;
    }
  }

  /**
   * Logged out is logged out: once a logout has swapped, no cookie of its session signed before that instant under the
   * secret then in force is accepted again, at any later world and instant, across logouts and their purges, lifetime
   * changes, other codes and restarts. One signed in the same second is, for one second, thirty days on.
   */
  lemma LoggedOutStaysOut(ws: seq<World>, steps: seq<Step>, m: nat, n: nat, c: Cookie, now: int)
    requires Run(ws, steps) && Onward(steps) && m < n < |ws| && steps[m].Swap?
    requires ws[m].pending.Some? && ws[m].pending.value.change.Logout? && ws[m].pending.value.change.sid == c.sid
    requires ws[m + 1].state.secret == Some(c.secret) && c.signedAt <= ws[m].pending.value.change.at
    requires ReachedBy(steps, n, now)
    ensures var at := ws[m].pending.value.change.at;
            Accepts(ws[n].state, c, now) ==> c.signedAt == at && now == at + THIRTY_DAYS
  {
    hide Takes, Initial, Accepts, Over, Onward, ReachedBy;
    var at := ws[m].pending.value.change.at;
    SwapEnds(ws, steps, m);
    StaysEnded(ws, steps, m + 1, n, c.sid, c.secret, at);
    OverIsRefused(ws[n].state, c, at, now, steps, n);
  }

  /** And one such second there is: signed and logged out at 0, purged by another logout thirty days on. */
  lemma LoggedOutForAllButASecond()
    ensures var s := AuthState(Some(PinHash(0, "123456")), Some(7), Some(8), Some(0), map[], None);
            var out := Applied(s, Logout("a", 0));
            && out.Next? && !Accepts(out.state, Cookie("a", 7, 0), 0)
            && var purged := Applied(out.state, Logout("b", THIRTY_DAYS));
               && purged.Next? && Accepts(purged.state, Cookie("a", 7, 0), THIRTY_DAYS)
               && forall now :: now > THIRTY_DAYS ==> !Accepts(purged.state, Cookie("a", 7, 0), now)
  {
    var s := AuthState(Some(PinHash(0, "123456")), Some(7), Some(8), Some(0), map[], None);
    assert Applied(s, Logout("a", 0)).state.revoked == map["a" := 0];
  }

  // ---- A session left alone ----

  /** A step that begins neither another code nor a logout of this session. */
  predicate Spares(step: Step, sid: string) {
    step.Begin? ==> !step.change.Rotate? && !step.change.Disable? && !(step.change.Logout? && step.change.sid == sid)
  }

  predicate Lives(s: AuthState, sid: string, secret: nat) {
    s.Enabled() && s.secret == Some(secret) && sid !in s.revoked
  }

  predicate LivesOn(w: World, sid: string, secret: nat) {
    && Lives(w.state, sid, secret)
    && (w.pending.Some? ==> Lives(w.pending.value.after, sid, secret))
  }

  lemma LivesStep(w: World, step: Step, w': World, sid: string, secret: nat)
    requires Takes(w, step, w') && Sound(w) && LivesOn(w, sid, secret) && Spares(step, sid)
    ensures LivesOn(w', sid, secret)
  {
    hide Responded, Accepts, RowOf, Sound, WithDraws;
    match step
    case Begin(id, change) => BegunShape(w, id, change, w');
    case Respond(id, own, now) => RespondShape(w, id, own, now);
    case Restart => RowIsEither(w);
    case _ =>
  }

  lemma {:induction false} StaysAlive(ws: seq<World>, steps: seq<Step>, m: nat, n: nat, sid: string, secret: nat)
    requires Run(ws, steps) && m <= n < |ws| && LivesOn(ws[m], sid, secret)
    requires forall k :: m <= k < n ==> Spares(steps[k], sid)
    ensures LivesOn(ws[n], sid, secret)
  {
    hide Takes, LivesOn, Initial, Spares;
    if m < n {
      StaysAlive(ws, steps, m, n - 1, sid, secret);
      RunSound(ws, steps, n - 1);
      LivesStep(ws[n - 1], steps[n - 1], ws[n], sid, secret);
    }
  }

  /**
   * A session neither logged out nor left behind by a new code lasts exactly its lifetime: whatever else the gate does,
   * other sessions' logouts and their purges, refused writes and restarts included.
   */
  lemma SessionLastsItsLifetime(ws: seq<World>, steps: seq<Step>, m: nat, n: nat, c: Cookie, now: int)
    requires Run(ws, steps) && m <= n < |ws| && ws[m].pending.None?
    requires ws[m].state.Enabled() && ws[m].state.secret == Some(c.secret) && c.sid !in ws[m].state.revoked
    requires forall k :: m <= k < n ==> Spares(steps[k], c.sid)
    ensures var lifetime := ws[n].state.sessionSeconds;
            Accepts(ws[n].state, c, now) <==>
              now - c.signedAt
              <= if lifetime.Some? && 0 < lifetime.value < THIRTY_DAYS then lifetime.value else THIRTY_DAYS
  {
    hide Takes, Initial, Spares;
    StaysAlive(ws, steps, m, n, c.sid, c.secret);
  }

  // ---- What a change leaves in force ----

  /** A code is the one that opens the gate, and no other is. */
  predicate Opens(s: AuthState, pin: string) {
    s.Enabled() && s.pinHash.value.pin == pin
  }

  /** The state a change leaves, told by what it opens, accepts and keeps. */
  ghost predicate ChangeTells(s: AuthState, c: Change, s': AuthState) {
    match c
    case Enable(pin, _, secret, token, at) =>
      && !s.Enabled() && Opens(s', pin)
      && s'.secret == Some(secret) && s'.token == Some(token) && s'.tokenAt == Some(at) && s'.revoked == map[]
         && s'.sessionSeconds.None?
    case Rotate(current, pin, _, secret) =>
      && Opens(s, current) && Opens(s', pin) && s'.secret == Some(secret) && s'.revoked == map[]
      && s'.token == s.token && s'.tokenAt == s.tokenAt && s'.sessionSeconds == s.sessionSeconds
    case Disable(current) =>
      && Opens(s, current) && s'.token.None?
      && (forall pin :: !Opens(s', pin)) && forall cookie, now :: !Accepts(s', cookie, now)
    case Regenerate(current, token, at) =>
      Opens(s, current) && s' == s.(token := Some(token), tokenAt := Some(at))
    case Logout(sid, at) =>
      && s.Enabled() && s' == s.(revoked := s'.revoked) && sid in s'.revoked
      && (forall x :: x in s'.revoked ==> x == sid || (x in s.revoked && s'.revoked[x] == s.revoked[x]))
      && forall x :: x in s.revoked && x !in s'.revoked ==> s.revoked[x] <= at - THIRTY_DAYS
    case SetLifetime(_, secret, seconds) =>
      s.Enabled() && s.secret == Some(secret) && s' == s.(sessionSeconds := Some(seconds))
  }

  lemma AppliedTells(s: AuthState, c: Change)
    ensures Applied(s, c).Next? ==> ChangeTells(s, c, Applied(s, c).state)
    ensures Applied(s, c).Wrong? <==>
              (c.Rotate? || c.Disable? || c.Regenerate?) && !Opens(s, c.current)
    ensures Applied(s, c).Same? <==>
              || (c.Enable? && s.Enabled()) || (c.Logout? && !s.Enabled())
              || (c.SetLifetime? && (!s.Enabled() || s.secret != Some(c.secret)))
  {
  }

  predicate Underway(w: World) {
    w.pending.Some? ==> Applied(w.state, w.pending.value.change) == Next(w.pending.value.after)
  }

  lemma UnderwayStep(w: World, step: Step, w': World)
    requires Takes(w, step, w') && Underway(w)
    ensures Underway(w')
  {
    hide Responded, Accepts, RowOf, Applied, WithDraws;
    match step
    case Begin(id, change) => BegunShape(w, id, change, w');
    case Respond(id, sid, now) => RespondShape(w, id, sid, now);
    case _ =>
  }

  lemma {:induction false} RunUnderway(ws: seq<World>, steps: seq<Step>, n: nat)
    requires Run(ws, steps) && n < |ws|
    ensures Underway(ws[n])
  {
    hide Takes, Underway, Initial;
    if n > 0 {
      RunUnderway(ws, steps, n - 1);
      UnderwayStep(ws[n - 1], steps[n - 1], ws[n]);
    } else {
      NothingUnderway(ws[0]);
    }
  }

  lemma NothingUnderway(w: World)
    requires Initial(w)
    ensures Underway(w)
  {
  }

  /**
   * Over every run, a commit that lands turns the very state it finds into what its change says, and the row with it.
   */
  lemma SwapTells(ws: seq<World>, steps: seq<Step>, m: nat)
    requires Run(ws, steps) && m < |steps| && steps[m].Swap?
    ensures ws[m].pending.Some? && ChangeTells(ws[m].state, ws[m].pending.value.change, ws[m + 1].state)
    ensures ReadState(ws[m + 1].row) == ws[m + 1].state
  {
    RunUnderway(ws, steps, m);
    SwappedShape(ws[m], ws[m + 1]);
    AppliedTells(ws[m].state, ws[m].pending.value.change);
    SnapshotIsRow(ws, steps, m + 1);
    hide Takes, Run, Applied, ChangeTells;
  }

  /**
   * Who sets a code, or renews a session under a new lifetime, is answered a cookie that the gate accepts, as long as
   * the state that was set still stands and the session is not a revoked one.
   */
  lemma AnswerSignsIn(w: World, id: nat, sid: string, now: int, w': World)
    requires Sound(w) && Takes(w, Respond(id, sid, now), w')
    requires w.requests[id].phase.after == w.state && w.state.Enabled()
    ensures var c := w.requests[id].phase.change;
            && (c.Rotate? || (c.Enable? && w.state.token == Some(c.token)) ==>
                  exists cookie ::
                    && cookie in w'.cookies && cookie.sid == sid
                    && (sid !in w.state.revoked ==> Accepts(w'.state, cookie, now)))
            && (c.SetLifetime? && w.state.secret == Some(c.secret) && c.sid !in w.state.revoked ==>
                  exists cookie :: cookie in w'.cookies && cookie.sid == c.sid && Accepts(w'.state, cookie, now))
            && w'.state == w.state
  {
    var c := w.requests[id].phase.change;
    assert Rooted(w, w.state);
    if c.Rotate? || (c.Enable? && w.state.token == Some(c.token)) {
      assert Cookie(sid, w.state.secret.value, now) in w'.cookies;
    } else if c.SetLifetime? && w.state.secret == Some(c.secret) && c.sid !in w.state.revoked {
      assert Cookie(c.sid, c.secret, now) in w'.cookies;
    }
    hide RequestOk, Descends;
  }

  // ---- Who may change what ----

  /** The step at which a request came in with a cookie the gate accepted. */
  predicate ArrivedWith(ws: seq<World>, steps: seq<Step>, k: nat, id: nat, sid: string)
    requires |ws| == |steps| + 1
  {
    && k < |steps| && steps[k].Arrive? && steps[k].id == id && steps[k].cookie.Some? && steps[k].cookie.value.sid == sid
    && Accepts(ws[k].state, steps[k].cookie.value, steps[k].now)
  }

  /** Every session a request is known to hold is one it arrived with, under the snapshot it was judged by. */
  ghost predicate Admitted(ws: seq<World>, steps: seq<Step>, n: nat)
    requires |ws| == |steps| + 1 && n < |ws|
  {
    forall id :: id in ws[n].requests && ws[n].requests[id].session.Some? ==>
      exists k: nat :: k < n && ArrivedWith(ws, steps, k, id, ws[n].requests[id].session.value)
                  && ws[n].requests[id].captured == ws[k].state
  }

  lemma StepKeepsSessions(w: World, step: Step, w': World, id: nat)
    requires Takes(w, step, w') && id in w'.requests && w'.requests[id].session.Some?
    requires !(step.Arrive? && step.id == id)
    ensures id in w.requests && w.requests[id].session == w'.requests[id].session
    ensures w.requests[id].captured == w'.requests[id].captured
  {
    hide Responded, Accepts, RowOf, Applied, WithDraws;
    match step
    case Begin(other, change) => BegunShape(w, other, change, w');
    case Respond(other, sid, now) => RespondShape(w, other, sid, now);
    case _ =>
  }

  lemma ArrivedNow(w: World, step: Step, w': World, id: nat)
    requires Takes(w, step, w') && step.Arrive? && step.id == id && id in w'.requests && w'.requests[id].session.Some?
    ensures step.cookie.Some? && step.cookie.value.sid == w'.requests[id].session.value
    ensures Accepts(w.state, step.cookie.value, step.now) && w'.requests[id].captured == w.state
  {
    hide Accepts;
  }

  lemma {:induction false} RunAdmits(ws: seq<World>, steps: seq<Step>, n: nat)
    requires Run(ws, steps) && n < |ws|
    ensures Admitted(ws, steps, n)
  {
    hide Takes, Initial, Accepts;
    if n > 0 {
      RunAdmits(ws, steps, n - 1);
      forall id | id in ws[n].requests && ws[n].requests[id].session.Some?
        ensures exists k: nat :: k < n && ArrivedWith(ws, steps, k, id, ws[n].requests[id].session.value)
                            && ws[n].requests[id].captured == ws[k].state
      {
        if steps[n - 1].Arrive? && steps[n - 1].id == id {
          ArrivedNow(ws[n - 1], steps[n - 1], ws[n], id);
          assert ArrivedWith(ws, steps, n - 1, id, ws[n].requests[id].session.value);
        } else {
          StepKeepsSessions(ws[n - 1], steps[n - 1], ws[n], id);
        }
      }
    } else {
      NobodyYet(ws, steps);
    }
  }

  lemma NobodyYet(ws: seq<World>, steps: seq<Step>)
    requires Run(ws, steps)
    ensures Admitted(ws, steps, 0)
  {
  }

  /**
   * Nobody changes the code, turns it off, renews the token, ends a session or sets its lifetime without having arrived
   * with a cookie accepted under the snapshot then in force; the last two, of the session they name.
   */
  lemma GuardedByASession(ws: seq<World>, steps: seq<Step>, n: nat)
    requires Run(ws, steps) && n < |steps| && steps[n].Begin? && !steps[n].change.Enable?
    ensures exists k: nat, sid ::
              && k < n && ArrivedWith(ws, steps, k, steps[n].id, sid)
              && (steps[n].change.Logout? || steps[n].change.SetLifetime? ==> steps[n].change.sid == sid)
  {
    RunAdmits(ws, steps, n);
    BegunByHolder(ws[n], steps[n], ws[n + 1]);
    hide Takes, Run, ArrivedWith;
  }

  lemma BegunByHolder(w: World, step: Step, w': World)
    requires Takes(w, step, w') && step.Begin? && !step.change.Enable?
    ensures step.id in w.requests && w.requests[step.id].session.Some?
    ensures step.change.Logout? || step.change.SetLifetime? ==> w.requests[step.id].session == Some(step.change.sid)
  {
    hide Begun, Drawn;
  }
}
