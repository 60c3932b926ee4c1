/** The PIN's gate: one immutable snapshot, one stored row, and requests that race the commits. */
module AuthGate {
  import opened Basics
  import Throttle

  /** A salted hash of a code. */
  datatype PinHash = PinHash(salt: nat, pin: string)

  /** One reading of the row. No hash is the code off. Secrets and tokens are named by numbers drawn once. */
  datatype AuthState = AuthState(
    pinHash: Option<PinHash>, secret: Option<nat>, token: Option<nat>, tokenAt: Option<int>,
    revoked: map<string, int>, sessionSeconds: Option<int>)
  {
    predicate Enabled() {
      pinHash.Some?
    }

    function Lifetime(): int {
      Throttle.SessionSeconds(sessionSeconds)
    }
  }

  const OFF := AuthState(None, None, None, None, map[], None)

  // ---- The row ----

  datatype Row = Row(
    pinHash: PinHash, secret: Option<nat>, token: Option<nat>, tokenAt: Option<int>,
    revoked: Option<map<string, int>>, sessionSeconds: Option<int>)

  function ReadState(row: Option<Row>): AuthState {
    if row.None? then OFF
    else
      var r := row.value;
      AuthState(Some(r.pinHash), r.secret, r.token, r.tokenAt, if r.revoked.Some? then r.revoked.value else map[],
                r.sessionSeconds)
  }

  /** What replaces the row: nothing when the code is off. */
  function RowOf(s: AuthState): Option<Row> {
    if s.Enabled()
    then Some(Row(s.pinHash.value, s.secret, s.token, s.tokenAt, Some(s.revoked), s.sessionSeconds))
    else None
  }

  /** A state survives the store exactly when the code is on, or nothing at all is held beside it. */
  lemma RowRoundTrip(s: AuthState)
    ensures ReadState(RowOf(s)) == s <==> s.Enabled() || s == OFF
    ensures ReadState(RowOf(s)).pinHash == s.pinHash
  {
  }

  /** A code set, its secret drawn with it; nothing else held when it is off. */
  predicate WellFormed(s: AuthState) {
    if s.Enabled() then s.secret.Some? && s.token.Some? else s == OFF
  }

  // ---- Credentials ----

  datatype Cookie = Cookie(sid: string, secret: nat, signedAt: int)

  predicate Accepts(s: AuthState, c: Cookie, now: int) {
    && s.Enabled() && s.secret == Some(c.secret)
    && now - c.signedAt <= s.Lifetime()
    && c.sid !in s.revoked
  }

  predicate Verified(pin: string, hash: Option<PinHash>) {
    hash.Some? && hash.value.pin == pin
  }

  // ---- The changes a commit applies to the state it finds ----

  datatype Change =
    | Enable(pin: string, salt: nat, secret: nat, token: nat, at: int)
    | Rotate(current: string, pin: string, salt: nat, secret: nat)
    | Disable(current: string)
    | Regenerate(current: string, token: nat, at: int)
    | Logout(sid: string, at: int)
    | SetLifetime(sid: string, secret: nat, seconds: int)

  /** A wrong current code, nothing to do, or the next state. */
  datatype Outcome = Wrong | Same | Next(state: AuthState)

  const SESSION_SECONDS := 2592000

  function Purged(revoked: map<string, int>, now: int): map<string, int> {
    map sid | sid in revoked && revoked[sid] > now - SESSION_SECONDS :: revoked[sid]
  }

  function Applied(s: AuthState, c: Change): Outcome {
    match c
    case Enable(pin, salt, secret, token, at) =>
      if s.Enabled() then Same
      else Next(AuthState(Some(PinHash(salt, pin)), Some(secret), Some(token), Some(at), map[], None))
    case Rotate(current, pin, salt, secret) =>
      if !Verified(current, s.pinHash) then Wrong
      else Next(s.(pinHash := Some(PinHash(salt, pin)), secret := Some(secret), revoked := map[]))
    case Disable(current) => if !Verified(current, s.pinHash) then Wrong else Next(OFF)
    case Regenerate(current, token, at) =>
      if !Verified(current, s.pinHash) then Wrong else Next(s.(token := Some(token), tokenAt := Some(at)))
    case Logout(sid, at) => if !s.Enabled() then Same else Next(s.(revoked := Purged(s.revoked, at)[sid := at]))
    case SetLifetime(_, secret, seconds) =>
      if !s.Enabled() || s.secret != Some(secret) then Same else Next(s.(sessionSeconds := Some(seconds)))
  }

  predicate SetsCode(c: Change) {
    c.Enable? || c.Rotate?
  }

  /** The gate and its row, when nothing runs beside a commit. */
  class Gate {
    var row: Option<Row>
    var state: AuthState

    predicate Valid()
      reads this
    {
      WellFormed(state) && row == RowOf(state)
    }

    constructor (row: Option<Row>)
      requires WellFormed(ReadState(row)) && (row.Some? ==> row.value.revoked.Some?)
      ensures Valid() && this.row == row
    {
      this.row, state := row, ReadState(row);
    }

    /** Store first, then the snapshot: a write the store refuses changes nothing. */
    method Commit(c: Change, accepted: bool) returns (outcome: Outcome, stored: bool)
      requires Valid()
      modifies this
      ensures Valid()
      ensures outcome == Applied(old(state), c) && stored == (outcome.Next? && accepted)
      ensures stored ==> state == outcome.state && row == RowOf(outcome.state)
      ensures !stored ==> state == old(state) && row == old(row)
    {
      outcome, stored := Applied(state, c), false;
      if outcome.Next? && accepted {
        row := None;
        if outcome.state.Enabled() {
          row := RowOf(outcome.state);
        }
        state, stored := outcome.state, true;
      }
    }
  }

  // ---- Requests and commits, interleaved ----

  datatype Phase = Open | Committing | Answered(change: Change, after: AuthState) | Closed

  /** One request: the snapshot it read on arrival and the session it was found to hold. */
  datatype Request = Request(captured: AuthState, session: Option<string>, phase: Phase)

  datatype Pending = Pending(id: nat, change: Change, after: AuthState, written: bool)

  /** Who was given a session id, and for which code. */
  datatype Grant = Grant(request: nat, hash: PinHash)

  /**
   * The process and its history: `bound` is every secret drawn with the hash it was drawn for, `tokens` every token
   * drawn, `proofs` the requests that proved or set a code, `grants` the session ids given out.
   */
  datatype World = World(
    state: AuthState, row: Option<Row>, pending: Option<Pending>, requests: map<nat, Request>, cookies: set<Cookie>,
    bound: map<nat, PinHash>, tokens: set<nat>, proofs: set<Grant>, grants: map<string, Grant>)

  datatype Step =
    | Arrive(id: nat, cookie: Option<Cookie>, now: int)
    | Resign(shown: Cookie, now: int)
    | SignIn(id: nat, pin: string, sid: string, now: int)
    | Begin(id: nat, change: Change)
    | Write
    | Refuse
    | Swap
    | Respond(id: nat, sid: string, now: int)
    | Restart

  function InPhase(w: World, id: nat, phase: Phase): World
    requires id in w.requests
  {
    w.(requests := w.requests[id := w.requests[id].(phase := phase)])
  }

  /** A fresh session id, given to a request for a code and signed with a secret. */
  function Granted(w: World, id: nat, hash: PinHash, sid: string, secret: nat, now: int): World {
    w.(cookies := w.cookies + {Cookie(sid, secret, now)}, grants := w.grants[sid := Grant(id, hash)])
  }

  /** What a route asks of the snapshot its request arrived with. */
  predicate MayBegin(r: Request, c: Change) {
    match c
    case Enable(_, _, _, _, _) => true
    case Logout(sid, _) => r.session == Some(sid)
    case SetLifetime(sid, secret, seconds) => r.session == Some(sid) && r.captured.secret == Some(secret) && seconds > 0
    case _ => r.captured.Enabled() && r.session.Some?
  }

  /** What a change draws is drawn for the first time. */
  predicate Drawn(w: World, c: Change) {
    match c
    case Enable(_, _, secret, token, _) => secret !in w.bound && token !in w.tokens
    case Rotate(_, _, _, secret) => secret !in w.bound
    case Regenerate(_, token, _) => token !in w.tokens
    case _ => true
  }

  function WithDraws(w: World, c: Change): World {
    match c
    case Enable(pin, salt, secret, token, _) =>
      w.(bound := w.bound[secret := PinHash(salt, pin)], tokens := w.tokens + {token})
    case Rotate(_, pin, salt, secret) => w.(bound := w.bound[secret := PinHash(salt, pin)])
    case Regenerate(_, token, _) => w.(tokens := w.tokens + {token})
    case _ => w
  }

  function Begun(w: World, id: nat, c: Change): World
    requires id in w.requests
  {
    var v := WithDraws(w, c);
    match Applied(w.state, c)
    case Wrong => InPhase(v, id, Closed)
    case Same => InPhase(v, id, Answered(c, w.state))
    case Next(after) => InPhase(v.(pending := Some(Pending(id, c, after, false))), id, Committing)
  }

  function Swapped(w: World): World
    requires w.pending.Some? && w.pending.value.id in w.requests
  {
    var p := w.pending.value;
    var v := InPhase(w.(state := p.after, pending := None), p.id, Answered(p.change, p.after));
    if SetsCode(p.change) && p.after.pinHash.Some?
    then v.(proofs := v.proofs + {Grant(p.id, p.after.pinHash.value)})
    else v
  }

  /** The answer to a committed change: a fresh session for a code just set, the same one under a new lifetime. */
  function Responded(w: World, id: nat, sid: string, now: int): World
    requires id in w.requests && w.requests[id].phase.Answered?
  {
    var r := w.requests[id];
    var after := r.phase.after;
    var v := InPhase(w, id, Closed);
    if after.pinHash.None? || after.secret.None? then v
    else
      match r.phase.change
      case Enable(_, _, _, token, _) =>
        if after.token == Some(token) then Granted(v, id, after.pinHash.value, sid, after.secret.value, now) else v
      case Rotate(_, _, _, _) => Granted(v, id, after.pinHash.value, sid, after.secret.value, now)
      case SetLifetime(own, secret, _) =>
        if after.secret == Some(secret) && own !in after.revoked
        then v.(cookies := v.cookies + {Cookie(own, secret, now)}) else v
      case _ => v
  }

  /**
   * A new process on the same row: the snapshot is read back, and what was under way is over. Issued cookies are not.
   */
  function Restarted(w: World): World {
    w.(state := ReadState(w.row), pending := None,
       requests := map id | id in w.requests :: w.requests[id].(phase := Closed))
  }

  predicate Takes(w: World, step: Step, w': World) {
    match step
    case Arrive(id, cookie, now) =>
      && id !in w.requests && (cookie.Some? ==> cookie.value in w.cookies)
      && w' == w.(requests := w.requests[id := Request(w.state,
                  if cookie.Some? && Accepts(w.state, cookie.value, now) then Some(cookie.value.sid) else None, Open)])
    case Resign(shown, now) =>
      shown in w.cookies && Accepts(w.state, shown, now) && w' == w.(cookies := w.cookies + {shown.(signedAt := now)})
    case SignIn(id, pin, sid, now) =>
      && id in w.requests && w.requests[id].phase.Open? && sid !in w.grants
      && var s := w.requests[id].captured;
         Verified(pin, s.pinHash) && s.secret.Some?
         && w' == Granted(InPhase(w, id, Closed), id, s.pinHash.value, sid, s.secret.value, now)
                  .(proofs := w.proofs + {Grant(id, s.pinHash.value)})
    case Begin(id, change) =>
      && w.pending.None? && id in w.requests && w.requests[id].phase.Open? && MayBegin(w.requests[id], change)
      && Drawn(w, change) && w' == Begun(w, id, change)
    case Write =>
      && w.pending.Some? && !w.pending.value.written
      && w' == w.(row := RowOf(w.pending.value.after), pending := Some(w.pending.value.(written := true)))
    case Refuse =>
      && w.pending.Some? && !w.pending.value.written && w.pending.value.id in w.requests
      && w' == InPhase(w.(pending := None), w.pending.value.id, Closed)
    case Swap =>
      w.pending.Some? && w.pending.value.written && w.pending.value.id in w.requests && w' == Swapped(w)
    case Respond(id, sid, now) =>
      id in w.requests && w.requests[id].phase.Answered? && sid !in w.grants && w' == Responded(w, id, sid, now)
    case Restart => w' == Restarted(w)
  }

  // ---- What every step keeps ----

  /** A state in use anywhere: its secret and its token were drawn, the secret for its own code. */
  predicate Rooted(w: World, s: AuthState) {
    && WellFormed(s)
    && (s.Enabled() ==>
          && s.secret.value in w.bound && w.bound[s.secret.value] == s.pinHash.value
          && s.token.value in w.tokens)
  }

  /** A session id under a secret: given out for that secret's code, to a request that proved or set it. */
  predicate Descends(w: World, sid: string, secret: nat) {
    && secret in w.bound && sid in w.grants
    && w.grants[sid].hash == w.bound[secret] && w.grants[sid] in w.proofs
  }

  predicate RequestOk(w: World, id: nat, r: Request) {
    && Rooted(w, r.captured)
    && (r.session.Some? ==> r.captured.Enabled() && Descends(w, r.session.value, r.captured.secret.value))
    && (r.phase.Answered? ==> AnswerOk(w, id, r, r.phase.change, r.phase.after))
    && (r.phase.Committing? ==> w.pending.Some? && w.pending.value.id == id)
  }

  predicate AnswerOk(w: World, id: nat, r: Request, c: Change, after: AuthState) {
    && Rooted(w, after)
    && (c.Enable? && after.token == Some(c.token) && after.Enabled() ==> Grant(id, after.pinHash.value) in w.proofs)
    && (c.Rotate? ==> after.Enabled() && Grant(id, after.pinHash.value) in w.proofs)
    && (c.SetLifetime? ==> Descends(w, c.sid, c.secret))
  }

  predicate PendingOk(w: World, p: Pending) {
    && p.id in w.requests && w.requests[p.id].phase.Committing? && Rooted(w, p.after)
    && (SetsCode(p.change) ==> p.after.Enabled())
    && (p.change.SetLifetime? ==> Descends(w, p.change.sid, p.change.secret))
    && w.row == RowOf(if p.written then p.after else w.state)
  }

  predicate Sound(w: World) {
    && Rooted(w, w.state)
    && (if w.pending.Some? then PendingOk(w, w.pending.value) else w.row == RowOf(w.state))
    && (forall id :: id in w.requests ==> RequestOk(w, id, w.requests[id]))
    && forall c :: c in w.cookies ==> Descends(w, c.sid, c.secret)
  }

  /** History only grows, and nothing in it is rewritten. */
  predicate Extends(w: World, w': World) {
    && w.tokens <= w'.tokens && w.proofs <= w'.proofs
    && (forall k :: k in w.bound ==> k in w'.bound && w'.bound[k] == w.bound[k])
    && forall sid :: sid in w.grants ==> sid in w'.grants && w'.grants[sid] == w.grants[sid]
  }

  lemma BeginExtends(w: World, id: nat, c: Change)
    requires id in w.requests && Drawn(w, c)
    ensures Extends(w, Begun(w, id, c))
  {
    hide Applied;
  }

  /** What an answer changes: its request, perhaps one cookie, perhaps one session id. */
  predicate AnswerShape(w: World, id: nat, sid: string, w': World)
    requires id in w.requests
  {
    && w' == w.(requests := w.requests[id := w.requests[id].(phase := Closed)],
                cookies := w'.cookies, grants := w'.grants)
    && (w'.grants == w.grants || (sid in w'.grants && w'.grants == w.grants[sid := w'.grants[sid]]))
  }

  lemma RespondShape(w: World, id: nat, sid: string, now: int)
    requires id in w.requests && w.requests[id].phase.Answered? && sid !in w.grants
    ensures AnswerShape(w, id, sid, Responded(w, id, sid, now)) && Extends(w, Responded(w, id, sid, now))
  {
  }

  lemma StepExtends(w: World, step: Step, w': World)
    requires Takes(w, step, w')
    ensures Extends(w, w')
  {
    hide Begun, Responded, Accepts, RowOf;
    match step
    case Begin(id, c) => BeginExtends(w, id, c);
    case Respond(id, sid, now) => RespondShape(w, id, sid, now);
    case _ =>
  }

  /** What a step that touches one request owes to the rest. */
  lemma Frame(w: World, w': World, id: nat)
    requires Sound(w) && Extends(w, w')
    requires forall i :: i in w'.requests && i != id ==> i in w.requests && w'.requests[i] == w.requests[i]
    requires w.pending.Some? && w.pending.value.id != id ==>
               w'.pending.Some? && w'.pending.value.id == w.pending.value.id
    ensures forall i :: i in w'.requests && i != id ==> RequestOk(w', i, w'.requests[i])
    ensures forall c :: c in w.cookies ==> Descends(w', c.sid, c.secret)
    ensures forall s :: Rooted(w, s) ==> Rooted(w', s)
    ensures forall sid, secret :: Descends(w, sid, secret) ==> Descends(w', sid, secret)
  {
    hide WellFormed;
    forall i | i in w'.requests && i != id ensures RequestOk(w', i, w'.requests[i]) {
      assert RequestOk(w, i, w.requests[i]);
    }
  }

  lemma ArriveSound(w: World, id: nat, cookie: Option<Cookie>, now: int, w': World)
    requires Sound(w) && Takes(w, Arrive(id, cookie, now), w')
    ensures Sound(w')
  {
    hide WellFormed;
    Frame(w, w', id);
  }

  lemma ResignSound(w: World, shown: Cookie, now: int, w': World)
    requires Sound(w) && Takes(w, Resign(shown, now), w')
    ensures Sound(w')
  {
    hide WellFormed;
    assert Descends(w', shown.sid, shown.secret);
    forall id | id in w'.requests ensures RequestOk(w', id, w'.requests[id]) {
      assert RequestOk(w, id, w.requests[id]);
    }
  }

  lemma SignInSound(w: World, id: nat, pin: string, sid: string, now: int, w': World)
    requires Sound(w) && Takes(w, SignIn(id, pin, sid, now), w')
    ensures Sound(w')
  {
    StepExtends(w, SignIn(id, pin, sid, now), w');
    assert RequestOk(w, id, w.requests[id]);
    Frame(w, w', id);
    var s := w.requests[id].captured;
    assert Descends(w', sid, s.secret.value);
  }

  /** The next state of a change is rooted once what it drew is recorded. */
  lemma AppliedRooted(w: World, c: Change)
    requires Rooted(w, w.state) && Drawn(w, c)
    ensures var o, v := Applied(w.state, c), WithDraws(w, c);
            && Rooted(v, w.state)
            && (o.Next? ==> Rooted(v, o.state) && (SetsCode(c) ==> o.state.Enabled()))
            && (o.Same? && c.Enable? ==> w.state.token != Some(c.token))
            && (o.Same? ==> !c.Rotate?)
  {
  }

  lemma BeginSound(w: World, id: nat, change: Change, w': World)
    requires Sound(w) && Takes(w, Begin(id, change), w')
    ensures Sound(w')
  {
    StepExtends(w, Begin(id, change), w');
    AppliedRooted(w, change);
    BeginRooted(w, id, change, w');
  }

  lemma BeginRooted(w: World, id: nat, change: Change, w': World)
    requires Sound(w) && Takes(w, Begin(id, change), w') && Extends(w, w')
    requires var o, v := Applied(w.state, change), WithDraws(w, change);
             && Rooted(v, w.state)
             && (o.Next? ==> Rooted(v, o.state) && (SetsCode(change) ==> o.state.Enabled()))
             && (o.Same? && change.Enable? ==> w.state.token != Some(change.token))
             && (o.Same? ==> !change.Rotate?)
    ensures Sound(w')
  {
    BegunShape(w, id, change, w');
    hide Applied, RowOf, WellFormed, Drawn, Descends, Takes, Begun, WithDraws;
    Frame(w, w', id);
    BegunRequest(w, id, change, w');
    AllRequests(w', id);
    hide RequestOk;
  }

  /** What a beginning changes: what was drawn, its own request, and the commit it may put under way. */
  lemma BegunShape(w: World, id: nat, change: Change, w': World)
    requires Takes(w, Begin(id, change), w')
    ensures id in w.requests && w.pending.None?
    ensures w' == w.(requests := w'.requests, pending := w'.pending, bound := w'.bound, tokens := w'.tokens)
    ensures id in w'.requests && w'.requests == w.requests[id := w.requests[id].(phase := w'.requests[id].phase)]
    ensures w'.bound == WithDraws(w, change).bound && w'.tokens == WithDraws(w, change).tokens
    ensures var o := Applied(w.state, change);
            && w'.pending == (if o.Next? then Some(Pending(id, change, o.state, false)) else None)
            && (w'.requests[id].phase.Committing? <==> o.Next?)
  {
    hide Applied, Drawn, MayBegin;
  }

  lemma BegunRequest(w: World, id: nat, change: Change, w': World)
    requires Sound(w) && Takes(w, Begin(id, change), w')
    requires forall s :: Rooted(w, s) ==> Rooted(w', s)
    requires forall sid, secret :: Descends(w, sid, secret) ==> Descends(w', sid, secret)
    requires var o := Applied(w.state, change);
             (o.Same? && change.Enable? ==> w.state.token != Some(change.token)) && (o.Same? ==> !change.Rotate?)
    ensures id in w'.requests && RequestOk(w', id, w'.requests[id])
    ensures change.SetLifetime? ==> Descends(w', change.sid, change.secret)
  {
    hide Applied, Descends, RowOf, WellFormed, Drawn;
    assert RequestOk(w, id, w.requests[id]);
    assert change.SetLifetime? ==> Descends(w, change.sid, change.secret);
  }

  lemma WriteSound(w: World, w': World)
    requires Sound(w) && Takes(w, Write, w')
    ensures Sound(w')
  {
    hide RowOf, WellFormed;
    forall id | id in w'.requests ensures RequestOk(w', id, w'.requests[id]) {
      assert RequestOk(w, id, w.requests[id]);
    }
  }

  lemma RefuseSound(w: World, w': World)
    requires Sound(w) && Takes(w, Refuse, w')
    ensures Sound(w')
  {
    hide RowOf, WellFormed;
    var id := w.pending.value.id;
    assert RequestOk(w, id, w.requests[id]);
    Frame(w, w', id);
  }

  lemma SwapSound(w: World, w': World)
    requires Sound(w) && Takes(w, Swap, w')
    ensures Sound(w')
  {
    hide RowOf, WellFormed, Descends;
    StepExtends(w, Swap, w');
    SwappedShape(w, w');
    var p := w.pending.value;
    assert RequestOk(w, p.id, w.requests[p.id]);
    hide Takes, Swapped;
    Frame(w, w', p.id);
    assert RequestOk(w', p.id, w'.requests[p.id]);
    AllRequests(w', p.id);
    hide RequestOk;
  }

  /** What a swap changes: the snapshot, its own request, and the proof that goes with a code just set. */
  lemma SwappedShape(w: World, w': World)
    requires Takes(w, Swap, w')
    ensures w.pending.Some? && w.pending.value.written && w.pending.value.id in w.requests
    ensures w' == w.(state := w.pending.value.after, pending := None, requests := w'.requests, proofs := w'.proofs)
    ensures var p := w.pending.value;
            && w'.requests == w.requests[p.id := w.requests[p.id].(phase := Answered(p.change, p.after))]
            && (SetsCode(p.change) && p.after.pinHash.Some? ==> Grant(p.id, p.after.pinHash.value) in w'.proofs)
  {
  }

  lemma AllRequests(w: World, id: nat)
    requires id in w.requests ==> RequestOk(w, id, w.requests[id])
    requires forall i :: i in w.requests && i != id ==> RequestOk(w, i, w.requests[i])
    ensures forall i :: i in w.requests ==> RequestOk(w, i, w.requests[i])
  {
    hide RequestOk;
  }

  lemma RespondSound(w: World, id: nat, sid: string, now: int, w': World)
    requires Sound(w) && Takes(w, Respond(id, sid, now), w')
    ensures Sound(w')
  {
    hide Responded, RowOf, WellFormed, Descends;
    RespondShape(w, id, sid, now);
    assert RequestOk(w, id, w.requests[id]);
    Frame(w, w', id);
    forall c | c in w'.cookies ensures Descends(w', c.sid, c.secret) {
      if c !in w.cookies {
        RespondedCookie(w, id, sid, now, c);
      }
    }
    assert w'.pending == w.pending && w'.row == w.row && w'.state == w.state;
  }

  /** A cookie an answer sets descends from the code it was just set for, or from the session it renews. */
  lemma RespondedCookie(w: World, id: nat, sid: string, now: int, c: Cookie)
    requires Sound(w) && id in w.requests && w.requests[id].phase.Answered? && sid !in w.grants
    requires c in Responded(w, id, sid, now).cookies && c !in w.cookies
    ensures Descends(Responded(w, id, sid, now), c.sid, c.secret)
  {
    assert RequestOk(w, id, w.requests[id]);
  }

  /** Whatever was under way, the row is a rooted state, and the process starts on it. */
  lemma RestartSound(w: World, w': World)
    requires Sound(w) && Takes(w, Restart, w')
    ensures Sound(w')
  {
    var held := if w.pending.Some? && w.pending.value.written then w.pending.value.after else w.state;
    RowRoundTrip(held);
    forall id | id in w'.requests ensures RequestOk(w', id, w'.requests[id]) {
      assert RequestOk(w, id, w.requests[id]);
    }
  }

  lemma StepSound(w: World, step: Step, w': World)
    requires Sound(w) && Takes(w, step, w')
    ensures Sound(w')
  {
    hide Sound, Takes;
    match step
    case Arrive(id, cookie, now) => ArriveSound(w, id, cookie, now, w');
    case Resign(shown, now) => ResignSound(w, shown, now, w');
    case SignIn(id, pin, sid, now) => SignInSound(w, id, pin, sid, now, w');
    case Begin(id, change) => BeginSound(w, id, change, w');
    case Write => WriteSound(w, w');
    case Refuse => RefuseSound(w, w');
    case Swap => SwapSound(w, w');
    case Respond(id, sid, now) => RespondSound(w, id, sid, now, w');
    case Restart => RestartSound(w, w');
  }

  // ---- Whole runs ----

  /**
   * Where the history opens, before any cookie is signed: the snapshot is the stored row, and what it holds was drawn.
   */
  predicate Initial(w: World) {
    && w.state == ReadState(w.row) && w.row == RowOf(w.state) && Rooted(w, w.state)
    && w.pending.None? && w.requests == map[] && w.cookies == {} && w.proofs == {} && w.grants == map[]
  }

  predicate Run(ws: seq<World>, steps: seq<Step>) {
    && |ws| == |steps| + 1 && Initial(ws[0])
    && forall i :: 0 <= i < |steps| ==> Takes(ws[i], steps[i], ws[i + 1])
  }

  lemma {:induction false} RunSound(ws: seq<World>, steps: seq<Step>, n: nat)
    requires Run(ws, steps) && n < |ws|
    ensures Sound(ws[n])
  {
    hide Takes, Rooted;
    if n > 0 {
      RunSound(ws, steps, n - 1);
      StepSound(ws[n - 1], steps[n - 1], ws[n]);
    }
  }

  lemma {:induction false} RunExtends(ws: seq<World>, steps: seq<Step>, m: nat, n: nat)
    requires Run(ws, steps) && m <= n < |ws|
    ensures Extends(ws[m], ws[n])
  {
    hide Takes, Initial;
    if m < n {
      RunExtends(ws, steps, m, n - 1);
      StepExtends(ws[n - 1], steps[n - 1], ws[n]);
    }
  }

  /** A session secret goes with one code's hash for its whole life, at any two moments of any run. */
  lemma OneSecretOneCode(ws: seq<World>, steps: seq<Step>, m: nat, n: nat)
    requires Run(ws, steps) && m <= n < |ws|
    requires ws[m].state.Enabled() && ws[n].state.Enabled() && ws[m].state.secret == ws[n].state.secret
    ensures ws[m].state.pinHash == ws[n].state.pinHash
  {
    hide Takes, Run;
    RunSound(ws, steps, m);
    RunSound(ws, steps, n);
    RunExtends(ws, steps, m, n);
  }

  /** Outside a commit, and until its write lands, the snapshot is the stored row: a restart reads it back whole. */
  lemma SnapshotIsRow(ws: seq<World>, steps: seq<Step>, n: nat)
    requires Run(ws, steps) && n < |ws|
    requires ws[n].pending.Some? ==> !ws[n].pending.value.written
    ensures ws[n].row == RowOf(ws[n].state) && ReadState(ws[n].row) == ws[n].state
  {
    hide Takes, Run;
    RunSound(ws, steps, n);
    RowRoundTrip(ws[n].state);
  }

  /** Neither a verdict on the pending commit nor a restart. */
  predicate Undecided(steps: seq<Step>, m: nat, n: nat)
    requires n <= |steps|
  {
    forall k :: m < k < n ==> !steps[k].Refuse? && !steps[k].Swap? && !steps[k].Restart?
  }

  /** A commit under way holds the lock: nothing else moves the snapshot, and the row moves with its own write alone. */
  predicate Held(w: World, w': World, id: nat, change: Change) {
    && w'.pending.Some? && w'.pending.value.id == id && w'.pending.value.change == change
    && w'.state == w.state && (!w'.pending.value.written ==> w'.row == w.row)
    && id in w'.requests && w'.requests[id].phase.Committing?
  }

  lemma HeldStep(w: World, v: World, step: Step, v': World, id: nat, change: Change)
    requires Held(w, v, id, change) && Takes(v, step, v') && !step.Refuse? && !step.Swap? && !step.Restart?
    ensures Held(w, v', id, change)
  {
    hide Begun, Responded, Accepts, RowOf;
    match step
    case Respond(other, sid, now) => RespondShape(v, other, sid, now);
    case _ =>
  }

  lemma {:induction false} HoldsTheLock(ws: seq<World>, steps: seq<Step>, m: nat, n: nat)
    requires Run(ws, steps) && m < n < |ws| && Undecided(steps, m, n)
    requires steps[m].Begin? && ws[m + 1].pending.Some?
    ensures Held(ws[m], ws[n], steps[m].id, steps[m].change)
  {
    hide Initial, Held;
    if n == m + 1 {
      BegunHolds(ws[m], steps[m].id, steps[m].change, ws[n]);
    } else {
      HoldsTheLock(ws, steps, m, n - 1);
      HeldStep(ws[m], ws[n - 1], steps[n - 1], ws[n], steps[m].id, steps[m].change);
    }
  }

  lemma BegunHolds(w: World, id: nat, change: Change, w': World)
    requires Takes(w, Begin(id, change), w') && w'.pending.Some?
    ensures Held(w, w', id, change)
  {
    hide Applied;
  }

  /** The cookies one step signs. */
  function SignedBy(w: World, w': World): set<Cookie> {
    w'.cookies - w.cookies
  }

  /** Who signs: a sign-in, an answer, or a renewal. */
  lemma SignersSign(w: World, step: Step, w': World)
    requires Takes(w, step, w') && SignedBy(w, w') != {}
    ensures step.SignIn? || step.Resign? || step.Respond?
    ensures step.SignIn? || step.Respond? ==> step.id in w.requests && !w.requests[step.id].phase.Committing?
  {
    hide Applied, Accepts;
  }

  /** The k-th step, of another request than the one committing since the m-th, signed that cookie. */
  predicate SignedAt(ws: seq<World>, steps: seq<Step>, m: nat, k: nat, c: Cookie)
    requires m < |steps| && steps[m].Begin? && |ws| == |steps| + 1
  {
    && m < k < |steps| && c in SignedBy(ws[k], ws[k + 1])
    && (steps[k].SignIn? || steps[k].Resign? || steps[k].Respond?)
    && (steps[k].SignIn? || steps[k].Respond? ==> steps[k].id != steps[m].id)
  }

  predicate SignedMeanwhile(ws: seq<World>, steps: seq<Step>, m: nat, n: nat, c: Cookie)
    requires m < |steps| && steps[m].Begin? && |ws| == |steps| + 1
  {
    exists k: nat :: k < n && SignedAt(ws, steps, m, k, c)
  }

  lemma {:induction false} SignedSome(ws: seq<World>, steps: seq<Step>, m: nat, n: nat, c: Cookie)
    requires Run(ws, steps) && m < n <= |steps| && Undecided(steps, m, n)
    requires steps[m].Begin? && ws[m + 1].pending.Some?
    requires c in ws[n].cookies && c !in ws[m].cookies
    ensures SignedMeanwhile(ws, steps, m, n, c)
  {
    hide Takes, Initial, SignedAt;
    if c in ws[n - 1].cookies {
      SignedSome(ws, steps, m, n - 1, c);
    } else {
      SignedNow(ws, steps, m, n - 1, c);
    }
  }

  lemma SignedNow(ws: seq<World>, steps: seq<Step>, m: nat, k: nat, c: Cookie)
    requires Run(ws, steps) && m <= k < |steps| && Undecided(steps, m, k)
    requires steps[m].Begin? && ws[m + 1].pending.Some? && c in SignedBy(ws[k], ws[k + 1])
    ensures SignedAt(ws, steps, m, k, c)
  {
    hide Takes, Initial;
    SignersSign(ws[k], steps[k], ws[k + 1]);
    HoldsTheLock(ws, steps, m, k);
  }

  lemma RefusalSigns(w: World, w': World)
    requires Takes(w, Refuse, w')
    ensures w'.cookies == w.cookies && w'.state == w.state && w'.row == w.row
    ensures w'.pending.None? && !w.pending.value.written
  {
  }

  /**
   * A refused write, however long it took and whatever ran beside it: the snapshot and the row are those its commit
   * found, and every cookie signed meanwhile was signed by a step of another request.
   */
  lemma RefusedWriteChangesNothing(ws: seq<World>, steps: seq<Step>, m: nat, n: nat)
    requires Run(ws, steps) && m < n < |steps| && Undecided(steps, m, n)
    requires steps[m].Begin? && ws[m + 1].pending.Some? && steps[n].Refuse?
    ensures ws[n + 1].state == ws[m].state && ws[n + 1].row == ws[m].row && ws[n + 1].pending.None?
    ensures forall c :: c in ws[n + 1].cookies ==> c in ws[m].cookies || SignedMeanwhile(ws, steps, m, n, c)
  {
    hide Takes, Initial, SignedMeanwhile;
    HoldsTheLock(ws, steps, m, n);
    RefusalSigns(ws[n], ws[n + 1]);
    forall c | c in ws[n + 1].cookies && c !in ws[m].cookies ensures SignedMeanwhile(ws, steps, m, n, c) {
      SignedSome(ws, steps, m, n, c);
    }
  }

  /** The step at which a request proved the code of a hash, or set it. */
  predicate Proves(w: World, step: Step, g: Grant) {
    match step
    case SignIn(id, pin, _, _) =>
      g.request == id && id in w.requests && Verified(pin, w.requests[id].captured.pinHash)
      && w.requests[id].captured.pinHash == Some(g.hash)
    case Swap =>
      && w.pending.Some? && w.pending.value.id == g.request && SetsCode(w.pending.value.change)
      && w.pending.value.after.pinHash == Some(g.hash)
    case _ => false
  }

  lemma NewProof(w: World, step: Step, w': World, g: Grant)
    requires Takes(w, step, w') && g in w'.proofs && g !in w.proofs
    ensures Proves(w, step, g)
  {
    hide Applied, Accepts;
  }

  lemma {:induction false} ProofsAreReal(ws: seq<World>, steps: seq<Step>, n: nat, g: Grant) returns (m: nat)
    requires Run(ws, steps) && n < |ws| && g in ws[n].proofs
    ensures m < n && Proves(ws[m], steps[m], g)
  {
    hide Takes;
    if g in ws[n - 1].proofs {
      m := ProofsAreReal(ws, steps, n - 1, g);
    } else {
      m := n - 1;
      NewProof(ws[m], steps[m], ws[n], g);
    }
  }

  /** Every cookie the gate accepts descends from a proof or a setting of the very code it stands for. */
  lemma AcceptedCookieDescends(ws: seq<World>, steps: seq<Step>, n: nat, c: Cookie, now: int) returns (m: nat)
    requires Run(ws, steps) && n < |ws|
    requires c in ws[n].cookies && Accepts(ws[n].state, c, now)
    ensures c.sid in ws[n].grants && m < n
    ensures Proves(ws[m], steps[m], ws[n].grants[c.sid]) && Some(ws[n].grants[c.sid].hash) == ws[n].state.pinHash
  {
    hide Takes, Run;
    RunSound(ws, steps, n);
    assert Descends(ws[n], c.sid, c.secret);
    m := ProofsAreReal(ws, steps, n, ws[n].grants[c.sid]);
  }

  /** Under another code, a cookie once accepted no longer is, however late it is shown. */
  lemma OldCookiesDie(ws: seq<World>, steps: seq<Step>, m: nat, n: nat, c: Cookie, before: int, now: int)
    requires Run(ws, steps) && m <= n < |ws|
    requires Accepts(ws[m].state, c, before) && ws[n].state.pinHash != ws[m].state.pinHash
    ensures !Accepts(ws[n].state, c, now)
  {
    hide Takes, Run;
    if Accepts(ws[n].state, c, now) {
      OneSecretOneCode(ws, steps, m, n);
      assert false;
    }
  }
}
