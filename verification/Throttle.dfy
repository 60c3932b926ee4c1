/** The attempt throttle of the PIN: a wait that doubles per address, and a pace for everyone past sixty failures. */
module Throttle {
  import opened Basics

  const FREE_ATTEMPTS: nat := 5
  const FIRST_WAIT := 30.0
  const LONGEST_WAIT := 900.0
  const GLOBAL_FAILURES: nat := 60
  const GLOBAL_WINDOW := 3600.0
  const GLOBAL_PACE := 60.0

  datatype Admission = Admission(admitted: bool, retryAfter: int, remaining: int)

  datatype Address = Address(attempts: nat, openAt: real)

  const NEW_ADDRESS := Address(0, 0.0)

  datatype State = State(addresses: map<string, Address>, failures: seq<real>, globalOpenAt: real)

  // ---- A wait in whole seconds ----

  /** Truncation toward zero. */
  function Truncated(x: real): int {
    if x >= 0.0 then x.Floor else -(-x).Floor
  }

  function Seconds(delta: real): int {
    var whole := Truncated(delta);
    var up := whole + (if delta > whole as real then 1 else 0);
    if up > 0 then up else 0
  }

  /** The stated wait is the least whole number of seconds that is long enough. */
  lemma SecondsIsLeast(delta: real, n: nat)
    ensures Seconds(delta) >= 0 && Seconds(delta) as real >= delta
    ensures n as real >= delta ==> n >= Seconds(delta)
  {
  }

  // ---- One attempt ----

  /** The wait that follows an address's n-th attempt. */
  function WaitAfter(attempts: nat): real
    requires attempts >= FREE_ATTEMPTS
  {
    var wait := FIRST_WAIT * Doubled(attempts - FREE_ATTEMPTS) as real;
    if wait < LONGEST_WAIT then wait else LONGEST_WAIT
  }

  function AddressOf(s: State, ip: string): Address {
    if ip in s.addresses then s.addresses[ip] else NEW_ADDRESS
  }

  /** The failures still inside the window. */
  function Recent(failures: seq<real>, now: real): (r: seq<real>)
    ensures |r| <= |failures| && r == failures[|failures| - |r|..]
  {
    if failures != [] && failures[0] <= now - GLOBAL_WINDOW then Recent(failures[1..], now) else failures
  }

  function Attempted(a: Address, now: real): Address {
    var attempts := a.attempts + 1;
    Address(attempts, if attempts >= FREE_ATTEMPTS then now + WaitAfter(attempts) else a.openAt)
  }

  function Entered(s: State, ip: string, now: real): (State, Admission) {
    var a := AddressOf(s, ip);
    var addresses := s.addresses[ip := a];
    if now < a.openAt then (s.(addresses := addresses), Admission(false, Seconds(a.openAt - now), 0))
    else
      var failures := Recent(s.failures, now);
      var busy := |failures| >= GLOBAL_FAILURES;
      if busy && now < s.globalOpenAt then
        (State(addresses, failures, s.globalOpenAt), Admission(false, Seconds(s.globalOpenAt - now), 0))
      else
        var b := Attempted(a, now);
        (State(addresses[ip := b], failures + [now], if busy then now + GLOBAL_PACE else s.globalOpenAt),
         Admission(true, 0, if b.attempts < FREE_ATTEMPTS then FREE_ATTEMPTS - b.attempts else 0))
  }

  /** So many whole seconds on, with nothing in between, an address would still be refused for its own wait. */
  predicate HeldBackAfter(s: State, ip: string, now: real, k: nat) {
    ip in s.addresses && now + k as real < s.addresses[ip].openAt
  }

  /** The three outcomes of an attempt. */
  lemma EnteredCases(s: State, ip: string, now: real)
    ensures var a, recent := AddressOf(s, ip), Recent(s.failures, now);
            var addresses, busy := s.addresses[ip := a], |recent| >= GLOBAL_FAILURES;
            Entered(s, ip, now) ==
            if now < a.openAt then (State(addresses, s.failures, s.globalOpenAt),
                                    Admission(false, Seconds(a.openAt - now), 0))
            else if busy && now < s.globalOpenAt then
              (State(addresses, recent, s.globalOpenAt), Admission(false, Seconds(s.globalOpenAt - now), 0))
            else
              (State(addresses[ip := Attempted(a, now)], recent + [now],
                     if busy then now + GLOBAL_PACE else s.globalOpenAt),
               Admission(true, 0,
                         if Attempted(a, now).attempts < FREE_ATTEMPTS then FREE_ATTEMPTS - Attempted(a, now).attempts
                         else 0))
  {
    hide WaitAfter, Seconds, Recent;
  }

  function Cleared(s: State, ip: string): State {
    State(s.addresses - {ip}, if s.failures == [] then [] else s.failures[..|s.failures| - 1], s.globalOpenAt)
  }

  const NEW := State(map[], [], 0.0)

  /** The throttle; the clock is read by its callers. */
  class Throttle {
    var addresses: map<string, Address>
    var failures: seq<real>
    var globalOpenAt: real

    function Value(): State
      reads this
    {
      State(addresses, failures, globalOpenAt)
    }

    constructor ()
      ensures Value() == NEW
    {
      addresses, failures, globalOpenAt := map[], [], 0.0;
    }

    method Enter(ip: string, now: real) returns (admission: Admission)
      modifies this
      ensures (Value(), admission) == Entered(old(Value()), ip, now)
    {
      hide Entered, Attempted, Recent, Seconds;
      ghost var s := Value();
      EnteredCases(s, ip, now);
      if ip !in addresses {
        addresses := addresses[ip := NEW_ADDRESS];
      }
      var address := addresses[ip];
      assert addresses == s.addresses[ip := address];
      if now < address.openAt {
        return Admission(false, Seconds(address.openAt - now), 0);
      }
      DropOld(now);
      var busy := |failures| >= GLOBAL_FAILURES;
      if busy && now < globalOpenAt {
        return Admission(false, Seconds(globalOpenAt - now), 0);
      }
      address := Retried(address, now);
      addresses := addresses[ip := address];
      failures := failures + [now];
      if busy {
        globalOpenAt := now + GLOBAL_PACE;
      }
      admission := Admission(true, 0, if address.attempts < FREE_ATTEMPTS then FREE_ATTEMPTS - address.attempts else 0);
    }

    method DropOld(now: real)
      modifies this`failures
      ensures failures == Recent(old(failures), now)
    {
      while failures != [] && failures[0] <= now - GLOBAL_WINDOW
        invariant Recent(failures, now) == Recent(old(failures), now)
        decreases |failures|
      {
        failures := failures[1..];
      }
    }

    method Retried(a: Address, now: real) returns (b: Address)
      ensures b == Attempted(a, now)
    {
      b := a.(attempts := a.attempts + 1);
      if b.attempts >= FREE_ATTEMPTS {
        b := b.(openAt := now + WaitAfter(b.attempts));
      }
    }

    /** How long an address is still held back: to the second, and as a refusal of it would say. */
    method Wait(ip: string, now: real) returns (seconds: int)
      ensures seconds >= 0 && forall k: nat :: HeldBackAfter(Value(), ip, now, k) <==> k < seconds
      ensures seconds > 0 ==> Entered(Value(), ip, now).1 == Admission(false, seconds, 0)
    {
      seconds := 0;
      if ip in addresses {
        seconds := Seconds(addresses[ip].openAt - now);
        forall k: nat ensures HeldBackAfter(Value(), ip, now, k) <==> k < seconds {
          SecondsIsLeast(addresses[ip].openAt - now, k);
        }
        assert seconds > 0 ==> HeldBackAfter(Value(), ip, now, 0);
      }
    }

    method Succeeded(ip: string)
      modifies this
      ensures Value() == Cleared(old(Value()), ip)
    {
      addresses := addresses - {ip};
      if failures != [] {
        failures := failures[..|failures| - 1];
      }
    }
  }

  // ---- Runs, on a clock that never goes back ----

  datatype Event = Enter(ip: string, now: real) | Succeeded(ip: string)

  function After(s: State, e: Event): State {
    match e
    case Enter(ip, now) => Entered(s, ip, now).0
    case Succeeded(ip) => Cleared(s, ip)
  }

  function StateAt(events: seq<Event>): State {
    if events == [] then NEW else After(StateAt(events[..|events| - 1]), events[|events| - 1])
  }

  predicate Monotone(events: seq<Event>) {
    forall i, j :: 0 <= i < j < |events| && events[i].Enter? && events[j].Enter? ==> events[i].now <= events[j].now
  }

  /** Every instant entered so far is at or before that one. */
  predicate Before(events: seq<Event>, now: real) {
    forall i :: 0 <= i < |events| && events[i].Enter? ==> events[i].now <= now
  }

  // One address.

  /** The instants of the attempts admitted from an address since its last right code. */
  function Admitted(events: seq<Event>, ip: string): seq<real> {
    if events == [] then []
    else
      var before, last := events[..|events| - 1], events[|events| - 1];
      if last == Succeeded(ip) then []
      else
        Admitted(before, ip)
        + (if last.Enter? && last.ip == ip && Entered(StateAt(before), ip, last.now).1.admitted then [last.now] else [])
  }

  /** Each admitted attempt waited out the one before it. */
  predicate Spaced(times: seq<real>) {
    forall k :: FREE_ATTEMPTS <= k < |times| ==> times[k - 1] + WaitAfter(k) <= times[k]
  }

  /** What one event does to an address it does not clear: an admitted attempt, or nothing. */
  lemma AddressStep(s: State, e: Event, ip: string)
    requires e != Succeeded(ip)
    ensures var a, b := AddressOf(s, ip), AddressOf(After(s, e), ip);
            if e.Enter? && e.ip == ip && Entered(s, ip, e.now).1.admitted
            then a.openAt <= e.now && b == Attempted(a, e.now)
            else b == a
  {
    hide Attempted, Recent, Seconds, Entered;
    if e.Enter? {
      EnteredCases(s, e.ip, e.now);
    }
  }

  /**
   * An address counts its attempts since its last right code: the first five come freely, then each opens a wait that
   * the next one has to sit out. A right code starts it over.
   */
  lemma {:induction false} AddressTracks(events: seq<Event>, ip: string)
    ensures var times, a := Admitted(events, ip), AddressOf(StateAt(events), ip);
            && a.attempts == |times| && Spaced(times)
            && a.openAt == if |times| >= FREE_ATTEMPTS then times[|times| - 1] + WaitAfter(|times|) else 0.0
  {
    hide Entered, WaitAfter, After, AddressOf, Cleared;
    StartsOver(StateAt(if events == [] then [] else events[..|events| - 1]), ip);
    if events != [] && events[|events| - 1] != Succeeded(ip) {
      var n := |events| - 1;
      AddressTracks(events[..n], ip);
      AddressStep(StateAt(events[..n]), events[n], ip);
    }
  }

  lemma StartsOver(s: State, ip: string)
    ensures AddressOf(NEW, ip) == NEW_ADDRESS && AddressOf(After(s, Succeeded(ip)), ip) == NEW_ADDRESS
  {
  }

  /** The least time from the fifth attempt to the n-th. */
  function LeastSpan(n: nat): real
    requires n >= FREE_ATTEMPTS
  {
    if n == FREE_ATTEMPTS then 0.0 else LeastSpan(n - 1) + WaitAfter(n - 1)
  }

  lemma {:induction false} SpacedSpan(times: seq<real>, n: nat)
    requires Spaced(times) && FREE_ATTEMPTS <= n <= |times|
    ensures times[FREE_ATTEMPTS - 1] + LeastSpan(n) <= times[n - 1]
  {
    if n > FREE_ATTEMPTS {
      SpacedSpan(times, n - 1);
    }
  }

  lemma {:induction false} DoubledGrows(n: nat)
    requires n >= 5
    ensures Doubled(n) >= 32
  {
    if n > 5 {
      DoubledGrows(n - 1);
    }
  }

  lemma {:induction false} LeastSpanIs(n: nat)
    requires n >= 10
    ensures LeastSpan(n) == 930.0 + 900.0 * (n - 10) as real
  {
    if n == 10 {
      assert WaitAfter(5) == 30.0 && WaitAfter(6) == 60.0 && WaitAfter(7) == 120.0;
      assert WaitAfter(8) == 240.0 && WaitAfter(9) == 480.0;
      assert LeastSpan(7) == 90.0;
    } else {
      LeastSpanIs(n - 1);
      DoubledGrows(n - 1 - FREE_ATTEMPTS);
      assert WaitAfter(n - 1) == 900.0;
    }
  }

  /**
   * The n-th attempt admitted from an address since its last right code comes
   * 930 + 900 (n - 10) seconds past the fifth.
   */
  lemma AttemptsAreBounded(events: seq<Event>, ip: string, n: nat)
    requires 10 <= n <= |Admitted(events, ip)|
    ensures Admitted(events, ip)[n - 1] >= Admitted(events, ip)[4] + 930.0 + 900.0 * (n - 10) as real
  {
    AddressTracks(events, ip);
    SpacedSpan(Admitted(events, ip), n);
    LeastSpanIs(n);
  }

  // Every address.

  predicate Sorted(failures: seq<real>) {
    forall i, j :: 0 <= i < j < |failures| ==> failures[i] <= failures[j]
  }

  /** The failures past the sixtieth came a minute apart, and the next waits as long. */
  predicate Paced(failures: seq<real>, globalOpenAt: real) {
    && (forall i :: GLOBAL_FAILURES <= i < |failures| ==> failures[i] + GLOBAL_PACE <= globalOpenAt)
    && forall i :: GLOBAL_FAILURES <= i < |failures| - 1 ==> failures[i] + GLOBAL_PACE <= failures[i + 1]
  }

  const MOST_FAILURES: nat := 120

  predicate QueueOk(s: State) {
    Sorted(s.failures) && Paced(s.failures, s.globalOpenAt) && |s.failures| <= MOST_FAILURES
  }

  predicate UpTo(failures: seq<real>, now: real) {
    forall i :: 0 <= i < |failures| ==> failures[i] <= now
  }

  lemma {:induction false} RecentIsWithin(failures: seq<real>, now: real)
    ensures var r := Recent(failures, now); r != [] ==> now - GLOBAL_WINDOW < r[0]
  {
    if failures != [] && failures[0] <= now - GLOBAL_WINDOW {
      RecentIsWithin(failures[1..], now);
    }
  }

  lemma SuffixOk(s: State, k: nat)
    requires QueueOk(s) && k <= |s.failures|
    ensures QueueOk(s.(failures := s.failures[k..]))
  {
  }

  lemma {:induction false} PacedSpan(failures: seq<real>, globalOpenAt: real, n: nat)
    requires Paced(failures, globalOpenAt) && GLOBAL_FAILURES <= n < |failures|
    ensures failures[GLOBAL_FAILURES] + GLOBAL_PACE * (n - GLOBAL_FAILURES) as real <= failures[n]
  {
    if n > GLOBAL_FAILURES {
      PacedSpan(failures, globalOpenAt, n - 1);
    }
  }

  /** A busy queue that admits at `now` had room: the minute pace fits sixty more in the hour. */
  lemma RoomWhenPaced(failures: seq<real>, globalOpenAt: real, now: real)
    requires Sorted(failures) && Paced(failures, globalOpenAt) && globalOpenAt <= now
    requires |failures| > GLOBAL_FAILURES && now - GLOBAL_WINDOW < failures[0]
    ensures |failures| < MOST_FAILURES
  {
    var n := |failures| - 1;
    PacedSpan(failures, globalOpenAt, n);
    assert failures[0] <= failures[GLOBAL_FAILURES];
    assert GLOBAL_PACE * (n - GLOBAL_FAILURES) as real < GLOBAL_WINDOW - GLOBAL_PACE;
  }

  lemma FailureAdded(recent: seq<real>, globalOpenAt: real, now: real)
    requires Sorted(recent) && Paced(recent, globalOpenAt) && |recent| <= MOST_FAILURES && UpTo(recent, now)
    requires recent != [] ==> now - GLOBAL_WINDOW < recent[0]
    requires |recent| >= GLOBAL_FAILURES ==> globalOpenAt <= now
    ensures Sorted(recent + [now]) && |recent + [now]| <= MOST_FAILURES && UpTo(recent + [now], now)
    ensures Paced(recent + [now], if |recent| >= GLOBAL_FAILURES then now + GLOBAL_PACE else globalOpenAt)
  {
    if |recent| > GLOBAL_FAILURES {
      RoomWhenPaced(recent, globalOpenAt, now);
    }
  }

  /** What one attempt does to the queue. */
  lemma EnteredQueue(s: State, ip: string, now: real)
    ensures var s', recent := Entered(s, ip, now).0, Recent(s.failures, now);
            || (s'.failures == s.failures && s'.globalOpenAt == s.globalOpenAt)
            || (s'.failures == recent && s'.globalOpenAt == s.globalOpenAt)
            || (&& s'.failures == recent + [now] && (|recent| >= GLOBAL_FAILURES ==> s.globalOpenAt <= now)
                && s'.globalOpenAt == if |recent| >= GLOBAL_FAILURES then now + GLOBAL_PACE else s.globalOpenAt)
  {
    hide WaitAfter, Seconds, Recent;
  }

  lemma EnterKeepsQueue(s: State, ip: string, now: real)
    requires QueueOk(s) && UpTo(s.failures, now)
    ensures var s' := Entered(s, ip, now).0; QueueOk(s') && UpTo(s'.failures, now)
  {
    hide Entered, Sorted, Paced, Recent;
    var recent := Recent(s.failures, now);
    SuffixOk(s, |s.failures| - |recent|);
    RecentIsWithin(s.failures, now);
    EnteredQueue(s, ip, now);
    var s' := Entered(s, ip, now).0;
    if s'.failures == recent + [now] && (|recent| >= GLOBAL_FAILURES ==> s.globalOpenAt <= now) {
      FailureAdded(recent, s.globalOpenAt, now);
    }
  }

  /** Over every run, right codes included: the queue is in order and never holds more than 120 failures. */
  lemma {:induction false} QueueIsBounded(events: seq<Event>, now: real)
    requires Monotone(events) && Before(events, now)
    ensures QueueOk(StateAt(events)) && UpTo(StateAt(events).failures, now)
  {
    if events != [] {
      var before, last := events[..|events| - 1], events[|events| - 1];
      if last.Enter? {
        QueueIsBounded(before, last.now);
        EnterKeepsQueue(StateAt(before), last.ip, last.now);
      } else {
        QueueIsBounded(before, now);
      }
    }
  }

  lemma StateAfter(events: seq<Event>, e: Event)
    ensures StateAt([]) == NEW && StateAt(events + [e]) == After(StateAt(events), e)
  {
    assert (events + [e])[..|events|] == events;
  }

  // Whose failure a right code takes off.

  predicate AdmittedAt(events: seq<Event>, i: nat) {
    && i < |events| && events[i].Enter?
    && Entered(StateAt(events[..i]), events[i].ip, events[i].now).1.admitted
  }

  /** An attempt that gets past its own address's wait looks at the queue, and drops what is out of the window. */
  predicate LooksAt(s: State, e: Event) {
    e.Enter? && AddressOf(s, e.ip).openAt <= e.now
  }

  function Newest<T>(q: seq<T>, n: nat): seq<T> {
    if n <= |q| then q[|q| - n..] else q
  }

  function AllButLast<T>(q: seq<T>): seq<T> {
    if q == [] then [] else q[..|q| - 1]
  }

  /** What an event leaves of a list kept beside the queue, `mark` naming the attempt it may add. */
  function Requeued<T>(q: seq<T>, s: State, e: Event, mark: T): seq<T> {
    match e
    case Succeeded(_) => AllButLast(q)
    case Enter(ip, now) =>
      var kept := if LooksAt(s, e) then Newest(q, |Recent(s.failures, now)|) else q;
      if Entered(s, ip, now).1.admitted then kept + [mark] else kept
  }

  /** The queued failures, each named by the attempt it is: its index in the run. */
  function Queued(events: seq<Event>): seq<nat> {
    if events == [] then []
    else
      var n := |events| - 1;
      Requeued<nat>(Queued(events[..n]), StateAt(events[..n]), events[n], n)
  }

  /** The queue itself is such a list, of instants. */
  lemma QueueAfter(s: State, e: Event, mark: real)
    requires e.Enter? ==> mark == e.now
    ensures After(s, e).failures == Requeued<real>(s.failures, s, e, mark)
    ensures e.Enter? && Entered(s, e.ip, e.now).1.admitted ==> LooksAt(s, e)
    ensures LooksAt(s, e) && !Entered(s, e.ip, e.now).1.admitted ==> |Recent(s.failures, e.now)| >= GLOBAL_FAILURES
  {
    hide Recent, Seconds, WaitAfter, Attempted, Entered;
    if e.Enter? {
      EnteredCases(s, e.ip, e.now);
    }
  }

  /** The queue names admitted attempts of the run, in order, each by the instant it came at. */
  predicate Names(q: seq<nat>, events: seq<Event>, failures: seq<real>) {
    && |q| == |failures|
    && (forall k :: 0 <= k < |q| ==> q[k] < |events| && events[q[k]].Enter? && events[q[k]].now == failures[k])
    && forall k, l :: 0 <= k < l < |q| ==> q[k] < q[l]
  }

  lemma {:induction false} QueuedNames(events: seq<Event>)
    ensures Names(Queued(events), events, StateAt(events).failures)
  {
    hide After, Entered, Recent, LooksAt;
    if events != [] {
      var n := |events| - 1;
      QueuedNames(events[..n]);
      NamesAfter(events, Queued(events[..n]), StateAt(events[..n]));
    }
  }

  lemma NamesAfter(events: seq<Event>, q: seq<nat>, s: State)
    requires events != [] && Names(q, events[..|events| - 1], s.failures)
    ensures var n := |events| - 1; Names(Requeued<nat>(q, s, events[n], n), events, After(s, events[n]).failures)
  {
    hide After, Entered, Recent, LooksAt, Names;
    var n := |events| - 1;
    var e, f := events[n], s.failures;
    QueueAfter(s, e, if e.Enter? then e.now else 0.0);
    NamesOfMore(q, events, f);
    match e
    case Succeeded(_) => NamesOfFewer(q, events, f);
    case Enter(ip, now) =>
      NamesOfNewest(q, events, f, |Recent(f, now)|);
      var kept := if LooksAt(s, e) then Newest(q, |Recent(f, now)|) else q;
      var left := if LooksAt(s, e) then Newest(f, |Recent(f, now)|) else f;
      NamesOfOneMore(kept, events, left);
  }

  lemma NamesOfMore(q: seq<nat>, events: seq<Event>, f: seq<real>)
    requires events != [] && Names(q, events[..|events| - 1], f)
    ensures Names(q, events, f) && forall k :: 0 <= k < |q| ==> q[k] < |events| - 1
  {
  }

  lemma NamesOfFewer(q: seq<nat>, events: seq<Event>, f: seq<real>)
    requires Names(q, events, f)
    ensures Names(AllButLast(q), events, AllButLast(f))
  {
  }

  lemma NamesOfNewest(q: seq<nat>, events: seq<Event>, f: seq<real>, n: nat)
    requires Names(q, events, f)
    ensures Names(Newest(q, n), events, Newest(f, n)) && forall x :: x in Newest(q, n) ==> x in q
  {
  }

  lemma NamesOfOneMore(q: seq<nat>, events: seq<Event>, f: seq<real>)
    requires events != [] && events[|events| - 1].Enter? && Names(q, events, f)
    requires forall k :: 0 <= k < |q| ==> q[k] < |events| - 1
    ensures Names(q + [|events| - 1], events, f + [events[|events| - 1].now])
  {
  }

  lemma {:induction false} DroppedAreOld(failures: seq<real>, now: real, k: nat)
    requires k < |failures| - |Recent(failures, now)|
    ensures failures[k] <= now - GLOBAL_WINDOW
  {
    assert Recent(failures, now) == Recent(failures[1..], now);
    if k > 0 {
      DroppedAreOld(failures[1..], now, k - 1);
    }
  }

  /** In order, what an attempt drops is exactly what is out of its window. */
  lemma KeptIffRecent(failures: seq<real>, now: real, k: nat)
    requires Sorted(failures) && k < |failures|
    ensures k >= |failures| - |Recent(failures, now)| <==> failures[k] > now - GLOBAL_WINDOW
  {
    var r := Recent(failures, now);
    RecentIsWithin(failures, now);
    if k < |failures| - |r| {
      DroppedAreOld(failures, now, k);
    } else {
      assert r[0] == failures[|failures| - |r|] <= failures[k];
    }
  }

  /** One event on the count of failures above an attempt's own, which came `at`. */
  function AboveAfter(above: Option<nat>, s: State, e: Event, at: real): Option<nat> {
    if above.None? then None
    else
      match e
      case Succeeded(_) => if above.value == 0 then None else Some(above.value - 1)
      case Enter(ip, now) =>
        if LooksAt(s, e) && at <= now - GLOBAL_WINDOW then None
        else if Entered(s, ip, now).1.admitted then Some(above.value + 1)
        else above
  }

  /**
   * How many failures stand above an attempt's own, counted along the run from its
   * admission: one more for each attempt admitted, one less for each right code. Nothing
   * once a right code found none above it, or the window left it behind.
   */
  function Above(events: seq<Event>, i: nat): Option<nat>
    requires i < |events| && events[i].Enter?
    decreases |events|
  {
    var n := |events| - 1;
    if i == n then Some(0) else AboveAfter(Above(events[..n], i), StateAt(events[..n]), events[n], events[i].now)
  }

  predicate StandsUnder(q: seq<nat>, i: nat, above: nat) {
    above < |q| && q[|q| - 1 - above] == i
  }

  predicate Placed(q: seq<nat>, i: nat, above: Option<nat>) {
    if above.Some? then StandsUnder(q, i, above.value) else i !in q
  }

  /** One event moves the count as it moves the queue. */
  lemma PlacedStep(q: seq<nat>, s: State, e: Event, n: nat, i: nat, at: real, above: Option<nat>)
    requires |q| == |s.failures| && i < n && Placed(q, i, above)
    requires forall k :: 0 <= k < |q| ==> q[k] < n && (q[k] == i ==> s.failures[k] == at)
    requires forall k, l :: 0 <= k < l < |q| ==> q[k] < q[l]
    requires e.Enter? ==> Sorted(s.failures)
    ensures Placed(Requeued<nat>(q, s, e, n), i, AboveAfter(above, s, e, at))
  {
    hide Entered, Recent, LooksAt, Sorted;
    if above.None? {
      assert forall j :: j in Requeued<nat>(q, s, e, n) ==> j in q || j == n;
    } else if e.Enter? {
      KeptIffRecent(s.failures, e.now, |q| - 1 - above.value);
    }
  }

  /** The count is right: an attempt is queued under so many others, or no longer queued at all. */
  lemma {:induction false} AboveIsPlace(events: seq<Event>, i: nat, now: real)
    requires Monotone(events) && Before(events, now) && AdmittedAt(events, i)
    ensures Placed(Queued(events), i, Above(events, i))
    decreases |events|
  {
    hide Entered, Recent, LooksAt, StateAt, Requeued, AboveAfter, Placed;
    var n := |events| - 1;
    var before, e := events[..n], events[n];
    assert Queued(events) == Requeued<nat>(Queued(before), StateAt(before), e, n);
    if i < n {
      assert before[..i] == events[..i];
      assert Above(events, i) == AboveAfter(Above(before, i), StateAt(before), e, events[i].now);
      AboveIsPlace(before, i, if e.Enter? then e.now else now);
      QueuedNames(before);
      if e.Enter? {
        QueueIsBounded(before, e.now);
      }
      PlacedStep(Queued(before), StateAt(before), e, n, i, events[i].now, Above(before, i));
    } else {
      assert events[..i] == before && i == n && Above(events, i) == Some(0);
      JustQueued(Queued(before), StateAt(before), e, n);
    }
  }

  lemma JustQueued(q: seq<nat>, s: State, e: Event, n: nat)
    requires e.Enter? && Entered(s, e.ip, e.now).1.admitted
    ensures Placed(Requeued<nat>(q, s, e, n), n, Some(0))
  {
  }

  /** The last attempt admitted from an address. */
  predicate LastAttempt(events: seq<Event>, ip: string, i: nat) {
    && AdmittedAt(events, i) && events[i].ip == ip
    && forall j :: i < j < |events| && events[j].Enter? && events[j].ip == ip ==> !AdmittedAt(events, j)
  }

  /** A right code from an address takes that attempt's failure off the queue. */
  predicate TakesOff(events: seq<Event>, ip: string, i: nat) {
    i in Queued(events) && i !in Queued(events + [Succeeded(ip)])
  }

  /**
   * A right code takes off its own address's last attempt if and only if none stands above it: every attempt admitted
   * since, from anyone, was given back, and the attempt itself was neither given back nor left behind by the window.
   */
  lemma RightCodeTakesItsOwnIff(events: seq<Event>, ip: string, i: nat, now: real)
    requires Monotone(events) && Before(events, now) && LastAttempt(events, ip, i)
    ensures TakesOff(events, ip, i) <==> Above(events, i) == Some(0)
  {
    hide AdmittedAt, Above, Queued, Monotone, Before;
    AboveIsPlace(events, i, now);
    QueuedNames(events);
    PoppedQueue(events, ip);
  }

  lemma PoppedQueue(events: seq<Event>, ip: string)
    ensures var q := Queued(events);
            Queued(events + [Succeeded(ip)]) == AllButLast(q)
  {
    assert (events + [Succeeded(ip)])[..|events|] == events;
  }

  predicate NoneAdmittedSince(events: seq<Event>, i: nat) {
    forall j :: i < j < |events| ==> !AdmittedAt(events, j)
  }

  predicate NoSuccessSince(events: seq<Event>, i: nat) {
    forall j :: i < j < |events| ==> events[j].Enter?
  }

  /** With no right code since the attempt, from anyone: it is its own if and only if no attempt was admitted since. */
  lemma BeforeAnyOtherSuccess(events: seq<Event>, ip: string, i: nat, now: real)
    requires Monotone(events) && Before(events, now) && LastAttempt(events, ip, i) && NoSuccessSince(events, i)
    ensures TakesOff(events, ip, i) <==> NoneAdmittedSince(events, i)
  {
    hide TakesOff;
    RightCodeTakesItsOwnIff(events, ip, i, now);
    AboveWithoutSuccess(events, i, now);
  }

  lemma {:induction false} AboveWithoutSuccess(events: seq<Event>, i: nat, now: real)
    requires Monotone(events) && Before(events, now) && AdmittedAt(events, i) && NoSuccessSince(events, i)
    ensures Above(events, i) == Some(0) <==> NoneAdmittedSince(events, i)
    decreases |events|
  {
    hide Queued, StateAt, Entered, LooksAt;
    var n := |events| - 1;
    if i < n {
      var before, e := events[..n], events[n];
      assert before[..i] == events[..i];
      AboveWithoutSuccess(before, i, e.now);
      SinceBefore(events, i);
      if Above(before, i) == Some(0) && !AdmittedAt(events, n) {
        LastStaysRecent(before, i, e);
      }
    }
  }

  lemma SinceBefore(events: seq<Event>, i: nat)
    requires i < |events| - 1
    ensures var n := |events| - 1;
            NoneAdmittedSince(events, i) <==> NoneAdmittedSince(events[..n], i) && !AdmittedAt(events, n)
  {
    hide Entered, StateAt;
    var n := |events| - 1;
    forall j: nat | j < n ensures AdmittedAt(events[..n], j) <==> AdmittedAt(events, j) {
      assert events[..n][..j] == events[..j];
    }
  }

  /** A refused attempt leaves the newest failure queued: the window cannot have left it behind. */
  lemma LastStaysRecent(events: seq<Event>, i: nat, e: Event)
    requires Monotone(events) && e.Enter? && Before(events, e.now) && AdmittedAt(events, i)
             && Above(events, i) == Some(0)
    requires !Entered(StateAt(events), e.ip, e.now).1.admitted
    ensures LooksAt(StateAt(events), e) ==> events[i].now > e.now - GLOBAL_WINDOW
  {
    hide Entered, LooksAt, StateAt, Above, AdmittedAt, Queued, Recent, Monotone, Before;
    AboveIsPlace(events, i, e.now);
    QueuedNames(events);
    QueueIsBounded(events, e.now);
    QueueAfter(StateAt(events), e, e.now);
    var f := StateAt(events).failures;
    KeptIffRecent(f, e.now, |f| - 1);
  }

  /** A right code takes the newest failure off the queue, which may be another address's. */
  lemma RightCodeMayPopAnothers()
    ensures StateAt([] + [Enter("a", 0.0)] + [Enter("b", 1.0)] + [Succeeded("a")]).failures == [0.0]
  {
    hide StateAt, Entered;
    var one := [] + [Enter("a", 0.0)];
    var two := one + [Enter("b", 1.0)];
    StateAfter([], Enter("a", 0.0));
    Newcomer(NEW, "a", 0.0);
    StateAfter(one, Enter("b", 1.0));
    Newcomer(StateAt(one), "b", 1.0);
    StateAfter(two, Succeeded("a"));
  }

  /** And an attempt that came and was given back in between changes nothing: the code is its own again. */
  lemma OthersMayComeAndGo()
    ensures var events := [] + [Enter("a", 0.0)] + [Enter("b", 1.0)] + [Succeeded("b")];
            LastAttempt(events, "a", 0) && !NoneAdmittedSince(events, 0) && TakesOff(events, "a", 0)
  {
    hide StateAt, Entered, TakesOff;
    var one := [] + [Enter("a", 0.0)];
    var two := one + [Enter("b", 1.0)];
    var events := two + [Succeeded("b")];
    StateAfter([], Enter("a", 0.0));
    Newcomer(NEW, "a", 0.0);
    NewcomerAdmitted(NEW, "a", 0.0);
    StateAfter(one, Enter("b", 1.0));
    Newcomer(StateAt(one), "b", 1.0);
    NewcomerAdmitted(StateAt(one), "b", 1.0);
    assert events[..0] == [] && events[..1] == one && two[..1] == one && events[..2] == two;
    assert AdmittedAt(events, 0) && AdmittedAt(events, 1);
    assert Above(one, 0) == Some(0) && Above(two, 0) == Some(1) && Above(events, 0) == Some(0);
    RightCodeTakesItsOwnIff(events, "a", 0, 1.0);
  }

  // The bound is reached: sixty-one newcomers at once, then one a minute.

  function Instant(k: nat): real {
    if k <= GLOBAL_FAILURES then 0.0 else GLOBAL_PACE * (k - GLOBAL_FAILURES) as real
  }

  function Name(k: nat): (name: string)
    ensures |name| == k
  {
    if k == 0 then "" else Name(k - 1) + "a"
  }

  function Instants(k: nat): (s: seq<real>)
    ensures |s| == k && (k > 0 ==> s[0] == 0.0)
  {
    if k == 0 then [] else Instants(k - 1) + [Instant(k - 1)]
  }

  function Crowd(k: nat): seq<Event> {
    if k == 0 then [] else Crowd(k - 1) + [Enter(Name(k - 1), Instant(k - 1))]
  }

  predicate Shorter(names: set<string>, k: nat) {
    forall n :: n in names ==> |n| < k
  }

  lemma Newcomer(s: State, ip: string, now: real)
    requires ip !in s.addresses && now >= 0.0
    requires s.failures != [] ==> s.failures[0] > now - GLOBAL_WINDOW
    requires |s.failures| >= GLOBAL_FAILURES ==> s.globalOpenAt <= now
    ensures var s' := Entered(s, ip, now).0;
            && s'.failures == s.failures + [now] && s'.addresses.Keys == s.addresses.Keys + {ip}
            && s'.globalOpenAt == if |s.failures| >= GLOBAL_FAILURES then now + GLOBAL_PACE else s.globalOpenAt
  {
    hide WaitAfter, Seconds;
  }

  lemma NewcomerAdmitted(s: State, ip: string, now: real)
    requires ip !in s.addresses && now >= 0.0
    requires s.failures != [] ==> s.failures[0] > now - GLOBAL_WINDOW
    requires |s.failures| >= GLOBAL_FAILURES ==> s.globalOpenAt <= now
    ensures Entered(s, ip, now).1.admitted
  {
    hide WaitAfter, Seconds, Attempted, Entered, Recent;
    EnteredCases(s, ip, now);
    AllRecent(s.failures, now);
  }

  lemma AllRecent(failures: seq<real>, now: real)
    requires failures != [] ==> failures[0] > now - GLOBAL_WINDOW
    ensures Recent(failures, now) == failures
  {
  }

  lemma {:induction false} CrowdFills(k: nat)
    requires k <= MOST_FAILURES
    ensures var s := StateAt(Crowd(k));
            && s.failures == Instants(k) && Shorter(s.addresses.Keys, k)
            && s.globalOpenAt == if k <= GLOBAL_FAILURES then 0.0 else Instant(k)
  {
    hide StateAt, Entered;
    StateAfter([], Succeeded(""));
    if k > 0 {
      CrowdFills(k - 1);
      StateAfter(Crowd(k - 1), Enter(Name(k - 1), Instant(k - 1)));
      Newcomer(StateAt(Crowd(k - 1)), Name(k - 1), Instant(k - 1));
    }
  }

  lemma {:induction false} CrowdInOrder(k: nat)
    ensures Monotone(Crowd(k)) && Before(Crowd(k), Instant(k))
  {
    if k > 0 {
      CrowdInOrder(k - 1);
    }
  }

  lemma BoundIsReached()
    ensures exists events :: Monotone(events) && |StateAt(events).failures| == MOST_FAILURES
  {
    hide StateAt, Crowd, Monotone;
    CrowdFills(MOST_FAILURES);
    CrowdInOrder(MOST_FAILURES);
    assert Monotone(Crowd(MOST_FAILURES));
  }

  // ---- The lifetime of a session ----

  const LONGEST_SESSION := 2592000

  /** The lifetime a stored value means. */
  function SessionSeconds(stored: Option<int>): (seconds: int)
    ensures 0 < seconds <= LONGEST_SESSION
    ensures stored.Some? && 0 < stored.value <= LONGEST_SESSION ==> seconds == stored.value
    ensures stored.None? || stored.value <= 0 || stored.value > LONGEST_SESSION ==> seconds == LONGEST_SESSION
  {
    if stored.None? || stored.value <= 0 then LONGEST_SESSION
    else if stored.value < LONGEST_SESSION then stored.value else LONGEST_SESSION
  }
}
