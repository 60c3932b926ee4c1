/** The write-behind of the job history: one transaction a flush, and the reload at boot. */
module JobStore {
  import opened Basics
  import opened JobHistory

  /** The primary key of a stored slot: a singleton job is the member with no name. */
  datatype Row = Row(job: string, member: string, hour: int)

  function RowOf(p: Place): Row {
    Row(p.key.job, if p.key.symbol.Some? then p.key.symbol.value else "", p.hour)
  }

  function PlaceOf(r: Row): Place {
    Place(Key(r.job, if r.member == "" then None else Some(r.member)), r.hour)
  }

  /** Naming a row and reading its place back is the identity exactly when no symbol is blank. */
  lemma RowRoundTrip(p: Place, r: Row)
    ensures PlaceOf(RowOf(p)) == p <==> p.key.symbol != Some("")
    ensures RowOf(PlaceOf(r)) == r
  {
  }

  // ---- The transaction ----

  function WithoutGone(rows: map<Row, Slot>, gone: set<string>): map<Row, Slot> {
    map r | r in rows && !(r.job == SCRAPE && r.member in gone) :: rows[r]
  }

  /** The rows a batch names. */
  function RowsNamed(slots: map<Place, Slot>): (rows: set<Row>)
    ensures forall r :: r in rows <==> PlaceOf(r) in slots
  {
    var rows := set p | p in slots && PlaceOf(RowOf(p)) == p :: RowOf(p);
    assert forall r :: PlaceOf(r) in slots ==> RowOf(PlaceOf(r)) == r && r in rows;
    rows
  }

  /** Rows written over the rows already there. */
  function Upserted(rows: map<Row, Slot>, slots: map<Place, Slot>): map<Row, Slot> {
    map r | r in rows.Keys + RowsNamed(slots) :: if PlaceOf(r) in slots then slots[PlaceOf(r)] else rows[r]
  }

  function SinceHour(rows: map<Row, Slot>, oldest: int): map<Row, Slot> {
    map r | r in rows && r.hour >= oldest :: rows[r]
  }

  function Committed(rows: map<Row, Slot>, d: Drained, oldest: int): map<Row, Slot> {
    SinceHour(Upserted(WithoutGone(rows, d.gone), d.slots), oldest)
  }

  /** What boot reads of the rows. */
  function StoredSlots(rows: map<Row, Slot>, oldest: int): map<Place, Slot> {
    map p | p in (set r | r in rows && r.hour >= oldest :: PlaceOf(r)) && RowOf(p) in rows :: rows[RowOf(p)]
  }

  predicate WellFormedSlots(slots: map<Place, Slot>) {
    forall p :: p in slots ==> p.key.WellFormed()
  }

  class Store {
    var rows: map<Row, Slot>

    constructor ()
      ensures rows == map[]
    {
      rows := map[];
    }

    /** The body of the transaction, statement by statement. */
    method Apply(d: Drained, oldest: int)
      requires WellFormedSlots(d.slots)
      modifies this
      ensures rows == Committed(old(rows), d, oldest)
    {
      var gone := d.gone;
      while gone != {}
        invariant gone <= d.gone
        invariant rows == WithoutGone(old(rows), d.gone - gone)
      {
        var symbol := Pick(gone);
        rows := map r | r in rows && !(r.job == SCRAPE && r.member == symbol) :: rows[r];
        gone := gone - {symbol};
      }
      assert d.gone - gone == d.gone;
      Upsert(d.slots);
      rows := map r | r in rows && r.hour >= oldest :: rows[r];
    }

    method Upsert(slots: map<Place, Slot>)
      requires WellFormedSlots(slots)
      modifies this
      ensures rows == Upserted(old(rows), slots)
    {
      hide Upserted;
      UpsertedNothing(rows);
      var todo := slots.Keys;
      ghost var written: map<Place, Slot> := map[];
      while todo != {}
        invariant todo <= slots.Keys && written == slots - todo
        invariant rows == Upserted(old(rows), written)
      {
        var p := Pick(todo);
        UpsertedOneMore(old(rows), written, p, slots[p]);
        rows := rows[RowOf(p) := slots[p]];
        todo := todo - {p};
        written := written[p := slots[p]];
      }
      assert written == slots;
    }

    /** One flush with nobody else about: drain, then commit, or put the batch back. */
    method Flush(history: Memory, now: int, refused: bool)
      requires WellFormedSlots(BatchOf(history.State()).slots)
      modifies this, history
      ensures rows == if refused then old(rows)
                      else Committed(old(rows), BatchOf(old(history.State())), Oldest(HourOf(now)))
      ensures history.State() == if refused then Undrained(Emptied(old(history.State())), BatchOf(old(history.State())))
                                 else Emptied(old(history.State()))
    {
      var drained := history.Drain();
      if refused {
        history.Undrain(drained);
      } else {
        Apply(drained, Oldest(HourOf(now)));
      }
    }

    method Restore(history: Memory, now: int)
      requires history.State() == History(map[], {}, [], map[], {})
      modifies history
      ensures history.State() == Loaded(StoredSlots(rows, Oldest(HourOf(now))))
    {
      history.Load(StoredSlots(rows, Oldest(HourOf(now))));
    }
  }

  lemma UpsertedNothing(rows: map<Row, Slot>)
    ensures Upserted(rows, map[]) == rows
  {
  }

  lemma UpsertedOneMore(rows: map<Row, Slot>, slots: map<Place, Slot>, p: Place, slot: Slot)
    requires WellFormedSlots(slots) && p.key.WellFormed()
    ensures Upserted(rows, slots[p := slot]) == Upserted(rows, slots)[RowOf(p) := slot]
  {
    RowRoundTrip(p, RowOf(p));
    assert forall r :: PlaceOf(r) == p <==> r == RowOf(p);
  }

  // ---- Every interleaving ----

  /** A flush between its drain and its verdict: the batch, and the hour the purge reaches back to. */
  datatype Flight = Flight(batch: Drained, oldest: int)

  /** The memory, the table, at most one flush under way, and the hour on the clock. `horizon` is the
      furthest any purge has reached. */
  datatype World = World(h: History, rows: map<Row, Slot>, flight: Option<Flight>, clock: int, horizon: int)

  datatype Step =
    | Tick(hour: int)
    | Record(key: Key, one: Pass)
    | Arm(key: Key, next: Schedule)
    | Forget(symbol: string)
    | Retain(keep: set<string>)
    | Drain
    | Commit
    | Fail

  predicate Enabled(w: World, s: Step) {
    match s
    case Tick(hour) => hour >= w.clock
    case Record(key, one) => key.WellFormed() && HourOf(one.at) <= w.clock
    case Arm(key, _) => key.WellFormed()
    case Forget(symbol) => symbol != ""
    case Retain(_) => true
    case Drain => w.flight.None?
    case Commit => w.flight.Some?
    case Fail => w.flight.Some?
  }

  function Taken(w: World, s: Step): World
    requires Enabled(w, s)
  {
    match s
    case Tick(hour) => w.(clock := hour)
    case Record(key, one) => w.(h := Recorded(w.h, key, one))
    case Arm(key, next) => w.(h := w.h.(schedule := w.h.schedule[key := next]))
    case Forget(symbol) => w.(h := Forgotten(w.h, symbol))
    case Retain(keep) => w.(h := Retained(w.h, keep))
    case Drain => w.(h := Emptied(w.h), flight := Some(Flight(BatchOf(w.h), Oldest(w.clock))))
    case Commit =>
      var f := w.flight.value;
      w.(rows := Committed(w.rows, f.batch, f.oldest), flight := None,
         horizon := if f.oldest > w.horizon then f.oldest else w.horizon)
    case Fail => w.(h := Undrained(w.h, w.flight.value.batch), flight := None)
  }

  /** The symbol of this key awaits deletion by the flush under way. */
  predicate LeavingNow(w: World, key: Key) {
    w.flight.Some? && key.In(w.flight.value.batch.gone)
  }

  /** A live slot nobody has touched since it was handed over or stored is what was handed over or stored,
      and nothing is about to delete it. */
  predicate Backed(w: World, p: Place)
    requires Live(w.h, p)
  {
    !p.key.In(w.h.gone)
    && if w.flight.Some? && p in w.flight.value.batch.slots then w.flight.value.batch.slots[p] == SlotAt(w.h, p)
       else RowOf(p) in w.rows && w.rows[RowOf(p)] == SlotAt(w.h, p) && !LeavingNow(w, p.key)
  }

  /** A stored or in-flight slot is still live, or awaits deletion, or has aged out. */
  predicate Accounted(w: World, p: Place) {
    Live(w.h, p) || p.key.In(w.h.gone) || p.hour < Oldest(w.clock)
  }

  predicate Shaped(w: World) {
    && w.horizon <= Oldest(w.clock)
    && (forall k :: k in w.h.tracks ==> k.WellFormed())
    && (forall r :: r in w.rows ==> PlaceOf(r).key.WellFormed())
    && (w.flight.Some? ==> WellFormedSlots(w.flight.value.batch.slots) && w.flight.value.oldest <= Oldest(w.clock))
  }

  ghost predicate AllBacked(w: World) {
    forall p :: Live(w.h, p) && p.hour >= w.horizon && p !in w.h.dirty ==> Backed(w, p)
  }

  ghost predicate RowsAccounted(w: World) {
    forall r :: r in w.rows ==> Accounted(w, PlaceOf(r)) || LeavingNow(w, PlaceOf(r).key)
  }

  ghost predicate BatchAccounted(w: World) {
    w.flight.Some? ==> forall p :: p in w.flight.value.batch.slots ==> Accounted(w, p)
  }

  ghost predicate Consistent(w: World) {
    Shaped(w) && AllBacked(w) && RowsAccounted(w) && BatchAccounted(w)
  }

  /** A process starting on whatever an earlier one stored. */
  function Boot(rows: map<Row, Slot>, clock: int): World {
    World(Loaded(StoredSlots(rows, Oldest(clock))), rows, None, clock, Oldest(clock))
  }

  lemma LoadedIsLive(slots: map<Place, Slot>, p: Place)
    ensures Live(Loaded(slots), p) <==> p in slots
    ensures p in slots ==> SlotAt(Loaded(slots), p) == slots[p]
  {
    if p in slots {
      assert p.key in KeysOf(slots) && p.hour in HoursOf(slots, p.key);
    }
    if Live(Loaded(slots), p) {
      assert p.hour in HoursOf(slots, p.key);
      var q :| q in slots && q.key == p.key && q.hour == p.hour;
      assert p == q;
    }
  }

  lemma BootIsConsistent(rows: map<Row, Slot>, clock: int)
    requires forall r :: r in rows ==> PlaceOf(r).key.WellFormed()
    ensures Consistent(Boot(rows, clock))
  {
    var w := Boot(rows, clock);
    var slots := StoredSlots(rows, Oldest(clock));
    forall p ensures Live(w.h, p) <==> p in slots { LoadedIsLive(slots, p); }
    forall p | Live(w.h, p) ensures Backed(w, p) { LoadedIsLive(slots, p); }
    forall r | r in rows ensures Accounted(w, PlaceOf(r)) {
      RowRoundTrip(PlaceOf(r), r);
    }
    forall k | k in w.h.tracks ensures k.WellFormed() {
      var p :| p in slots && p.key == k;
      RowRoundTrip(p, RowOf(p));
    }
  }

  // ---- Each step keeps it ----

  lemma RecordKeeps(w: World, key: Key, one: Pass)
    requires Consistent(w) && Enabled(w, Record(key, one))
    ensures Consistent(Taken(w, Record(key, one)))
  {
    var w' := Taken(w, Record(key, one));
    forall p
      ensures Live(w'.h, p) ==>
                p == Place(key, HourOf(one.at)) || (Live(w.h, p) && SlotAt(w'.h, p) == SlotAt(w.h, p))
    {
    }
    forall p | Accounted(w, p) ensures Accounted(w', p) {
    }
  }

  lemma DropKeeps(w: World, keys: set<Key>)
    requires Consistent(w)
    requires forall k :: k in keys ==> k.job == SCRAPE && k.WellFormed()
    ensures Consistent(w.(h := Dropped(w.h, keys)))
  {
    var w' := w.(h := Dropped(w.h, keys));
    forall p ensures Live(w'.h, p) <==> Live(w.h, p) && p.key !in keys {
    }
    forall p | Live(w'.h, p) && Backed(w, p) ensures Backed(w', p) {
    }
    forall p | Accounted(w, p) ensures Accounted(w', p) {
      if p.key in keys {
        assert p.key.symbol.value in Symbols(keys);
      }
    }
  }

  lemma DrainKeeps(w: World)
    requires Consistent(w) && w.flight.None?
    ensures Consistent(Taken(w, Drain))
  {
  }

  lemma FailKeeps(w: World)
    requires Consistent(w) && w.flight.Some?
    ensures Consistent(Taken(w, Fail))
  {
  }

  lemma CommitKeeps(w: World)
    requires Consistent(w) && w.flight.Some?
    ensures Consistent(Taken(w, Commit))
  {
  }

  lemma StepKeeps(w: World, s: Step)
    requires Consistent(w) && Enabled(w, s)
    ensures Consistent(Taken(w, s))
  {
    match s
    case Tick(_) =>
    case Arm(_, _) =>
    case Record(key, one) => RecordKeeps(w, key, one);
    case Forget(symbol) => DropKeeps(w, {Key(SCRAPE, Some(symbol))});
    case Retain(keep) => DropKeeps(w, Departed(w.h, keep));
    case Drain => DrainKeeps(w);
    case Commit => CommitKeeps(w);
    case Fail => FailKeeps(w);
  }

  predicate Possible(w: World, steps: seq<Step>)
    decreases |steps|
  {
    steps != [] ==> Enabled(w, steps[0]) && Possible(Taken(w, steps[0]), steps[1..])
  }

  function After(w: World, steps: seq<Step>): World
    requires Possible(w, steps)
    decreases |steps|
  {
    if steps == [] then w else After(Taken(w, steps[0]), steps[1..])
  }

  /** Over every interleaving, from whatever an earlier process stored: each live slot of the last hours
      is dirty, or in the batch under way, or stored as it stands; each stored one is live, or leaving, or old. */
  lemma {:induction false} EveryRunIsConsistent(w: World, steps: seq<Step>)
    requires Consistent(w) && Possible(w, steps)
    ensures Consistent(After(w, steps))
    decreases |steps|
  {
    if steps != [] {
      StepKeeps(w, steps[0]);
      EveryRunIsConsistent(Taken(w, steps[0]), steps[1..]);
    }
  }

  /** Neither a record nor a forget: the clock turns, an arming is noted. */
  predicate Quiet(steps: seq<Step>) {
    forall i :: 0 <= i < |steps| ==> steps[i].Tick? || steps[i].Arm?
  }

  lemma {:induction false} QuietChangesNothing(w: World, steps: seq<Step>)
    requires Possible(w, steps) && Quiet(steps)
    ensures var w' := After(w, steps);
            && w'.h.tracks == w.h.tracks && w'.h.dirty == w.h.dirty && w'.h.gone == w.h.gone
            && w'.rows == w.rows && w'.flight == w.flight && w'.clock >= w.clock
    decreases |steps|
  {
    if steps != [] {
      QuietChangesNothing(Taken(w, steps[0]), steps[1..]);
    }
  }

  /** No slot and no departure is in the hands of a flush. */
  predicate Idle(w: World) {
    w.flight.Some? ==> w.flight.value.batch.slots == map[] && w.flight.value.batch.gone == {}
  }

  predicate Settled(w: World) {
    w.h.dirty == {} && w.h.gone == {} && Idle(w)
  }

  /** Neither a record nor a forget, but as many flushes as one likes, landed or refused. */
  predicate Calm(steps: seq<Step>) {
    forall i :: 0 <= i < |steps| ==>
      steps[i].Tick? || steps[i].Arm? || steps[i].Drain? || steps[i].Commit? || steps[i].Fail?
  }

  lemma CalmStep(w: World, s: Step)
    requires Settled(w) && Enabled(w, s) && (s.Tick? || s.Arm? || s.Drain? || s.Commit? || s.Fail?)
    ensures var w' := Taken(w, s); Settled(w') && w'.h.tracks == w.h.tracks && w'.clock >= w.clock
  {
    hide PassesAmong, LastOf;
  }

  lemma {:induction false} CalmKeepsSettled(w: World, steps: seq<Step>)
    requires Settled(w) && Possible(w, steps) && Calm(steps)
    ensures var w' := After(w, steps); Settled(w') && w'.h.tracks == w.h.tracks && w'.clock >= w.clock
    decreases |steps|
  {
    hide Settled, Taken, Enabled;
    if steps != [] {
      CalmStep(w, steps[0]);
      CalmKeepsSettled(Taken(w, steps[0]), steps[1..]);
    }
  }

  /** With nothing dirty, in the hands of a flush or leaving, boot reads back exactly the slots of the last 24 hours. */
  lemma SettledIsRestored(w: World, now: int, p: Place)
    requires Consistent(w) && Settled(w) && now >= w.clock
    ensures var restored := Loaded(StoredSlots(w.rows, Oldest(now)));
            && (Live(restored, p) <==> Live(w.h, p) && p.hour >= Oldest(now))
            && (Live(restored, p) ==> SlotAt(restored, p) == SlotAt(w.h, p))
  {
    var stored := StoredSlots(w.rows, Oldest(now));
    LoadedIsLive(stored, p);
    RowRoundTrip(p, RowOf(p));
    if Live(w.h, p) && p.hour >= Oldest(now) {
      assert Backed(w, p);
      assert PlaceOf(RowOf(p)) == p;
    }
    if p in stored {
      var r :| r in w.rows && r.hour >= Oldest(now) && PlaceOf(r) == p;
      assert Accounted(w, PlaceOf(r)) || LeavingNow(w, PlaceOf(r).key);
    }
  }

  lemma CommitSettles(w: World)
    requires w.flight.Some? && w.h.dirty == {} && w.h.gone == {}
    ensures Settled(Taken(w, Commit))
  {
  }

  /**
   * A flush that lands, with nothing recorded or forgotten since its drain, is a full copy: whatever flushes follow
   * it, a process started at any later hour holds exactly the slots of its last 24 hours.
   */
  lemma FlushThenRestore(w: World, airborne: seq<Step>, landed: seq<Step>, now: int, p: Place)
    requires Consistent(w) && Enabled(w, Drain)
    requires Quiet(airborne) && Possible(Taken(w, Drain), airborne)
    requires Enabled(After(Taken(w, Drain), airborne), Commit)
    requires Calm(landed) && Possible(Taken(After(Taken(w, Drain), airborne), Commit), landed)
    requires now >= After(Taken(After(Taken(w, Drain), airborne), Commit), landed).clock
    ensures var last := After(Taken(After(Taken(w, Drain), airborne), Commit), landed);
            var restored := Loaded(StoredSlots(last.rows, Oldest(now)));
            && last.h.tracks == w.h.tracks
            && (Live(restored, p) <==> Live(w.h, p) && p.hour >= Oldest(now))
            && (Live(restored, p) ==> SlotAt(restored, p) == SlotAt(w.h, p))
  {
    hide Consistent, Committed, Loaded, Settled;
    var drained := Taken(w, Drain);
    StepKeeps(w, Drain);
    EveryRunIsConsistent(drained, airborne);
    QuietChangesNothing(drained, airborne);
    var flown := After(drained, airborne);
    StepKeeps(flown, Commit);
    CommitSettles(flown);
    var committed := Taken(flown, Commit);
    EveryRunIsConsistent(committed, landed);
    CalmKeepsSettled(committed, landed);
    SettledIsRestored(After(committed, landed), now, p);
  }

  // ---- Rows from before a forget ----

  /**
   * A run that counts the forgets: `forgets` how often each symbol was forgotten so far, `stamps` how often each row's
   * had been when its batch was drained, `carried` the counts the batch under way was drained at.
   */
  datatype Tallied = Tallied(w: World, forgets: map<string, nat>, stamps: map<Row, nat>, carried: map<string, nat>)

  function TimesOf(forgets: map<string, nat>, symbol: string): nat {
    if symbol in forgets then forgets[symbol] else 0
  }

  function OnceMore(forgets: map<string, nat>, symbols: set<string>): map<string, nat> {
    map s | s in forgets.Keys + symbols :: TimesOf(forgets, s) + (if s in symbols then 1 else 0)
  }

  /** A row of the batch takes the count its batch was drained at; any other keeps its own. */
  function Stamped(
    rows: map<Row, Slot>, slots: map<Place, Slot>, carried: map<string, nat>, stamps: map<Row, nat>): map<Row, nat>
  {
    map r | r in rows ::
      if PlaceOf(r) in slots then TimesOf(carried, r.member) else if r in stamps then stamps[r] else 0
  }

  function TalliedStep(x: Tallied, s: Step): Tallied
    requires Enabled(x.w, s)
    ensures TalliedStep(x, s).w == Taken(x.w, s)
  {
    var w' := Taken(x.w, s);
    match s
    case Forget(symbol) => Tallied(w', OnceMore(x.forgets, {symbol}), x.stamps, x.carried)
    case Retain(keep) => Tallied(w', OnceMore(x.forgets, Symbols(Departed(x.w.h, keep))), x.stamps, x.carried)
    case Drain => Tallied(w', x.forgets, x.stamps, x.forgets)
    case Commit =>
      var slots := x.w.flight.value.batch.slots;
      Tallied(w', x.forgets, Stamped(w'.rows, slots, x.carried, x.stamps), x.carried)
    case _ => Tallied(w', x.forgets, x.stamps, x.carried)
  }

  /** The symbol awaits deletion: by the next flush, or by the one under way. */
  predicate Awaits(w: World, symbol: string) {
    symbol in w.h.gone || (w.flight.Some? && symbol in w.flight.value.batch.gone)
  }

  /** A scrape row drained before its symbol's last forget. */
  predicate Outdated(x: Tallied, r: Row) {
    r in x.stamps && r.job == SCRAPE && x.stamps[r] < TimesOf(x.forgets, r.member)
  }

  ghost predicate OutdatedAwaits(x: Tallied) {
    && x.stamps.Keys == x.w.rows.Keys
    && (forall r :: Outdated(x, r) ==> Awaits(x.w, r.member))
    && (x.w.flight.Some? ==>
          forall s :: TimesOf(x.carried, s) < TimesOf(x.forgets, s) ==> s in x.w.h.gone)
  }

  lemma OnceMoreTimes(forgets: map<string, nat>, symbols: set<string>, s: string)
    ensures TimesOf(OnceMore(forgets, symbols), s) == TimesOf(forgets, s) + (if s in symbols then 1 else 0)
  {
  }

  /** A symbol forgotten once more leaves with the next flush. */
  lemma TalliedDrop(x: Tallied, keys: set<Key>)
    requires OutdatedAwaits(x)
    ensures OutdatedAwaits(Tallied(x.w.(h := Dropped(x.w.h, keys)), OnceMore(x.forgets, Symbols(keys)), x.stamps,
                                   x.carried))
  {
    hide PassesExcept, Symbols, OnceMore;
    var x' := Tallied(x.w.(h := Dropped(x.w.h, keys)), OnceMore(x.forgets, Symbols(keys)), x.stamps, x.carried);
    forall r | Outdated(x', r) ensures Awaits(x'.w, r.member) {
      OnceMoreTimes(x.forgets, Symbols(keys), r.member);
      assert r.member in Symbols(keys) || Outdated(x, r);
    }
    forall s | TimesOf(x.carried, s) < TimesOf(x'.forgets, s) && x.w.flight.Some? ensures s in x'.w.h.gone {
      OnceMoreTimes(x.forgets, Symbols(keys), s);
    }
  }

  /** A commit deletes what awaited it before it writes, and what it writes was drained at the counts it carries. */
  lemma TalliedCommit(x: Tallied)
    requires OutdatedAwaits(x) && x.w.flight.Some?
    ensures OutdatedAwaits(TalliedStep(x, Commit))
  {
    var x' := TalliedStep(x, Commit);
    forall r | Outdated(x', r) ensures r.member in x'.w.h.gone {
      if PlaceOf(r) !in x.w.flight.value.batch.slots {
        assert r in WithoutGone(x.w.rows, x.w.flight.value.batch.gone);
        assert Outdated(x, r);
      }
    }
  }

  lemma TalliedKeeps(x: Tallied, s: Step)
    requires OutdatedAwaits(x) && Enabled(x.w, s)
    ensures OutdatedAwaits(TalliedStep(x, s))
  {
    hide Recorded, Dropped, PassesAmong, LastOf, OnceMore;
    match s
    case Forget(symbol) =>
      var keys := {Key(SCRAPE, Some(symbol))};
      assert Key(SCRAPE, Some(symbol)) in keys;
      assert Symbols(keys) == {symbol};
      TalliedDrop(x, keys);
    case Retain(keep) => TalliedDrop(x, Departed(x.w.h, keep));
    case Commit => TalliedCommit(x);
    case Record(key, one) =>
      SameStanding(x, TalliedStep(x, s)) by { RecordedGone(x.w.h, key, one); }
    case Drain => DrainedStanding(x, TalliedStep(x, s));
    case Fail => DrainedStanding(x, TalliedStep(x, s));
    case _ => SameStanding(x, TalliedStep(x, s));
  }

  lemma RecordedGone(h: History, key: Key, one: Pass)
    ensures Recorded(h, key, one).gone == h.gone
  {
  }

  /** A step that moves neither the counts nor what awaits deletion. */
  lemma SameStanding(x: Tallied, x': Tallied)
    requires OutdatedAwaits(x) && x' == x.(w := x'.w) && x'.w.rows == x.w.rows && x'.w.flight == x.w.flight
    requires x'.w.h.gone == x.w.h.gone
    ensures OutdatedAwaits(x')
  {
    forall r | Outdated(x', r) ensures Awaits(x'.w, r.member) {
      assert Outdated(x, r);
    }
  }

  /** A step that hands the departures over, or back. */
  lemma DrainedStanding(x: Tallied, x': Tallied)
    requires OutdatedAwaits(x) && x' == x.(w := x'.w, carried := x'.carried) && x'.w.rows == x.w.rows
    requires forall s :: Awaits(x.w, s) ==> Awaits(x'.w, s)
    requires x'.w.flight.Some? ==> x'.carried == x.forgets
    ensures OutdatedAwaits(x')
  {
    forall r | Outdated(x', r) ensures Awaits(x'.w, r.member) {
      assert Outdated(x, r);
    }
  }

  function TalliedRun(x: Tallied, steps: seq<Step>): Tallied
    requires Possible(x.w, steps)
    decreases |steps|
  {
    if steps == [] then x else TalliedRun(TalliedStep(x, steps[0]), steps[1..])
  }

  /** A start, with nothing forgotten yet. */
  function TalliedBoot(rows: map<Row, Slot>, clock: int): Tallied {
    Tallied(Boot(rows, clock), map[], map r | r in rows :: 0, map[])
  }

  lemma {:induction false} TalliedRunKeeps(x: Tallied, steps: seq<Step>)
    requires OutdatedAwaits(x) && Possible(x.w, steps)
    ensures OutdatedAwaits(TalliedRun(x, steps)) && TalliedRun(x, steps).w == After(x.w, steps)
    decreases |steps|
  {
    hide TalliedStep, Taken;
    if steps != [] {
      TalliedKeeps(x, steps[0]);
      TalliedRunKeeps(TalliedStep(x, steps[0]), steps[1..]);
    }
  }

  /**
   * Over every interleaving, a stored row from before its symbol's last forget implies that the symbol awaits deletion,
   * even when the slot was recorded again since; so once a flush has landed and nobody awaits, there is none left.
   */
  lemma RowsFromBeforeAForget(rows: map<Row, Slot>, clock: int, steps: seq<Step>, r: Row)
    requires Possible(Boot(rows, clock), steps)
    ensures var x := TalliedRun(TalliedBoot(rows, clock), steps);
            && x.w == After(Boot(rows, clock), steps)
            && (r in x.w.rows && Outdated(x, r) ==> Awaits(x.w, r.member))
            && (Settled(x.w) ==> !Outdated(x, r))
  {
    hide TalliedStep;
    TalliedRunKeeps(TalliedBoot(rows, clock), steps);
  }

  /** A flush the store refused, with nothing in between, gives back everything it took: every arming,
      every departure, every dirty slot still live, and the newest passes of tracked keys up to the cap. */
  lemma RefusedFlushGivesBack(h: History)
    requires forall i :: 0 <= i < |h.pending| ==> h.pending[i].0 in h.tracks
    ensures var back := Undrained(Emptied(h), BatchOf(h));
            && back.tracks == h.tracks && back.schedule == h.schedule && back.gone == h.gone
            && (forall p :: p in back.dirty <==> p in h.dirty && Live(h, p))
            && var cap := 20 * if h.tracks == map[] then 1 else |h.tracks|;
               && |back.pending| == (if |h.pending| < cap then |h.pending| else cap)
               && back.pending == h.pending[|h.pending| - |back.pending|..]
  {
    var h' := Emptied(h);
    assert Alive(h') == h.tracks.Keys;
    AmongAll(h.pending, Alive(h'));
    assert h.pending + [] == h.pending;
    ScheduleGivenBack(h.schedule);
    hide PassesAmong, LastOf, SlotAt;
  }

  lemma ScheduleGivenBack(schedule: map<Key, Schedule>)
    ensures (map k | k in schedule && !k.In({}) :: schedule[k]) + map[] == schedule
  {
  }

  lemma {:induction false} AmongAll(passes: seq<(Key, Pass)>, keys: set<Key>)
    requires forall i :: 0 <= i < |passes| ==> passes[i].0 in keys
    ensures PassesAmong(passes, keys) == passes
  {
    if passes != [] {
      var n := |passes| - 1;
      AmongAll(passes[..n], keys);
      assert passes == passes[..n] + [passes[n]];
    }
  }
}
