/** What the hourly slots count, over whole runs: every pass recorded since its key was last dropped, once. */
module JobCounts {
  import opened Basics
  import opened JobHistory
  import opened JobStore

  // ---- Counting over the passes themselves ----

  function PassesIn(log: seq<Pass>, hour: int): nat {
    if log == [] then 0
    else PassesIn(log[..|log| - 1], hour) + (if HourOf(log[|log| - 1].at) == hour then 1 else 0)
  }

  function OutcomesIn(log: seq<Pass>, hour: int, outcome: Outcome): nat {
    if log == [] then 0
    else
      var last := log[|log| - 1];
      OutcomesIn(log[..|log| - 1], hour, outcome)
      + (if HourOf(last.at) == hour && last.outcome == outcome then 1 else 0)
  }

  function DurationIn(log: seq<Pass>, hour: int): real {
    if log == [] then 0.0
    else
      var last := log[|log| - 1];
      DurationIn(log[..|log| - 1], hour) + (if HourOf(last.at) == hour then last.duration else 0.0)
  }

  /** The last failed pass of an hour. */
  function LastFailed(log: seq<Pass>, hour: int): Option<Pass> {
    if log == [] then None
    else
      var last := log[|log| - 1];
      if HourOf(last.at) == hour && last.outcome == Failed then Some(last) else LastFailed(log[..|log| - 1], hour)
  }

  /**
   * A slot that started as `from` counts the passes of its hour: in all, by outcome, their time and the last failure.
   */
  predicate Tallies(slot: Slot, from: Slot, log: seq<Pass>, hour: int) {
    && slot.passes == from.passes + PassesIn(log, hour)
    && slot.errors == from.errors + OutcomesIn(log, hour, Failed)
    && slot.attentions == from.attentions + OutcomesIn(log, hour, Attention)
    && slot.idles == from.idles + OutcomesIn(log, hour, Idle)
    && slot.duration == from.duration + DurationIn(log, hour)
    && match LastFailed(log, hour)
       case None => slot.lastError == from.lastError && slot.lastErrorAt == from.lastErrorAt
       case Some(p) => slot.lastError == p.error && slot.lastErrorAt == Some(p.at)
  }

  /** What a key's story is: the slots it was loaded with, and the passes recorded for it since. */
  datatype Story = Story(base: map<int, Slot>, log: seq<Pass>) {
    predicate Has(hour: int) {
      (hour in base || PassesIn(log, hour) > 0) && (log == [] || hour > HourOf(log[|log| - 1].at) - 24)
    }

    function From(hour: int): Slot {
      if hour in base then base[hour] else EMPTY_SLOT
    }
  }

  const UNTOLD := Story(map[], [])

  /**
   * The slots of a track are those of the last 24 hours of its story, each one counting, with the newest passes beside.
   */
  ghost predicate Tells(track: Track, s: Story) {
    AllTally(track.slots, s) && IsNewest(track.recent, s.log)
  }

  ghost predicate AllTally(slots: map<int, Slot>, s: Story) {
    && (forall h :: h in slots <==> s.Has(h))
    && forall h :: h in slots ==> Tallies(slots[h], s.From(h), s.log, h)
  }

  predicate IsNewest(recent: seq<Pass>, log: seq<Pass>) {
    && |recent| == (if |log| < 20 then |log| else 20)
    && recent == log[|log| - |recent|..]
  }

  lemma CountedTallies(slot: Slot, from: Slot, log: seq<Pass>, one: Pass)
    requires Tallies(slot, from, log, HourOf(one.at))
    ensures Tallies(Counted(slot, one), from, log + [one], HourOf(one.at))
  {
    assert (log + [one])[..|log|] == log;
  }

  lemma OtherHourTallies(slot: Slot, from: Slot, log: seq<Pass>, one: Pass, hour: int)
    requires hour != HourOf(one.at)
    ensures Tallies(slot, from, log + [one], hour) <==> Tallies(slot, from, log, hour)
    ensures PassesIn(log + [one], hour) == PassesIn(log, hour)
  {
    assert (log + [one])[..|log|] == log;
  }

  lemma {:induction false} NothingIn(log: seq<Pass>, hour: int)
    requires PassesIn(log, hour) == 0
    ensures forall from :: Tallies(from, from, log, hour)
  {
    if log != [] {
      NothingIn(log[..|log| - 1], hour);
      forall from: Slot ensures Tallies(from, from, log, hour) {
        assert Tallies(from, from, log[..|log| - 1], hour);
      }
    }
  }

  lemma RecordedTrack(h: History, key: Key, one: Pass)
    ensures var before, hour := TrackOf(h, key), HourOf(one.at);
            var slot := if hour in before.slots then before.slots[hour] else EMPTY_SLOT;
            var after := TrackOf(Recorded(h, key, one), key);
            && after.slots == KeptSlots(before.slots, hour - 23)[hour := Counted(slot, one)]
            && after.recent == LastOf(before.recent + [one], 20)
    ensures forall k :: k != key ==> TrackOf(Recorded(h, key, one), k) == TrackOf(h, k)
  {
    hide Counted;
    var before, hour := TrackOf(h, key), HourOf(one.at);
    assert hour in KeptSlots(before.slots, hour - 23) <==> hour in before.slots;
  }

  /** A pass recorded no earlier than the last one adds to its slot, and the slots it ages out are out of the story. */
  lemma RecordTells(h: History, key: Key, one: Pass, s: Story)
    requires Tells(TrackOf(h, key), s)
    requires s.log != [] ==> HourOf(s.log[|s.log| - 1].at) <= HourOf(one.at)
    ensures Tells(TrackOf(Recorded(h, key, one), key), s.(log := s.log + [one]))
  {
    hide AllTally, IsNewest, Recorded, TrackOf, Counted, LastOf, KeptSlots;
    RecordedTrack(h, key, one);
    SlotsTell(TrackOf(h, key).slots, TrackOf(Recorded(h, key, one), key).slots, one, s);
    NewestStep(TrackOf(h, key).recent, s.log, one);
  }

  lemma NewestStep(recent: seq<Pass>, log: seq<Pass>, one: Pass)
    requires IsNewest(recent, log)
    ensures IsNewest(LastOf(recent + [one], 20), log + [one])
  {
  }

  lemma SlotsTell(before: map<int, Slot>, after: map<int, Slot>, one: Pass, s: Story)
    requires AllTally(before, s)
    requires s.log != [] ==> HourOf(s.log[|s.log| - 1].at) <= HourOf(one.at)
    requires var hour := HourOf(one.at);
             var slot := if hour in before then before[hour] else EMPTY_SLOT;
             after == KeptSlots(before, hour - 23)[hour := Counted(slot, one)]
    ensures AllTally(after, s.(log := s.log + [one]))
  {
    hide Tallies, Counted;
    var hour, s' := HourOf(one.at), s.(log := s.log + [one]);
    assert s'.log[..|s.log|] == s.log;
    forall h ensures h in after <==> s'.Has(h) {
      assert PassesIn(s'.log, h) == PassesIn(s.log, h) + if h == hour then 1 else 0;
    }
    if hour !in before {
      assert s.From(hour) == EMPTY_SLOT && PassesIn(s.log, hour) == 0;
      NothingIn(s.log, hour);
    }
    CountedTallies(if hour in before then before[hour] else EMPTY_SLOT, s.From(hour), s.log, one);
    forall h | h in after ensures Tallies(after[h], s'.From(h), s'.log, h) {
      if h != hour {
        OtherHourTallies(before[h], s.From(h), s.log, one, h);
      }
    }
  }

  // ---- Over a run ----

  /** What one step adds to a key's story, or ends of it. */
  function Told(s: Story, step: Step, key: Key): Story {
    match step
    case Record(k, one) => if k == key then s.(log := s.log + [one]) else s
    case Forget(symbol) => if key == Key(SCRAPE, Some(symbol)) then UNTOLD else s
    case Retain(keep) => if key.job == SCRAPE && !key.In(keep) then UNTOLD else s
    case _ => s
  }

  function ToldAll(s: Story, steps: seq<Step>, key: Key): Story
    decreases |steps|
  {
    if steps == [] then s else ToldAll(Told(s, steps[0], key), steps[1..], key)
  }

  /** The hours of the passes recorded never go back. */
  predicate Onward(steps: seq<Step>) {
    forall i, j :: 0 <= i < j < |steps| && steps[i].Record? && steps[j].Record? ==>
      HourOf(steps[i].one.at) <= HourOf(steps[j].one.at)
  }

  predicate Follows(s: Story, steps: seq<Step>) {
    s.log != [] ==>
      forall i :: 0 <= i < |steps| && steps[i].Record? ==> HourOf(s.log[|s.log| - 1].at) <= HourOf(steps[i].one.at)
  }

  lemma StepTells(w: World, step: Step, key: Key, s: Story)
    requires Enabled(w, step) && Tells(TrackOf(w.h, key), s)
    requires step.Record? && s.log != [] ==> HourOf(s.log[|s.log| - 1].at) <= HourOf(step.one.at)
    ensures Tells(TrackOf(Taken(w, step).h, key), Told(s, step, key))
  {
    StepMoves(w, step, key);
    hide Tells, Taken, TrackOf, Recorded;
    Untold();
    if step.Record? && step.key == key {
      RecordTells(w.h, key, step.one, s);
    }
  }

  /** What one step does to one track. */
  lemma StepMoves(w: World, step: Step, key: Key)
    requires Enabled(w, step)
    ensures var after := TrackOf(Taken(w, step).h, key);
            match step
            case Record(k, one) => after == TrackOf(if k == key then Recorded(w.h, k, one) else w.h, key)
            case Forget(symbol) =>
              after == if key == Key(SCRAPE, Some(symbol)) then Track(map[], []) else TrackOf(w.h, key)
            case Retain(keep) =>
              after == if key.job == SCRAPE && !key.In(keep) then Track(map[], []) else TrackOf(w.h, key)
            case _ => after == TrackOf(w.h, key)
  {
    hide Committed, PassesAmong, PassesExcept, LastOf, Counted, KeptSlots;
  }

  lemma Untold()
    ensures Tells(Track(map[], []), UNTOLD)
  {
  }

  lemma {:induction false} RunTells(w: World, steps: seq<Step>, key: Key, s: Story)
    requires Possible(w, steps) && Tells(TrackOf(w.h, key), s) && Onward(steps) && Follows(s, steps)
    ensures Tells(TrackOf(After(w, steps).h, key), ToldAll(s, steps, key))
    decreases |steps|
  {
    hide Tells, Taken;
    if steps != [] {
      StepTells(w, steps[0], key, s);
      RunTells(Taken(w, steps[0]), steps[1..], key, Told(s, steps[0], key));
    }
  }

  /** The story of a key at boot: the stored slots of the last 24 hours. */
  function Opening(rows: map<Row, Slot>, clock: int, key: Key): Story {
    Story(map h | h in (set r | r in rows && PlaceOf(r).key == key && r.hour > clock - 24 :: r.hour)
                  && RowOf(Place(key, h)) in rows :: rows[RowOf(Place(key, h))],
          [])
  }

  lemma BootTells(rows: map<Row, Slot>, clock: int, key: Key)
    ensures Tells(TrackOf(Boot(rows, clock).h, key), Opening(rows, clock, key))
  {
    var slots := StoredSlots(rows, Oldest(clock));
    NoSlots(slots, key);
    StoredIsOpening(rows, clock, key);
    hide StoredSlots, Opening, SlotsOf;
  }

  lemma StoredIsOpening(rows: map<Row, Slot>, clock: int, key: Key)
    ensures SlotsOf(StoredSlots(rows, Oldest(clock)), key) == Opening(rows, clock, key).base
    ensures Opening(rows, clock, key).log == []
  {
    var slots, base := StoredSlots(rows, Oldest(clock)), Opening(rows, clock, key).base;
    forall h ensures h in HoursOf(slots, key) <==> h in base {
      assert h in HoursOf(slots, key) <==> Place(key, h) in slots;
      if Place(key, h) in slots {
        var r :| r in rows && r.hour >= Oldest(clock) && PlaceOf(r) == Place(key, h);
        assert r.hour > clock - 24;
      }
      if h in base {
        var r :| r in rows && PlaceOf(r).key == key && r.hour > clock - 24 && r.hour == h;
        assert PlaceOf(r) == Place(key, h);
      }
    }
  }

  /**
   * From whatever an earlier process stored, over every interleaving of records, forgets and flushes, landed or not:
   * each slot counts every pass of its hour recorded since its key was last dropped, exactly once.
   */
  lemma SlotsCountThePasses(rows: map<Row, Slot>, clock: int, steps: seq<Step>, key: Key)
    requires Possible(Boot(rows, clock), steps) && Onward(steps)
    ensures Tells(TrackOf(After(Boot(rows, clock), steps).h, key), ToldAll(Opening(rows, clock, key), steps, key))
  {
    BootTells(rows, clock, key);
    RunTells(Boot(rows, clock), steps, key, Opening(rows, clock, key));
  }

  /** And a process started after a landed flush counts them all, for its last 24 hours. */
  lemma RestoredCounts(rows: map<Row, Slot>, clock: int, steps: seq<Step>, airborne: seq<Step>, landed: seq<Step>,
                       now: int, p: Place)
    requires forall r :: r in rows ==> PlaceOf(r).key.WellFormed()
    requires Possible(Boot(rows, clock), steps) && Onward(steps)
    requires var w := After(Boot(rows, clock), steps);
             && Enabled(w, Drain) && Quiet(airborne) && Possible(Taken(w, Drain), airborne)
             && Enabled(After(Taken(w, Drain), airborne), Commit)
             && Calm(landed) && Possible(Taken(After(Taken(w, Drain), airborne), Commit), landed)
             && now >= After(Taken(After(Taken(w, Drain), airborne), Commit), landed).clock
    ensures var w := After(Boot(rows, clock), steps);
            var last := After(Taken(After(Taken(w, Drain), airborne), Commit), landed);
            var restored := Loaded(StoredSlots(last.rows, Oldest(now)));
            var s := ToldAll(Opening(rows, clock, p.key), steps, p.key);
            && (Live(restored, p) <==> s.Has(p.hour) && p.hour > now - 24)
            && (Live(restored, p) ==> Tallies(SlotAt(restored, p), s.From(p.hour), s.log, p.hour))
  {
    hide Consistent, Taken, Enabled, Loaded, StoredSlots, Tallies, Quiet, Calm, Boot, Opening;
    BootIsConsistent(rows, clock);
    EveryRunIsConsistent(Boot(rows, clock), steps);
    SlotsCountThePasses(rows, clock, steps, p.key);
    FlushThenRestore(After(Boot(rows, clock), steps), airborne, landed, now, p);
  }

  // ---- The passes on their way to the store ----

  /** The passes of one key, in order. */
  function Mine(passes: seq<(Key, Pass)>, key: Key): seq<Pass> {
    if passes == [] then []
    else
      var n := |passes| - 1;
      Mine(passes[..n], key) + (if passes[n].0 == key then [passes[n].1] else [])
  }

  lemma {:induction false} MineOfBoth(a: seq<(Key, Pass)>, b: seq<(Key, Pass)>, key: Key)
    ensures Mine(a + b, key) == Mine(a, key) + Mine(b, key)
  {
    if b == [] {
      assert a + b == a;
    } else {
      var n := |b| - 1;
      MineOfBoth(a, b[..n], key);
      assert (a + b)[..|a| + n] == a + b[..n];
    }
  }

  lemma {:induction false} MineAmong(passes: seq<(Key, Pass)>, keys: set<Key>, key: Key)
    ensures Mine(PassesAmong(passes, keys), key) == if key in keys then Mine(passes, key) else []
    ensures Mine(PassesExcept(passes, keys), key) == if key in keys then [] else Mine(passes, key)
    ensures |PassesAmong(passes, keys)| <= |passes|
  {
    if passes != [] {
      var n := |passes| - 1;
      MineAmong(passes[..n], keys, key);
      MineOfBoth(PassesAmong(passes[..n], keys), [passes[n]], key);
      MineOfBoth(PassesExcept(passes[..n], keys), [passes[n]], key);
      MineOfOne(passes[n], key);
      AmongStep(passes, keys);
      hide PassesAmong, PassesExcept;
    }
  }

  lemma AmongStep(passes: seq<(Key, Pass)>, keys: set<Key>)
    requires passes != []
    ensures var n := |passes| - 1;
            var among, others := PassesAmong(passes[..n], keys), PassesExcept(passes[..n], keys);
            && PassesAmong(passes, keys) == (if passes[n].0 in keys then among + [passes[n]] else among)
            && PassesExcept(passes, keys) == if passes[n].0 in keys then others else others + [passes[n]]
  {
    var n := |passes| - 1;
    assert PassesAmong(passes[..n], keys) + [] == PassesAmong(passes[..n], keys);
    assert PassesExcept(passes[..n], keys) + [] == PassesExcept(passes[..n], keys);
  }

  lemma MineOfOne(one: (Key, Pass), key: Key)
    ensures Mine([one], key) == if one.0 == key then [one.1] else []
  {
    assert [one][..0] == [];
  }

  predicate EndsWith(log: seq<Pass>, tail: seq<Pass>) {
    |tail| <= |log| && log[|log| - |tail|..] == tail
  }

  lemma MineOfLast(passes: seq<(Key, Pass)>, n: nat, key: Key)
    ensures EndsWith(Mine(passes, key), Mine(LastOf(passes, n), key))
  {
    if |passes| > n {
      var cut := |passes| - n;
      MineOfBoth(passes[..cut], passes[cut..], key);
      assert passes == passes[..cut] + passes[cut..];
    }
  }

  /** What a key still owes the store, what the flush under way took of it, and whether the cap ever cut anything. */
  datatype Queue = Queue(owed: seq<Pass>, sent: seq<Pass>, cut: bool)

  function Queued(q: Queue, w: World, step: Step, key: Key): Queue
    requires Enabled(w, step)
  {
    match step
    case Record(k, one) => if k == key then q.(owed := q.owed + [one]) else q
    case Forget(symbol) => if key == Key(SCRAPE, Some(symbol)) then q.(owed := [], sent := []) else q
    case Retain(keep) => if key.job == SCRAPE && !key.In(keep) then q.(owed := [], sent := []) else q
    case Drain => q.(owed := [], sent := q.owed)
    case Commit => q.(sent := [])
    case Fail =>
      var cap := 20 * if w.h.tracks == map[] then 1 else |w.h.tracks|;
      Queue(q.sent + q.owed, [], q.cut || |w.flight.value.batch.passes| + |w.h.pending| > cap)
    case _ => q
  }

  /** What a refusal of the flush under way would give back of a key. */
  function GivenBack(w: World, key: Key): seq<Pass>
    requires w.flight.Some?
  {
    if key in w.h.tracks && !key.In(w.h.gone) then Mine(w.flight.value.batch.passes, key) else []
  }

  /** The queue of a key is what it owes, in order: all of it, unless the cap cut its head. */
  predicate Holds(w: World, key: Key, q: Queue) {
    && OwedIs(Mine(w.h.pending, key), key, w.h, q)
    && (w.flight.Some? ==> SentIs(w, key, q))
  }

  predicate OwedIs(mine: seq<Pass>, key: Key, h: History, q: Queue) {
    EndsWith(q.owed, mine) && (!q.cut ==> mine == q.owed) && (q.owed != [] ==> key in h.tracks)
  }

  predicate SentIs(w: World, key: Key, q: Queue)
    requires w.flight.Some?
  {
    && Mine(w.h.pending, key) == q.owed
    && EndsWith(q.sent, GivenBack(w, key)) && (!q.cut ==> GivenBack(w, key) == q.sent)
    && (Mine(w.flight.value.batch.passes, key) != [] ==> key in w.h.tracks || key.In(w.h.gone))
    && (q.sent != [] ==> key in w.h.tracks && !key.In(w.h.gone))
  }

  lemma EndsWithBoth(log: seq<Pass>, tail: seq<Pass>, more: seq<Pass>)
    requires EndsWith(log, tail)
    ensures EndsWith(log + more, tail + more) && EndsWith(more + log, tail)
  {
  }

  lemma RecordHolds(w: World, key: Key, one: Pass, k: Key, q: Queue)
    requires Holds(w, k, q) && Enabled(w, Record(key, one))
    ensures Holds(Taken(w, Record(key, one)), k, Queued(q, w, Record(key, one), k))
  {
    var more := if k == key then [one] else [];
    assert Taken(w, Record(key, one)) == w.(h := Recorded(w.h, key, one));
    assert Queued(q, w, Record(key, one), k) == q.(owed := q.owed + more);
    hide Recorded, Mine, EndsWith, Taken, Queued;
    RecordedQueue(w.h, key, one);
    MineOfBoth(w.h.pending, [(key, one)], k);
    MineOfOne((key, one), k);
    EndsWithBoth(q.owed, Mine(w.h.pending, k), more);
    MoreHolds(w, Recorded(w.h, key, one), k, q, more);
  }

  lemma MoreHolds(w: World, h: History, k: Key, q: Queue, more: seq<Pass>)
    requires Holds(w, k, q) && EndsWith(q.owed + more, Mine(w.h.pending, k) + more)
    requires Mine(h.pending, k) == Mine(w.h.pending, k) + more && h.gone == w.h.gone
    requires w.h.tracks.Keys <= h.tracks.Keys && (more != [] ==> k in h.tracks)
    requires k in h.tracks ==> k in w.h.tracks || more != []
    ensures Holds(w.(h := h), k, q.(owed := q.owed + more))
  {
    hide Mine, EndsWith;
  }

  lemma RecordedQueue(h: History, key: Key, one: Pass)
    ensures var h' := Recorded(h, key, one);
            h'.pending == h.pending + [(key, one)] && h'.gone == h.gone && h'.tracks.Keys == h.tracks.Keys + {key}
  {
    hide KeptSlots, Counted, LastOf;
  }

  lemma DropHolds(w: World, keys: set<Key>, k: Key, q: Queue)
    requires Holds(w, k, q) && k.WellFormed() && forall key :: key in keys ==> key.WellFormed() && key.job == SCRAPE
    ensures Holds(w.(h := Dropped(w.h, keys)), k, if k in keys then q.(owed := [], sent := []) else q)
  {
    MineAmong(w.h.pending, keys, k);
    DroppedQueue(w.h, keys, k);
    hide Dropped, Mine, PassesExcept, EndsWith;
    assert EndsWith([], []) by {
      EndsWithSelf([]);
    }
  }

  lemma EndsWithSelf(log: seq<Pass>)
    ensures EndsWith(log, log)
  {
  }

  lemma DroppedQueue(h: History, keys: set<Key>, k: Key)
    requires k.WellFormed() && forall key :: key in keys ==> key.WellFormed() && key.job == SCRAPE
    ensures var h' := Dropped(h, keys);
            && h'.pending == PassesExcept(h.pending, keys)
            && (k in h'.tracks <==> k in h.tracks && k !in keys)
            && (k.In(h'.gone) <==> k.In(h.gone) || k in keys)
  {
    hide PassesExcept;
    if k in keys {
      assert k.symbol.value in Symbols(keys);
    }
  }

  lemma AbsentHolds(w: World, k: Key, q: Queue)
    requires Holds(w, k, q) && k.WellFormed() && k !in w.h.tracks
    ensures Holds(w, k, q.(owed := [], sent := []))
  {
  }

  lemma DrainHolds(w: World, k: Key, q: Queue)
    requires Holds(w, k, q) && w.flight.None? && k.WellFormed()
    ensures Holds(Taken(w, Drain), k, Queued(q, w, Drain, k))
  {
  }

  lemma FailHolds(w: World, k: Key, q: Queue)
    requires Holds(w, k, q) && w.flight.Some? && k.WellFormed()
    ensures Holds(Taken(w, Fail), k, Queued(q, w, Fail, k))
  {
    var d, h := w.flight.value.batch, w.h;
    var back := PassesAmong(d.passes, Alive(h)) + h.pending;
    MineAmong(d.passes, Alive(h), k);
    MineOfBoth(PassesAmong(d.passes, Alive(h)), h.pending, k);
    MineOfLast(back, Cap(h), k);
    assert Taken(w, Fail).h.pending == LastOf(back, Cap(h));
    assert Taken(w, Fail).h.tracks == h.tracks;
    assert Mine(back, k) == GivenBack(w, k) + q.owed;
    Chained(q.sent + q.owed, Mine(back, k), Mine(LastOf(back, Cap(h)), k)) by {
      EndsWithBoth(q.sent, GivenBack(w, k), q.owed);
    }
  }

  lemma Chained(log: seq<Pass>, tail: seq<Pass>, last: seq<Pass>)
    requires EndsWith(log, tail) && EndsWith(tail, last)
    ensures EndsWith(log, last)
  {
  }

  lemma StepHolds(w: World, step: Step, k: Key, q: Queue)
    requires Enabled(w, step) && Holds(w, k, q) && k.WellFormed()
    requires forall key :: key in w.h.tracks ==> key.WellFormed()
    ensures Holds(Taken(w, step), k, Queued(q, w, step, k))
  {
    hide Holds;
    match step
    case Record(key, one) => RecordHolds(w, key, one, k, q);
    case Forget(symbol) => DropHolds(w, {Key(SCRAPE, Some(symbol))}, k, q);
    case Retain(keep) =>
      DropHolds(w, Departed(w.h, keep), k, q);
      if k !in w.h.tracks {
        AbsentHolds(w.(h := Retained(w.h, keep)), k, q);
      }
    case Drain => DrainHolds(w, k, q);
    case Fail => FailHolds(w, k, q);
    case _ => QuietHolds(w, step, k, q);
  }

  lemma QuietHolds(w: World, step: Step, k: Key, q: Queue)
    requires Enabled(w, step) && Holds(w, k, q) && (step.Tick? || step.Arm? || step.Commit?)
    ensures Holds(Taken(w, step), k, Queued(q, w, step, k))
  {
    hide EndsWith, Mine, Committed;
  }

  function QueuedAll(q: Queue, w: World, steps: seq<Step>, key: Key): Queue
    requires Possible(w, steps)
    decreases |steps|
  {
    if steps == [] then q else QueuedAll(Queued(q, w, steps[0], key), Taken(w, steps[0]), steps[1..], key)
  }

  lemma {:induction false} RunHolds(w: World, steps: seq<Step>, key: Key, q: Queue)
    requires Possible(w, steps) && Holds(w, key, q) && key.WellFormed() && Consistent(w)
    ensures Holds(After(w, steps), key, QueuedAll(q, w, steps, key))
    decreases |steps|
  {
    hide Holds, Taken, Queued, Backed, Accounted;
    if steps != [] {
      StepKeeps(w, steps[0]);
      StepHolds(w, steps[0], key, q);
      RunHolds(Taken(w, steps[0]), steps[1..], key, Queued(q, w, steps[0], key));
    }
  }

  /**
   * Over every interleaving, what a key has queued is exactly the passes recorded for it that no landed flush took and
   * no forget dropped, in their order, those of refused flushes first; its oldest are missing only once the cap cut
   * some of all the queues together.
   */
  lemma NoPassIsLost(rows: map<Row, Slot>, clock: int, steps: seq<Step>, key: Key)
    requires Possible(Boot(rows, clock), steps) && key.WellFormed()
    requires forall r :: r in rows ==> PlaceOf(r).key.WellFormed()
    ensures var q := QueuedAll(Queue([], [], false), Boot(rows, clock), steps, key);
            var mine := Mine(After(Boot(rows, clock), steps).h.pending, key);
            EndsWith(q.owed, mine) && (!q.cut ==> mine == q.owed)
  {
    BootIsConsistent(rows, clock);
    RunHolds(Boot(rows, clock), steps, key, Queue([], [], false));
  }

  // ---- The armings on their way to the store ----

  /** The latest arming noted of a key since the last drain, and the one the flush under way took. */
  datatype Arming = Arming(noted: Option<Schedule>, sent: Option<Schedule>)

  const UNARMED := Arming(None, None)

  function Armed(a: Arming, w: World, step: Step, key: Key): Arming {
    match step
    case Arm(k, next) => if k == key then a.(noted := Some(next)) else a
    case Forget(symbol) => if key == Key(SCRAPE, Some(symbol)) then UNARMED else a
    case Retain(keep) => if key in w.h.tracks && key.job == SCRAPE && !key.In(keep) then UNARMED else a
    case Drain => Arming(None, a.noted)
    case Commit => a.(sent := None)
    case Fail => Arming(if a.noted.Some? then a.noted else a.sent, None)
    case _ => a
  }

  /**
   * What the store is to be told of a key is its latest arming, one a refused flush took included unless a later came.
   */
  predicate Carries(w: World, key: Key, a: Arming) {
    && ArmingIn(w.h.schedule, key) == a.noted
    && (w.flight.Some? ==> a.sent == if key.In(w.h.gone) then None else ArmingIn(w.flight.value.batch.schedule, key))
  }

  function ArmingIn(schedule: map<Key, Schedule>, key: Key): Option<Schedule> {
    if key in schedule then Some(schedule[key]) else None
  }

  lemma DroppedArming(h: History, keys: set<Key>, k: Key)
    requires k.WellFormed() && forall key :: key in keys ==> key.WellFormed() && key.job == SCRAPE
    ensures var h' := Dropped(h, keys);
            && ArmingIn(h'.schedule, k) == (if k in keys then None else ArmingIn(h.schedule, k))
            && (k.In(h'.gone) <==> k.In(h.gone) || k in keys)
  {
    hide PassesExcept;
    DroppedQueue(h, keys, k);
  }

  lemma StepCarries(w: World, step: Step, key: Key, a: Arming)
    requires Enabled(w, step) && Carries(w, key, a) && key.WellFormed()
    requires forall k :: k in w.h.tracks ==> k.WellFormed()
    ensures Carries(Taken(w, step), key, Armed(a, w, step, key))
  {
    hide PassesAmong, PassesExcept, LastOf, Counted, KeptSlots, Committed;
    match step
    case Forget(symbol) => DroppedArming(w.h, {Key(SCRAPE, Some(symbol))}, key); hide Dropped;
    case Retain(keep) => DroppedArming(w.h, Departed(w.h, keep), key); hide Dropped;
    case _ =>
  }

  function ArmedAll(a: Arming, w: World, steps: seq<Step>, key: Key): Arming
    requires Possible(w, steps)
    decreases |steps|
  {
    if steps == [] then a else ArmedAll(Armed(a, w, steps[0], key), Taken(w, steps[0]), steps[1..], key)
  }

  lemma {:induction false} RunCarries(w: World, steps: seq<Step>, key: Key, a: Arming)
    requires Possible(w, steps) && Carries(w, key, a) && key.WellFormed() && Consistent(w)
    ensures Carries(After(w, steps), key, ArmedAll(a, w, steps, key))
    decreases |steps|
  {
    hide Carries, Taken, Armed, Backed, Accounted;
    if steps != [] {
      StepKeeps(w, steps[0]);
      StepCarries(w, steps[0], key, a);
      RunCarries(Taken(w, steps[0]), steps[1..], key, Armed(a, w, steps[0], key));
    }
  }

  /**
   * Over every interleaving, the arming a key has to be stored is its latest: one noted while a flush was under way
   * wins over the one the flush gives back, and a forgotten key has none.
   */
  lemma ArmingIsLatest(rows: map<Row, Slot>, clock: int, steps: seq<Step>, key: Key)
    requires Possible(Boot(rows, clock), steps) && key.WellFormed()
    requires forall r :: r in rows ==> PlaceOf(r).key.WellFormed()
    ensures ArmingIn(After(Boot(rows, clock), steps).h.schedule, key)
         == ArmedAll(UNARMED, Boot(rows, clock), steps, key).noted
  {
    BootIsConsistent(rows, clock);
    RunCarries(Boot(rows, clock), steps, key, UNARMED);
  }

  // ---- What a landed flush leaves stored ----

  /**
   * Once a flush has landed, no row is older than the 24 hours before its drain, the rows it carried are those it
   * carried, and every other one was there before.
   */
  lemma LandedRows(w: World, airborne: seq<Step>, r: Row)
    requires Enabled(w, Drain) && Possible(Taken(w, Drain), airborne) && Quiet(airborne)
    requires Enabled(After(Taken(w, Drain), airborne), Commit)
    ensures var landed := Taken(After(Taken(w, Drain), airborne), Commit).rows;
            && (r in landed ==> r.hour > w.clock - 24)
            && (r.hour > w.clock - 24 && PlaceOf(r) in w.h.dirty && Live(w.h, PlaceOf(r)) ==>
                  r in landed && landed[r] == SlotAt(w.h, PlaceOf(r)))
            && (r in landed && !(PlaceOf(r) in w.h.dirty && Live(w.h, PlaceOf(r))) ==>
                  r in w.rows && landed[r] == w.rows[r] && !(r.job == SCRAPE && r.member in w.h.gone))
  {
    QuietChangesNothing(Taken(w, Drain), airborne);
  }
}
