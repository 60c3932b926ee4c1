/** The jobs' last 24 hours in memory, and what the next flush has to write of them. */
module JobHistory {
  import opened Basics

  const SLOTS := 24
  const RECENT := 20
  const SCRAPE := "scrape"

  /** A job, and the symbol it ran for when it runs per symbol. */
  datatype Key = Key(job: string, symbol: Option<string>) {
    /** The symbol belongs to the scrape and to nothing else, and it has a name. */
    predicate WellFormed() {
      && (job == SCRAPE <==> symbol.Some?)
      && (symbol.Some? ==> symbol.value != "")
    }

    predicate In(symbols: set<string>) {
      symbol.Some? && symbol.value in symbols
    }
  }

  datatype Outcome = Fine | Attention | Failed | Idle

  /** One pass; the log lines it captured are not part of this model. */
  datatype Pass = Pass(at: int, duration: real, outcome: Outcome, error: Option<string>)

  datatype Slot = Slot(
    passes: nat, errors: nat, attentions: nat, idles: nat, duration: real,
    lastError: Option<string>, lastErrorAt: Option<int>)

  const EMPTY_SLOT := Slot(0, 0, 0, 0, 0.0, None, None)

  datatype Track = Track(slots: map<int, Slot>, recent: seq<Pass>)

  datatype Schedule = Schedule(nextRun: Option<int>, failureCount: nat)

  /** One hourly slot's place. */
  datatype Place = Place(key: Key, hour: int)

  /** What changed since the last flush. */
  datatype Drained = Drained(
    slots: map<Place, Slot>, passes: seq<(Key, Pass)>, schedule: map<Key, Schedule>, gone: set<string>)

  /** The whole of the memory, as one value. */
  datatype History = History(
    tracks: map<Key, Track>, dirty: set<Place>, pending: seq<(Key, Pass)>,
    schedule: map<Key, Schedule>, gone: set<string>)

  function Oldest(hour: int): int {
    hour - (SLOTS - 1)
  }

  predicate Live(h: History, p: Place) {
    p.key in h.tracks && p.hour in h.tracks[p.key].slots
  }

  function SlotAt(h: History, p: Place): Slot
    requires Live(h, p)
  {
    h.tracks[p.key].slots[p.hour]
  }

  function LastOf<T>(s: seq<T>, n: nat): seq<T> {
    if |s| <= n then s else s[|s| - n..]
  }

  function TrackOf(h: History, key: Key): Track {
    if key in h.tracks then h.tracks[key] else Track(map[], [])
  }

  /** One pass counted into its slot. */
  function Counted(slot: Slot, one: Pass): Slot {
    var s := slot.(passes := slot.passes + 1, duration := slot.duration + one.duration);
    match one.outcome
    case Failed => s.(errors := slot.errors + 1, lastError := one.error, lastErrorAt := Some(one.at))
    case Attention => s.(attentions := slot.attentions + 1)
    case Idle => s.(idles := slot.idles + 1)
    case Fine => s
  }

  function KeptSlots(slots: map<int, Slot>, oldest: int): map<int, Slot> {
    map h | h in slots && h >= oldest :: slots[h]
  }

  function Recorded(h: History, key: Key, one: Pass): History {
    var hour := HourOf(one.at);
    var track := TrackOf(h, key);
    var kept := KeptSlots(track.slots, Oldest(hour));
    var slot := if hour in kept then kept[hour] else EMPTY_SLOT;
    h.(tracks := h.tracks[key := Track(kept[hour := Counted(slot, one)], LastOf(track.recent + [one], RECENT))],
       dirty := h.dirty + {Place(key, hour)},
       pending := h.pending + [(key, one)])
  }

  function PassesAmong(passes: seq<(Key, Pass)>, keys: set<Key>): seq<(Key, Pass)> {
    if passes == [] then []
    else
      var n := |passes| - 1;
      PassesAmong(passes[..n], keys) + (if passes[n].0 in keys then [passes[n]] else [])
  }

  function PassesExcept(passes: seq<(Key, Pass)>, keys: set<Key>): seq<(Key, Pass)> {
    if passes == [] then []
    else
      var n := |passes| - 1;
      PassesExcept(passes[..n], keys) + (if passes[n].0 in keys then [] else [passes[n]])
  }

  function Symbols(keys: set<Key>): set<string> {
    set k | k in keys && k.symbol.Some? :: k.symbol.value
  }

  /** The keys gone from memory, and from the store next. */
  function Dropped(h: History, keys: set<Key>): History {
    History(
      h.tracks - keys,
      (set p | p in h.dirty && p.key !in keys),
      PassesExcept(h.pending, keys),
      h.schedule - keys,
      h.gone + Symbols(keys))
  }

  function Forgotten(h: History, symbol: string): History {
    Dropped(h, {Key(SCRAPE, Some(symbol))})
  }

  /** The scrape keys a symbol list no longer names. */
  function Departed(h: History, keep: set<string>): set<Key> {
    set k | k in h.tracks && k.job == SCRAPE && !k.In(keep)
  }

  function Retained(h: History, keep: set<string>): History {
    Dropped(h, Departed(h, keep))
  }

  function BatchOf(h: History): Drained {
    Drained(map p | p in h.dirty && Live(h, p) :: SlotAt(h, p), h.pending, h.schedule, h.gone)
  }

  function Emptied(h: History): History {
    History(h.tracks, {}, [], map[], {})
  }

  /** The keys whose old batch may be written again: still tracked, and not forgotten since the drain. */
  function Alive(h: History): set<Key> {
    set k | k in h.tracks && !k.In(h.gone)
  }

  function Cap(h: History): nat {
    RECENT * (if |h.tracks| == 0 then 1 else |h.tracks|)
  }

  function Undrained(h: History, d: Drained): History {
    History(
      h.tracks,
      h.dirty + (set p | p in d.slots && p.key in Alive(h)),
      LastOf(PassesAmong(d.passes, Alive(h)) + h.pending, Cap(h)),
      (map k | k in d.schedule && !k.In(h.gone) :: d.schedule[k]) + h.schedule,
      h.gone + d.gone)
  }

  function KeysOf(slots: map<Place, Slot>): set<Key> {
    set p | p in slots :: p.key
  }

  function HoursOf(slots: map<Place, Slot>, key: Key): set<int> {
    set p | p in slots && p.key == key :: p.hour
  }

  function SlotsOf(slots: map<Place, Slot>, key: Key): map<int, Slot> {
    map h | h in HoursOf(slots, key) :: slots[Place(key, h)]
  }

  /** The tracks a store kept, in an empty memory. */
  function Loaded(slots: map<Place, Slot>): History {
    History(map k | k in KeysOf(slots) :: Track(SlotsOf(slots, k), []), {}, [], map[], {})
  }

  // ---- The object the jobs share; every method is one critical section ----

  class Memory {
    var tracks: map<Key, Track>
    var dirty: set<Place>
    var pending: seq<(Key, Pass)>
    var schedule: map<Key, Schedule>
    var gone: set<string>

    function State(): History
      reads this
    {
      History(tracks, dirty, pending, schedule, gone)
    }

    constructor ()
      ensures State() == History(map[], {}, [], map[], {})
    {
      tracks, dirty, pending, schedule, gone := map[], {}, [], map[], {};
    }

    method Record(key: Key, one: Pass)
      modifies this
      ensures State() == Recorded(old(State()), key, one)
    {
      var hour := HourOf(one.at);
      var oldest := Oldest(hour);
      var track := if key in tracks then tracks[key] else Track(map[], []);
      var slots := KeptSlots(track.slots, oldest);
      var slot := if hour in slots then slots[hour] else EMPTY_SLOT;
      slot := slot.(passes := slot.passes + 1);
      slot := slot.(duration := slot.duration + one.duration);
      match one.outcome {
        case Failed =>
          slot := slot.(errors := slot.errors + 1);
          slot := slot.(lastError := one.error, lastErrorAt := Some(one.at));
        case Attention => slot := slot.(attentions := slot.attentions + 1);
        case Idle => slot := slot.(idles := slot.idles + 1);
        case Fine =>
      }
      tracks := tracks[key := Track(slots[hour := slot], LastOf(track.recent + [one], RECENT))];
      dirty := dirty + {Place(key, hour)};
      pending := pending + [(key, one)];
    }

    method Arm(key: Key, next: Schedule)
      modifies this
      ensures State() == old(State()).(schedule := old(State()).schedule[key := next])
    {
      schedule := schedule[key := next];
    }

    method Forget(symbol: string)
      modifies this
      ensures State() == Forgotten(old(State()), symbol)
    {
      Drop(Key(SCRAPE, Some(symbol)));
    }

    method Drop(key: Key)
      modifies this
      ensures State() == Dropped(old(State()), {key})
    {
      tracks := tracks - {key};
      schedule := schedule - {key};
      dirty := set p | p in dirty && p.key != key;
      pending := PassesExcept(pending, {key});
      if key.symbol.Some? {
        gone := gone + {key.symbol.value};
      }
      assert Symbols({key}) == if key.symbol.Some? then {key.symbol.value} else {};
    }

    method Retain(keep: set<string>)
      modifies this
      ensures State() == Retained(old(State()), keep)
    {
      var todo := set k | k in tracks && k.job == SCRAPE && !k.In(keep);
      ghost var departed, dropped := todo, {};
      DroppedNothing(State());
      while todo != {}
        invariant dropped + todo == departed
        invariant State() == Dropped(old(State()), dropped)
      {
        var key := Pick(todo);
        DroppedOneMore(old(State()), dropped, key);
        Drop(key);
        todo := todo - {key};
        dropped := dropped + {key};
      }
      assert dropped == departed;
    }

    method Drain() returns (d: Drained)
      modifies this
      ensures d == BatchOf(old(State())) && State() == Emptied(old(State()))
    {
      ghost var was := State();
      var todo := dirty;
      var slots: map<Place, Slot> := map[];
      while todo != {}
        invariant todo <= dirty
        invariant State() == was
        invariant forall p :: p in slots <==> p in was.dirty - todo && Live(was, p)
        invariant forall p :: p in slots ==> slots[p] == SlotAt(was, p)
      {
        var p := Pick(todo);
        if p.key in tracks && p.hour in tracks[p.key].slots {
          slots := slots[p := tracks[p.key].slots[p.hour]];
        }
        todo := todo - {p};
      }
      assert slots == BatchOf(was).slots;
      d := Drained(slots, pending, schedule, gone);
      dirty, pending, schedule, gone := {}, [], map[], {};
    }

    method Undrain(d: Drained)
      modifies this
      ensures State() == Undrained(old(State()), d)
    {
      var alive := set k | k in tracks && !k.In(gone);
      dirty := dirty + set p | p in d.slots && p.key in alive;
      var cap := RECENT * (if |tracks| == 0 then 1 else |tracks|);
      pending := LastOf(PassesAmong(d.passes, alive) + pending, cap);
      schedule := (map k | k in d.schedule && !k.In(gone) :: d.schedule[k]) + schedule;
      gone := gone + d.gone;
    }

    method Load(slots: map<Place, Slot>)
      requires State() == History(map[], {}, [], map[], {})
      modifies this
      ensures State() == Loaded(slots)
    {
      hide Loaded;
      LoadedNothing();
      var todo := slots.Keys;
      ghost var taken: map<Place, Slot> := map[];
      while todo != {}
        invariant todo <= slots.Keys && taken == slots - todo
        invariant State() == Loaded(taken)
      {
        var p := Pick(todo);
        LoadedOneMore(taken, p, slots[p]);
        var track := if p.key in tracks then tracks[p.key] else Track(map[], []);
        tracks := tracks[p.key := track.(slots := track.slots[p.hour := slots[p]])];
        todo := todo - {p};
        taken := taken[p := slots[p]];
      }
      assert taken == slots;
    }
  }

  lemma {:induction false} ExceptTwice(passes: seq<(Key, Pass)>, a: set<Key>, b: set<Key>)
    ensures PassesExcept(PassesExcept(passes, a), b) == PassesExcept(passes, a + b)
  {
    if passes != [] {
      var n := |passes| - 1;
      ExceptTwice(passes[..n], a, b);
      var head := PassesExcept(passes[..n], a);
      if passes[n].0 in a {
        assert head + [] == head;
      } else {
        assert (head + [passes[n]])[..|head|] == head;
      }
    }
  }

  lemma {:induction false} ExceptNone(passes: seq<(Key, Pass)>)
    ensures PassesExcept(passes, {}) == passes
  {
    if passes != [] {
      var n := |passes| - 1;
      ExceptNone(passes[..n]);
      assert passes == passes[..n] + [passes[n]];
    }
  }

  lemma DroppedNothing(h: History)
    ensures Dropped(h, {}) == h
  {
    ExceptNone(h.pending);
    assert h.tracks - {} == h.tracks && h.schedule - {} == h.schedule;
    assert Symbols({}) == {};
  }

  lemma DroppedOneMore(h: History, keys: set<Key>, key: Key)
    ensures Dropped(Dropped(h, keys), {key}) == Dropped(h, keys + {key})
  {
    ExceptTwice(h.pending, keys, {key});
    assert h.tracks - keys - {key} == h.tracks - (keys + {key});
    assert h.schedule - keys - {key} == h.schedule - (keys + {key});
    assert Symbols(keys + {key}) == Symbols(keys) + Symbols({key});
  }

  lemma SlotsOfOneMore(slots: map<Place, Slot>, p: Place, slot: Slot, key: Key)
    ensures SlotsOf(slots[p := slot], key)
         == if key == p.key then SlotsOf(slots, key)[p.hour := slot] else SlotsOf(slots, key)
  {
    assert HoursOf(slots[p := slot], key) == HoursOf(slots, key) + if key == p.key then {p.hour} else {};
  }

  lemma LoadedNothing()
    ensures Loaded(map[]) == History(map[], {}, [], map[], {})
  {
  }

  lemma LoadedOneMore(slots: map<Place, Slot>, p: Place, slot: Slot)
    ensures var track := TrackOf(Loaded(slots), p.key);
            Loaded(slots[p := slot])
            == Loaded(slots).(tracks := Loaded(slots).tracks[p.key := track.(slots := track.slots[p.hour := slot])])
  {
    var l, r := Loaded(slots[p := slot]).tracks, Loaded(slots).tracks;
    var track := TrackOf(Loaded(slots), p.key);
    hide SlotsOf;
    assert KeysOf(slots[p := slot]) == KeysOf(slots) + {p.key};
    SlotsOfOneMore(slots, p, slot, p.key);
    NoSlots(slots, p.key);
    forall k | k in l && k != p.key ensures k in r && l[k] == r[k] {
      SlotsOfOneMore(slots, p, slot, k);
    }
    assert l == r[p.key := track.(slots := track.slots[p.hour := slot])];
  }

  lemma NoSlots(slots: map<Place, Slot>, key: Key)
    ensures key !in KeysOf(slots) ==> SlotsOf(slots, key) == map[]
  {
  }
}
