/** The one writer of the ledger: the dry run and the write, and the lines a batch repeats. */
module Entries {
  import opened Basics
  import opened Ledger
  import opened Aggregator

  // ---- Settling a draft ----

  function NameFor(draft: Event, symbol: Option<string>, known: map<string, string>): Option<string> {
    if draft.name.Some? && draft.name.value != [] then draft.name
    else if symbol.Some? && symbol.value in known then Some(known[symbol.value])
    else None
  }

  function Settled(draft: Event, known: map<string, string>): Event {
    var symbol := Canonical(draft.symbol);
    draft.(account := TrimmedAccount(draft.account), symbol := symbol,
           name := NameFor(draft, symbol, known), id := None)
  }

  /** The names known once a settled event has been read. */
  function Learned(known: map<string, string>, e: Event): map<string, string> {
    if e.symbol.Some? && e.name.Some? && e.name.value != [] then known[e.symbol.value := e.name.value] else known
  }

  function KnownAfter(drafts: seq<Event>, known: map<string, string>): map<string, string> {
    if drafts == [] then known
    else
      var n := |drafts| - 1;
      var before := KnownAfter(drafts[..n], known);
      Learned(before, Settled(drafts[n], before))
  }

  function SettledAll(drafts: seq<Event>, known: map<string, string>): (s: seq<Event>)
    ensures |s| == |drafts|
  {
    if drafts == [] then []
    else
      var n := |drafts| - 1;
      SettledAll(drafts[..n], known) + [Settled(drafts[n], KnownAfter(drafts[..n], known))]
  }

  method SettleAll(drafts: seq<Event>, names: map<string, string>) returns (settled: seq<Event>)
    ensures settled == SettledAll(drafts, names)
  {
    var known := names;
    settled := [];
    for i := 0 to |drafts|
      invariant known == KnownAfter(drafts[..i], names) && settled == SettledAll(drafts[..i], names)
    {
      assert drafts[..i + 1][..i] == drafts[..i];
      var event := Settled(drafts[i], known);
      if event.symbol.Some? && event.name.Some? && event.name.value != [] {
        known := known[event.symbol.value := event.name.value];
      }
      settled := settled + [event];
    }
    assert drafts[..|drafts|] == drafts;
  }

  // ---- What makes two lines the same ----

  datatype Key = Key(
    date: int, kind: Kind, account: string, symbol: Option<string>,
    quantity: Option<real>, unitPrice: Option<real>, fee: Option<real>, amount: Option<real>)

  function ContentKey(e: Event): Key {
    Key(e.date, e.kind, NamedAccount(TrimmedAccount(e.account)), Canonical(e.symbol), e.quantity, e.unitPrice, e.fee,
        e.amount)
  }

  /** A settled event as a row. */
  function Stored(e: Event, id: nat): Event {
    e.(id := Some(id), account := Some(NamedAccount(e.account)))
  }

  /** Settling and storing a line keeps it the same line. */
  lemma StoredIsSame(draft: Event, known: map<string, string>, id: nat)
    ensures ContentKey(Stored(Settled(draft, known), id)) == ContentKey(draft)
  {
    CanonicalIsIdempotent(draft.symbol);
    AccountIsSettled(draft.account);
  }

  lemma {:induction false} SettledAt(drafts: seq<Event>, known: map<string, string>, i: nat)
    requires i < |drafts|
    ensures SettledAll(drafts, known)[i] == Settled(drafts[i], KnownAfter(drafts[..i], known))
  {
    hide Settled, KnownAfter;
    var n := |drafts| - 1;
    if i < n {
      SettledAt(drafts[..n], known, i);
      assert drafts[..n][..i] == drafts[..i];
    }
  }

  // ---- What settling makes of each line ----

  predicate Names(e: Event, symbol: string) {
    e.symbol == Some(symbol) && e.name.Some? && e.name.value != []
  }

  /** The last line before one to have given a symbol a name. */
  predicate IsLastNamed(settled: seq<Event>, n: nat, symbol: string, k: int) {
    n <= |settled| && 0 <= k < n && Names(settled[k], symbol) && forall l :: k < l < n ==> !Names(settled[l], symbol)
  }

  /** What the ledger, then the lines read so far, call a symbol. */
  ghost predicate IsCalled(settled: seq<Event>, n: nat, names: map<string, string>, symbol: string,
                           name: Option<string>)
    requires n <= |settled|
  {
    || (exists k :: IsLastNamed(settled, n, symbol, k) && name == settled[k].name)
    || (&& (forall k :: 0 <= k < n ==> !Names(settled[k], symbol))
        && name == if symbol in names then Some(names[symbol]) else None)
  }

  lemma {:induction false} KnownIsCalled(drafts: seq<Event>, names: map<string, string>, symbol: string)
    ensures var known := KnownAfter(drafts, names);
            IsCalled(SettledAll(drafts, names), |drafts|, names, symbol,
                     if symbol in known then Some(known[symbol]) else None)
  {
    hide Settled;
    if drafts != [] {
      var n := |drafts| - 1;
      KnownIsCalled(drafts[..n], names, symbol);
      var before, settled := SettledAll(drafts[..n], names), SettledAll(drafts, names);
      assert settled[..n] == before;
      if Names(settled[n], symbol) {
        assert IsLastNamed(settled, n + 1, symbol, n);
      } else if k :| IsLastNamed(before, n, symbol, k) {
        assert forall l :: 0 <= l < n ==> settled[l] == before[l];
        assert IsLastNamed(settled, n + 1, symbol, k);
      } else {
        assert forall l :: 0 <= l < n ==> settled[l] == before[l];
      }
    }
  }

  /**
   * A settled line is its draft, its account trimmed, its symbol in its one spelling, without a key; and called what it
   * says, else what the last line before it to name its symbol said, else what the ledger calls it.
   */
  lemma SettledTells(drafts: seq<Event>, names: map<string, string>, i: nat)
    requires i < |drafts|
    ensures var settled := SettledAll(drafts, names);
            var d, e := drafts[i], settled[i];
            && e == d.(account := TrimmedAccount(d.account), symbol := Canonical(d.symbol), name := e.name, id := None)
            && (d.name.Some? && d.name.value != [] ==> e.name == d.name)
            && (d.name.None? || d.name.value == [] ==>
                  if e.symbol.None? then e.name.None? else IsCalled(settled, i, names, e.symbol.value, e.name))
  {
    hide Canonical, TrimmedAccount, SettledAll, KnownAfter, IsCalled;
    SettledAt(drafts, names, i);
    SettledPrefix(drafts, names, i);
    var symbol, known := Canonical(drafts[i].symbol), KnownAfter(drafts[..i], names);
    if symbol.Some? {
      KnownIsCalled(drafts[..i], names, symbol.value);
      CalledInPrefix(SettledAll(drafts[..i], names), SettledAll(drafts, names), i, names, symbol.value,
                     if symbol.value in known then Some(known[symbol.value]) else None);
    }
  }

  lemma {:induction false} SettledPrefix(drafts: seq<Event>, names: map<string, string>, i: nat)
    requires i <= |drafts|
    ensures SettledAll(drafts, names)[..i] == SettledAll(drafts[..i], names)
  {
    hide Settled, KnownAfter;
    if i < |drafts| {
      var n := |drafts| - 1;
      SettledPrefix(drafts[..n], names, i);
      assert drafts[..n][..i] == drafts[..i];
    } else {
      assert drafts[..i] == drafts;
    }
  }

  lemma CalledInPrefix(part: seq<Event>, whole: seq<Event>, n: nat, names: map<string, string>, symbol: string,
                       name: Option<string>)
    requires n == |part| <= |whole| && whole[..n] == part && IsCalled(part, n, names, symbol, name)
    ensures IsCalled(whole, n, names, symbol, name)
  {
    assert forall k :: 0 <= k < n ==> whole[k] == part[k];
    if k :| IsLastNamed(part, n, symbol, k) && name == part[k].name {
      assert IsLastNamed(whole, n, symbol, k);
    }
  }

  // ---- The stable sort the dry run replays in ----

  predicate DateOrdered(events: seq<Event>) {
    forall i, j :: 0 <= i < j < |events| ==> events[i].date <= events[j].date
  }

  /** After every event of its date or before. */
  function Inserted(events: seq<Event>, e: Event): (r: seq<Event>)
    ensures |r| == |events| + 1
    ensures forall x :: x in r <==> x in events || x == e
  {
    if events == [] || events[|events| - 1].date <= e.date then events + [e]
    else
      var n := |events| - 1;
      var r := Inserted(events[..n], e) + [events[n]];
      assert events == events[..n] + [events[n]];
      r
  }

  function SortedByDate(events: seq<Event>): (r: seq<Event>)
    ensures |r| == |events|
  {
    if events == [] then [] else Inserted(SortedByDate(events[..|events| - 1]), events[|events| - 1])
  }

  /** The events of one date, in their order. */
  function OnDate(events: seq<Event>, date: int): seq<Event> {
    if events == [] then []
    else
      var last := events[|events| - 1];
      OnDate(events[..|events| - 1], date) + (if last.date == date then [last] else [])
  }

  lemma InsertedStep(events: seq<Event>, e: Event)
    ensures Inserted(events, e)
         == if events == [] || events[|events| - 1].date <= e.date then events + [e]
            else Inserted(events[..|events| - 1], e) + [events[|events| - 1]]
  {
  }

  lemma {:induction false} InsertedIsStable(events: seq<Event>, e: Event, date: int)
    requires DateOrdered(events)
    ensures DateOrdered(Inserted(events, e))
    ensures OnDate(Inserted(events, e), date) == OnDate(events, date) + (if e.date == date then [e] else [])
  {
    hide OnDate, Inserted;
    InsertedStep(events, e);
    var r := Inserted(events, e);
    LastOnDate(r, date);
    if events == [] || events[|events| - 1].date <= e.date {
      assert r[..|events|] == events;
    } else {
      var n := |events| - 1;
      InsertedIsStable(events[..n], e, date);
      var before := Inserted(events[..n], e);
      assert r[..n + 1] == before;
      forall i | 0 <= i < |before| ensures before[i].date <= events[n].date {
        assert before[i] in before;
      }
      LastOnDate(events, date);
    }
  }

  lemma LastOnDate(events: seq<Event>, date: int)
    requires events != []
    ensures var last := events[|events| - 1];
            OnDate(events, date) == OnDate(events[..|events| - 1], date) + (if last.date == date then [last] else [])
  {
  }

  /** The sort is by date and stable: every date keeps its events in their order. */
  lemma {:induction false} SortIsStable(events: seq<Event>, date: int)
    ensures DateOrdered(SortedByDate(events)) && OnDate(SortedByDate(events), date) == OnDate(events, date)
  {
    if events != [] {
      var n := |events| - 1;
      SortIsStable(events[..n], date);
      InsertedIsStable(SortedByDate(events[..n]), events[n], date);
    }
  }

  lemma {:induction false} SortedAlready(events: seq<Event>)
    requires DateOrdered(events)
    ensures SortedByDate(events) == events
  {
    if events != [] {
      SortedAlready(events[..|events| - 1]);
    }
  }

  // ---- The sort against the read order ----

  predicate Above(rows: map<nat, Event>, next: nat) {
    forall id :: id in rows ==> id < next
  }

  /** A row of a key above all others goes where the stable sort puts it. */
  lemma {:induction false} InsertedIsRead(events: seq<Event>, rows: map<nat, Event>, e: Event, id: nat)
    requires IsReadOrder(events, rows) && Keyed(rows) && Above(rows, id) && e.id == Some(id)
    ensures IsReadOrder(Inserted(events, e), rows[id := e])
  {
    var r, rows' := Inserted(events, e), rows[id := e];
    if events == [] || events[|events| - 1].date <= e.date {
      forall i | 0 <= i < |events| ensures Precedes(events[i], e) && IsRow(events[i], rows') {
        assert IsRow(events[i], rows);
        assert i < |events| - 1 ==> Precedes(events[i], events[|events| - 1]);
      }
      forall k | k in rows' ensures rows'[k] in r {
      }
    } else {
      var n := |events| - 1;
      var last := events[n];
      assert IsRow(last, rows);
      WithoutLast(events, rows);
      var rest := rows - {last.id.value};
      InsertedIsRead(events[..n], rest, e, id);
      InsertedBeforeLast(events, rows, e, id);
    }
  }

  lemma InsertedBeforeLast(events: seq<Event>, rows: map<nat, Event>, e: Event, id: nat)
    requires IsReadOrder(events, rows) && Keyed(rows) && Above(rows, id) && e.id == Some(id)
    requires events != [] && e.date < events[|events| - 1].date && IsRow(events[|events| - 1], rows)
    requires IsReadOrder(Inserted(events[..|events| - 1], e), (rows - {events[|events| - 1].id.value})[id := e])
    ensures IsReadOrder(Inserted(events, e), rows[id := e])
  {
    var n := |events| - 1;
    var last, before := events[n], Inserted(events[..n], e);
    var key := last.id.value;
    var rest, rows' := (rows - {key})[id := e], rows[id := e];
    InsertedStep(events, e);
    hide Inserted, IsReadOrder, Keyed;
    assert key != id && rows' == rest[key := last];
    forall x | x in before ensures Precedes(x, last) {
      InsertedPrecede(events, rows, e, x);
    }
    LastAdded(before, rest, last);
  }

  lemma InsertedPrecede(events: seq<Event>, rows: map<nat, Event>, e: Event, x: Event)
    requires IsReadOrder(events, rows) && events != [] && e.id.Some? && e.date < events[|events| - 1].date
    requires x in Inserted(events[..|events| - 1], e)
    ensures Precedes(x, events[|events| - 1])
  {
    var n := |events| - 1;
    assert IsRow(events[n], rows);
    if x != e {
      var j :| 0 <= j < n && events[..n][j] == x;
      assert Precedes(events[j], events[n]);
    }
  }

  lemma LastAdded(before: seq<Event>, rest: map<nat, Event>, last: Event)
    requires IsReadOrder(before, rest) && last.id.Some? && last.id.value !in rest
    requires forall x :: x in before ==> Precedes(x, last)
    ensures IsReadOrder(before + [last], rest[last.id.value := last])
  {
    var all, rows := before + [last], rest[last.id.value := last];
    forall i | 0 <= i < |all| ensures IsRow(all[i], rows) {
      assert i < |before| ==> IsRow(before[i], rest);
    }
    forall id | id in rows ensures rows[id] in all {
    }
    assert forall i :: 0 <= i < |before| ==> before[i] in before;
  }

  /** Rows appended to a table under rising keys. */
  function Appended(rows: map<nat, Event>, settled: seq<Event>, next: nat): map<nat, Event> {
    if settled == [] then rows
    else
      var n := |settled| - 1;
      Appended(rows, settled[..n], next)[next + n := Stored(settled[n], next + n)]
  }

  function StoredAll(settled: seq<Event>, next: nat): (s: seq<Event>)
    ensures |s| == |settled| && forall i :: 0 <= i < |s| ==> s[i] == Stored(settled[i], next + i)
  {
    seq(|settled|, i requires 0 <= i < |settled| => Stored(settled[i], next + i))
  }

  lemma {:induction false} AppendedIsKeyed(rows: map<nat, Event>, settled: seq<Event>, next: nat)
    requires Keyed(rows) && Above(rows, next)
    ensures var r := Appended(rows, settled, next);
            && Keyed(r) && Above(r, next + |settled|)
            && forall id :: id in rows ==> id in r && r[id] == rows[id]
  {
    if settled != [] {
      AppendedIsKeyed(rows, settled[..|settled| - 1], next);
    }
  }

  lemma {:induction false} AppendedAt(rows: map<nat, Event>, settled: seq<Event>, next: nat, i: nat)
    requires i < |settled|
    ensures var r := Appended(rows, settled, next); next + i in r && r[next + i] == Stored(settled[i], next + i)
  {
    var n := |settled| - 1;
    if i < n {
      AppendedAt(rows, settled[..n], next, i);
    }
  }

  /** The ledger read back after a write is the stable date sort of what was read before and what was written. */
  lemma {:induction false} WriteIsSorted(events: seq<Event>, rows: map<nat, Event>, settled: seq<Event>, next: nat)
    requires IsReadOrder(events, rows) && Keyed(rows) && Above(rows, next)
    ensures IsReadOrder(SortedByDate(events + StoredAll(settled, next)), Appended(rows, settled, next))
  {
    hide IsReadOrder, Keyed, Above, SortedByDate, Appended, Stored;
    if settled == [] {
      assert events + StoredAll(settled, next) == events;
      ReadIsDateOrdered(events, rows);
      SortedAlready(events);
      AppendedStep(rows, settled, next);
    } else {
      var n := |settled| - 1;
      WriteIsSorted(events, rows, settled[..n], next);
      AppendedIsKeyed(rows, settled[..n], next);
      var all, before := events + StoredAll(settled, next), events + StoredAll(settled[..n], next);
      assert all[..|all| - 1] == before;
      SortedStep(all);
      AppendedStep(rows, settled, next);
      StoredId(settled[n], next + n);
      InsertedIsRead(SortedByDate(before), Appended(rows, settled[..n], next), Stored(settled[n], next + n), next + n);
    }
  }

  lemma StoredId(e: Event, id: nat)
    ensures Stored(e, id).id == Some(id)
  {
  }

  lemma SortedStep(events: seq<Event>)
    requires events != []
    ensures SortedByDate(events) == Inserted(SortedByDate(events[..|events| - 1]), events[|events| - 1])
  {
  }

  lemma AppendedStep(rows: map<nat, Event>, settled: seq<Event>, next: nat)
    ensures settled == [] ==> Appended(rows, settled, next) == rows
    ensures settled != [] ==>
              var n := |settled| - 1;
              Appended(rows, settled, next)
              == Appended(rows, settled[..n], next)[next + n := Stored(settled[n], next + n)]
  {
  }

  lemma ReadIsDateOrdered(events: seq<Event>, rows: map<nat, Event>)
    requires IsReadOrder(events, rows)
    ensures DateOrdered(events)
  {
    forall i, j | 0 <= i < j < |events| ensures events[i].date <= events[j].date {
      assert Precedes(events[i], events[j]);
    }
  }

  // ---- Keys aside ----

  function WouldBe(settled: seq<Event>): (s: seq<Event>)
    ensures |s| == |settled|
    ensures forall i :: 0 <= i < |s| ==> s[i] == settled[i].(account := Some(NamedAccount(settled[i].account)))
  {
    seq(|settled|, i requires 0 <= i < |settled| => settled[i].(account := Some(NamedAccount(settled[i].account))))
  }

  predicate SameAside(a: seq<Event>, b: seq<Event>) {
    |a| == |b| && forall i :: 0 <= i < |a| ==> SameBut(a[i], b[i])
  }

  lemma {:induction false} InsertedAside(a: seq<Event>, b: seq<Event>, e: Event, f: Event)
    requires SameAside(a, b) && SameBut(e, f)
    ensures SameAside(Inserted(a, e), Inserted(b, f))
  {
    if a != [] {
      var n := |a| - 1;
      assert SameBut(a[n], b[n]);
      if a[n].date > e.date {
        InsertedAside(a[..n], b[..n], e, f);
      }
    }
  }

  lemma {:induction false} SortedAside(a: seq<Event>, b: seq<Event>)
    requires SameAside(a, b)
    ensures SameAside(SortedByDate(a), SortedByDate(b))
  {
    if a != [] {
      var n := |a| - 1;
      SortedAside(a[..n], b[..n]);
      assert SameBut(a[n], b[n]);
      InsertedAside(SortedByDate(a[..n]), SortedByDate(b[..n]), a[n], b[n]);
    }
  }

  /** The dry run replays, keys aside, exactly what is read back after the write. */
  lemma DryRunReadsTheWrite(events: seq<Event>, rows: map<nat, Event>, settled: seq<Event>, next: nat,
                            after: seq<Event>)
    requires IsReadOrder(events, rows) && Keyed(rows) && Above(rows, next)
    requires IsReadOrder(after, Appended(rows, settled, next))
    ensures SameAside(SortedByDate(events + WouldBe(settled)), after)
  {
    WriteIsSorted(events, rows, settled, next);
    AppendedIsKeyed(rows, settled, next);
    OneReadOrder(after, SortedByDate(events + StoredAll(settled, next)), Appended(rows, settled, next));
    SortedAside(events + WouldBe(settled), events + StoredAll(settled, next));
  }

  /** So it refuses and accepts the same ledgers. */
  lemma DryRunAgrees(events: seq<Event>, rows: map<nat, Event>, settled: seq<Event>, next: nat, after: seq<Event>)
    requires IsReadOrder(events, rows) && Keyed(rows) && Above(rows, next)
    requires IsReadOrder(after, Appended(rows, settled, next))
    ensures Replays(SortedByDate(events + WouldBe(settled))) <==> Replays(after)
  {
    DryRunReadsTheWrite(events, rows, settled, next, after);
    var dry := SortedByDate(events + WouldBe(settled));
    forall account, symbol ensures PositionOf(dry, account, symbol) == PositionOf(after, account, symbol) {
      KeysDoNotCount(dry, after, account, symbol);
    }
  }

  // ---- Splitting a batch ----

  function KeysOf(rows: map<nat, Event>): set<Key> {
    set id | id in rows :: ContentKey(rows[id])
  }

  /** The first line of a batch that a line repeats, itself when it repeats none. */
  function FirstCopy(drafts: seq<Event>, i: nat): (j: nat)
    requires i < |drafts|
    ensures j <= i && ContentKey(drafts[j]) == ContentKey(drafts[i])
    ensures forall k :: 0 <= k < j ==> ContentKey(drafts[k]) != ContentKey(drafts[i])
  {
    FirstFrom(drafts, i, 0)
  }

  function FirstFrom(drafts: seq<Event>, i: nat, from: nat): (j: nat)
    requires from <= i < |drafts|
    requires forall k :: 0 <= k < from ==> ContentKey(drafts[k]) != ContentKey(drafts[i])
    ensures from <= j <= i && ContentKey(drafts[j]) == ContentKey(drafts[i])
    ensures forall k :: 0 <= k < j ==> ContentKey(drafts[k]) != ContentKey(drafts[i])
    decreases i - from
  {
    if ContentKey(drafts[from]) == ContentKey(drafts[i]) then from else FirstFrom(drafts, i, from + 1)
  }

  /** A line is written when it is new, or when its held or repeated kind is asked for. */
  predicate Kept(drafts: seq<Event>, held: set<Key>, writeHeld: bool, writeRepeats: set<nat>, i: nat)
    requires i < |drafts|
  {
    if ContentKey(drafts[i]) in held then writeHeld
    else FirstCopy(drafts, i) == i || FirstCopy(drafts, i) in writeRepeats
  }

  datatype Duplicate = Duplicate(event: Event, held: Option<Event>, index: nat, repeatOf: Option<nat>)

  function FreshOf(drafts: seq<Event>, held: set<Key>, writeHeld: bool, writeRepeats: set<nat>, n: nat): seq<Event>
    requires n <= |drafts|
  {
    if n == 0 then []
    else
      FreshOf(drafts, held, writeHeld, writeRepeats, n - 1)
      + (if Kept(drafts, held, writeHeld, writeRepeats, n - 1) then [drafts[n - 1]] else [])
  }

  /** A line whose repeats the batch holds, not being held itself: what an answer about repeats may name. */
  ghost predicate Repeated(drafts: seq<Event>, held: set<Key>, i: nat) {
    i < |drafts| && ContentKey(drafts[i]) !in held && exists j: nat :: RepeatsAt(drafts, i, j)
  }

  predicate RepeatsAt(drafts: seq<Event>, i: nat, j: nat) {
    i < j < |drafts| && FirstCopy(drafts, j) == i
  }

  /** The skipped lines: each one held by a row of its key, or repeating its first copy; in order, and nothing else. */
  predicate SkippedOk(duplicates: seq<Duplicate>, drafts: seq<Event>, rows: map<nat, Event>, writeHeld: bool,
                      writeRepeats: set<nat>, n: nat)
    requires n <= |drafts|
  {
    && (forall k, l :: 0 <= k < l < |duplicates| ==> duplicates[k].index < duplicates[l].index)
    && (forall k :: 0 <= k < |duplicates| ==>
          duplicates[k].index < n && SkipOk(duplicates[k], drafts, rows, writeHeld, writeRepeats))
    && forall i :: 0 <= i < n && !Kept(drafts, KeysOf(rows), writeHeld, writeRepeats, i) ==>
         exists k :: 0 <= k < |duplicates| && duplicates[k].index == i
  }

  predicate SkipOk(d: Duplicate, drafts: seq<Event>, rows: map<nat, Event>, writeHeld: bool, writeRepeats: set<nat>) {
    && d.index < |drafts| && d.event == drafts[d.index] && !Kept(drafts, KeysOf(rows), writeHeld, writeRepeats, d.index)
    && if d.held.Some? then
         d.repeatOf.None? && IsRow(d.held.value, rows) && ContentKey(d.held.value) == ContentKey(d.event)
       else
         && ContentKey(d.event) !in KeysOf(rows)
         && d.repeatOf == Some(FirstCopy(drafts, d.index)) && FirstCopy(drafts, d.index) < d.index
  }

  // The split, line by line.

  /** The first copies of the keys read so far that the ledger does not hold. */
  ghost predicate FirstsOk(first: map<Key, nat>, drafts: seq<Event>, held: set<Key>, n: nat) {
    && n <= |drafts|
    && (forall k :: k in first ==> first[k] < n && ContentKey(drafts[first[k]]) == k && k !in held
                                   && FirstCopy(drafts, first[k]) == first[k])
    && forall j :: 0 <= j < n && ContentKey(drafts[j]) !in held ==> ContentKey(drafts[j]) in first
  }

  ghost predicate RepeatsOk(repeated: set<nat>, drafts: seq<Event>, held: set<Key>, n: nat) {
    && n <= |drafts|
    && forall j: nat ::
         j in repeated <==> j < |drafts| && ContentKey(drafts[j]) !in held && RepeatedBefore(drafts, j, n)
  }

  ghost predicate RepeatedBefore(drafts: seq<Event>, j: nat, n: nat) {
    exists k: nat :: k < n && RepeatsAt(drafts, j, k)
  }

  lemma FirstsStep(first: map<Key, nat>, drafts: seq<Event>, held: set<Key>, i: nat)
    requires i < |drafts| && FirstsOk(first, drafts, held, i)
    ensures var same := ContentKey(drafts[i]);
            if same in held then FirstsOk(first, drafts, held, i + 1)
            else if same in first then FirstsOk(first, drafts, held, i + 1) && FirstCopy(drafts, i) == first[same] < i
            else FirstCopy(drafts, i) == i && FirstsOk(first[same := i], drafts, held, i + 1)
  {
    hide ContentKey;
    var same := ContentKey(drafts[i]);
    if same !in held && same in first {
      var f := first[same];
      assert ContentKey(drafts[FirstCopy(drafts, i)]) == same;
      assert FirstCopy(drafts, i) <= f;
      assert FirstCopy(drafts, f) == f;
    }
  }

  lemma RepeatsStep(repeated: set<nat>, first: map<Key, nat>, drafts: seq<Event>, held: set<Key>, i: nat)
    requires i < |drafts| && FirstsOk(first, drafts, held, i) && RepeatsOk(repeated, drafts, held, i)
    ensures var same := ContentKey(drafts[i]);
            if same !in held && same in first then RepeatsOk(repeated + {first[same]}, drafts, held, i + 1)
            else RepeatsOk(repeated, drafts, held, i + 1)
  {
    hide ContentKey, FirstCopy, RepeatedBefore, FirstsOk;
    FirstsStep(first, drafts, held, i);
    var same := ContentKey(drafts[i]);
    forall j: nat | j < |drafts|
      ensures RepeatedBefore(drafts, j, i + 1) <==> RepeatedBefore(drafts, j, i) || (j == FirstCopy(drafts, i) && j < i)
    {
      RepeatedStep(drafts, j, i);
    }
  }

  lemma RepeatedStep(drafts: seq<Event>, j: nat, i: nat)
    requires i < |drafts|
    ensures RepeatedBefore(drafts, j, i + 1) <==> RepeatedBefore(drafts, j, i) || (j == FirstCopy(drafts, i) && j < i)
  {
    hide FirstCopy;
    assert RepeatsAt(drafts, j, i) <==> j == FirstCopy(drafts, i) && j < i;
    if RepeatedBefore(drafts, j, i) {
      var k: nat :| k < i && RepeatsAt(drafts, j, k);
      assert RepeatedBefore(drafts, j, i + 1);
    }
  }

  lemma RepeatsAll(repeated: set<nat>, drafts: seq<Event>, held: set<Key>)
    requires RepeatsOk(repeated, drafts, held, |drafts|)
    ensures forall j: nat :: j in repeated <==> Repeated(drafts, held, j)
  {
    hide ContentKey;
    forall j: nat | j < |drafts|
      ensures RepeatedBefore(drafts, j, |drafts|) <==> exists k: nat :: RepeatsAt(drafts, j, k)
    {
    }
  }

  /** The names an answer may not use: those of no line the batch repeats. */
  lemma UnknownAre(named: set<nat>, repeated: set<nat>, drafts: seq<Event>, held: set<Key>)
    requires forall j: nat :: j in repeated <==> Repeated(drafts, held, j)
    ensures named - repeated == set i | i in named && !Repeated(drafts, held, i)
    ensures named - repeated != {} <==> exists i :: i in named && !Repeated(drafts, held, i)
  {
    hide Repeated;
    if named - repeated != {} {
      var i :| i in named - repeated;
      assert i in named && !Repeated(drafts, held, i);
    }
    if i :| i in named && !Repeated(drafts, held, i) {
      assert i in named - repeated;
    }
  }

  lemma NothingSplit(drafts: seq<Event>, rows: map<nat, Event>, writeHeld: bool, writeRepeats: set<nat>)
    ensures FirstsOk(map[], drafts, KeysOf(rows), 0) && RepeatsOk({}, drafts, KeysOf(rows), 0)
    ensures FreshOf(drafts, KeysOf(rows), writeHeld, writeRepeats, 0) == []
    ensures SkippedOk([], drafts, rows, writeHeld, writeRepeats, 0)
  {
  }

  /** One more line: written when it is kept, skipped when it is not. */
  lemma SplitStep(duplicates: seq<Duplicate>, drafts: seq<Event>, rows: map<nat, Event>, writeHeld: bool,
                  writeRepeats: set<nat>, i: nat)
    requires i < |drafts| && SkippedOk(duplicates, drafts, rows, writeHeld, writeRepeats, i)
    ensures var keys := KeysOf(rows);
            var kept := FreshOf(drafts, keys, writeHeld, writeRepeats, i);
            if Kept(drafts, keys, writeHeld, writeRepeats, i) then
              && FreshOf(drafts, keys, writeHeld, writeRepeats, i + 1) == kept + [drafts[i]]
              && SkippedOk(duplicates, drafts, rows, writeHeld, writeRepeats, i + 1)
            else
              && FreshOf(drafts, keys, writeHeld, writeRepeats, i + 1) == kept
              && forall d: Duplicate :: d.index == i && SkipOk(d, drafts, rows, writeHeld, writeRepeats)
                   ==> SkippedOk(duplicates + [d], drafts, rows, writeHeld, writeRepeats, i + 1)
    ensures Kept(drafts, KeysOf(rows), writeHeld, writeRepeats, i)
       <==> if ContentKey(drafts[i]) in KeysOf(rows) then writeHeld
            else FirstCopy(drafts, i) == i || FirstCopy(drafts, i) in writeRepeats
  {
    hide SkipOk, ContentKey, FirstCopy;
    if !Kept(drafts, KeysOf(rows), writeHeld, writeRepeats, i) {
      forall d: Duplicate | d.index == i && SkipOk(d, drafts, rows, writeHeld, writeRepeats)
        ensures SkippedOk(duplicates + [d], drafts, rows, writeHeld, writeRepeats, i + 1)
      {
        SkippedGrows(duplicates, d, drafts, rows, writeHeld, writeRepeats, i);
      }
    }
  }

  lemma SkippedGrows(duplicates: seq<Duplicate>, d: Duplicate, drafts: seq<Event>, rows: map<nat, Event>,
                     writeHeld: bool, writeRepeats: set<nat>, i: nat)
    requires i < |drafts| && SkippedOk(duplicates, drafts, rows, writeHeld, writeRepeats, i)
    requires d.index == i && SkipOk(d, drafts, rows, writeHeld, writeRepeats)
    ensures SkippedOk(duplicates + [d], drafts, rows, writeHeld, writeRepeats, i + 1)
  {
    hide SkipOk, Kept;
    var all := duplicates + [d];
    forall j | 0 <= j < i + 1 && !Kept(drafts, KeysOf(rows), writeHeld, writeRepeats, j)
      ensures exists k :: 0 <= k < |all| && all[k].index == j
    {
      if j < i {
        var k :| 0 <= k < |duplicates| && duplicates[k].index == j;
        assert all[k] == duplicates[k];
      } else {
        assert all[|duplicates|].index == j;
      }
    }
  }

  lemma SkippedHeld(drafts: seq<Event>, rows: map<nat, Event>, writeHeld: bool, writeRepeats: set<nat>, i: nat,
                    row: Event)
    requires i < |drafts| && !writeHeld && IsRow(row, rows) && ContentKey(row) == ContentKey(drafts[i])
    requires ContentKey(drafts[i]) in KeysOf(rows)
    ensures SkipOk(Duplicate(drafts[i], Some(row), i, None), drafts, rows, writeHeld, writeRepeats)
  {
  }

  lemma SkippedRepeat(drafts: seq<Event>, rows: map<nat, Event>, writeHeld: bool, writeRepeats: set<nat>, i: nat)
    requires i < |drafts| && ContentKey(drafts[i]) !in KeysOf(rows)
    requires FirstCopy(drafts, i) < i && FirstCopy(drafts, i) !in writeRepeats
    ensures SkipOk(Duplicate(drafts[i], None, i, Some(FirstCopy(drafts, i))), drafts, rows, writeHeld, writeRepeats)
  {
  }

  // ---- The split, told field by field ----

  /** Two lines that say the same: their account as it is stored, their symbol as it is spelled, all else as it is. */
  predicate SameLine(a: Event, b: Event) {
    && a.date == b.date && a.kind == b.kind
    && NamedAccount(TrimmedAccount(a.account)) == NamedAccount(TrimmedAccount(b.account))
    && Canonical(a.symbol) == Canonical(b.symbol)
    && a.quantity == b.quantity && a.unitPrice == b.unitPrice && a.fee == b.fee && a.amount == b.amount
  }

  ghost predicate IsHeld(e: Event, rows: map<nat, Event>) {
    exists id :: id in rows && SameLine(rows[id], e)
  }

  /** The first line of the batch to say what this one says. */
  predicate IsFirst(drafts: seq<Event>, i: nat, j: nat) {
    && i <= j < |drafts| && SameLine(drafts[i], drafts[j])
    && forall k :: 0 <= k < i ==> !SameLine(drafts[k], drafts[j])
  }

  /** What the answer decides of one line. */
  ghost predicate IsSkipped(drafts: seq<Event>, rows: map<nat, Event>, writeHeld: bool, writeRepeats: set<nat>, j: nat)
    requires j < |drafts|
  {
    if IsHeld(drafts[j], rows) then !writeHeld
    else exists i: nat :: i < j && IsFirst(drafts, i, j) && i !in writeRepeats
  }

  /** A skipped line says what the row or the earlier line beside it says. */
  predicate SkipTells(d: Duplicate, drafts: seq<Event>, rows: map<nat, Event>) {
    && d.index < |drafts| && d.event == drafts[d.index]
    && match d.held
       case Some(row) => IsRow(row, rows) && SameLine(row, d.event) && d.repeatOf.None?
       case None => d.repeatOf.Some? && d.repeatOf.value < d.index && IsFirst(drafts, d.repeatOf.value, d.index)
  }

  predicate SkipsAt(duplicates: seq<Duplicate>, i: nat) {
    exists k :: 0 <= k < |duplicates| && duplicates[k].index == i
  }

  /** The lines not skipped, in their order. */
  function Others(drafts: seq<Event>, duplicates: seq<Duplicate>, n: nat): seq<Event>
    requires n <= |drafts|
  {
    if n == 0 then []
    else Others(drafts, duplicates, n - 1) + (if SkipsAt(duplicates, n - 1) then [] else [drafts[n - 1]])
  }

  ghost predicate SplitTells(written: seq<Event>, duplicates: seq<Duplicate>, drafts: seq<Event>, rows: map<nat, Event>,
                             writeHeld: bool, writeRepeats: set<nat>)
  {
    && (forall k :: 0 <= k < |duplicates| ==> SkipTells(duplicates[k], drafts, rows))
    && (forall k, l :: 0 <= k < l < |duplicates| ==> duplicates[k].index < duplicates[l].index)
    && (forall j: nat :: j < |drafts| ==>
          (SkipsAt(duplicates, j) <==> IsSkipped(drafts, rows, writeHeld, writeRepeats, j)))
    && written == Others(drafts, duplicates, |drafts|)
  }

  lemma KeysAreLines(a: Event, b: Event)
    ensures ContentKey(a) == ContentKey(b) <==> SameLine(a, b)
  {
  }

  lemma HeldIsHeld(e: Event, rows: map<nat, Event>)
    ensures ContentKey(e) in KeysOf(rows) <==> IsHeld(e, rows)
  {
    forall id | id in rows ensures ContentKey(rows[id]) == ContentKey(e) <==> SameLine(rows[id], e) {
      KeysAreLines(rows[id], e);
    }
    hide SameLine, ContentKey;
  }

  lemma FirstCopyIsFirst(drafts: seq<Event>, i: nat, j: nat)
    requires j < |drafts|
    ensures IsFirst(drafts, i, j) <==> FirstCopy(drafts, j) == i
  {
    forall k, l | 0 <= k < |drafts| && 0 <= l < |drafts|
      ensures ContentKey(drafts[k]) == ContentKey(drafts[l]) <==> SameLine(drafts[k], drafts[l])
    {
      KeysAreLines(drafts[k], drafts[l]);
    }
    hide SameLine, ContentKey, FirstFrom;
  }

  lemma KeptIsNotSkipped(drafts: seq<Event>, rows: map<nat, Event>, writeHeld: bool, writeRepeats: set<nat>, j: nat)
    requires j < |drafts|
    ensures Kept(drafts, KeysOf(rows), writeHeld, writeRepeats, j)
       <==> !IsSkipped(drafts, rows, writeHeld, writeRepeats, j)
  {
    hide SameLine, ContentKey, FirstCopy, IsFirst, IsHeld;
    HeldIsHeld(drafts[j], rows);
    var first := FirstCopy(drafts, j);
    forall i: nat ensures IsFirst(drafts, i, j) <==> first == i {
      FirstCopyIsFirst(drafts, i, j);
    }
  }

  lemma SkipIsTold(d: Duplicate, drafts: seq<Event>, rows: map<nat, Event>, writeHeld: bool, writeRepeats: set<nat>)
    requires SkipOk(d, drafts, rows, writeHeld, writeRepeats)
    ensures SkipTells(d, drafts, rows)
  {
    hide SameLine, ContentKey, FirstCopy, IsFirst, Kept;
    FirstCopyIsFirst(drafts, FirstCopy(drafts, d.index), d.index);
    if d.held.Some? {
      KeysAreLines(d.held.value, d.event);
    }
  }

  lemma {:induction false} FreshIsOthers(drafts: seq<Event>, duplicates: seq<Duplicate>, held: set<Key>,
                                         writeHeld: bool, writeRepeats: set<nat>, n: nat)
    requires n <= |drafts|
    requires forall i: nat :: i < n ==> (SkipsAt(duplicates, i) <==> !Kept(drafts, held, writeHeld, writeRepeats, i))
    ensures FreshOf(drafts, held, writeHeld, writeRepeats, n) == Others(drafts, duplicates, n)
  {
    hide Kept, SkipsAt;
    if n > 0 {
      FreshIsOthers(drafts, duplicates, held, writeHeld, writeRepeats, n - 1);
      assert SkipsAt(duplicates, n - 1) <==> !Kept(drafts, held, writeHeld, writeRepeats, n - 1);
    }
  }

  /** A split by keys is a split by what the lines say. */
  lemma SplitIsTold(duplicates: seq<Duplicate>, drafts: seq<Event>, rows: map<nat, Event>, writeHeld: bool,
                    writeRepeats: set<nat>)
    requires SkippedOk(duplicates, drafts, rows, writeHeld, writeRepeats, |drafts|)
    ensures SplitTells(FreshOf(drafts, KeysOf(rows), writeHeld, writeRepeats, |drafts|), duplicates, drafts, rows,
                       writeHeld, writeRepeats)
  {
    hide Kept, SkipOk, SkipTells, IsSkipped, ContentKey;
    forall k | 0 <= k < |duplicates| ensures SkipTells(duplicates[k], drafts, rows) {
      SkipIsTold(duplicates[k], drafts, rows, writeHeld, writeRepeats);
    }
    forall j: nat | j < |drafts|
      ensures SkipsAt(duplicates, j) <==> !Kept(drafts, KeysOf(rows), writeHeld, writeRepeats, j)
      ensures SkipsAt(duplicates, j) <==> IsSkipped(drafts, rows, writeHeld, writeRepeats, j)
    {
      KeptIsNotSkipped(drafts, rows, writeHeld, writeRepeats, j);
      SkippedAt(duplicates, drafts, rows, writeHeld, writeRepeats, j);
    }
    FreshIsOthers(drafts, duplicates, KeysOf(rows), writeHeld, writeRepeats, |drafts|);
  }

  lemma SkippedAt(duplicates: seq<Duplicate>, drafts: seq<Event>, rows: map<nat, Event>, writeHeld: bool,
                  writeRepeats: set<nat>, j: nat)
    requires SkippedOk(duplicates, drafts, rows, writeHeld, writeRepeats, |drafts|) && j < |drafts|
    ensures SkipsAt(duplicates, j) <==> !Kept(drafts, KeysOf(rows), writeHeld, writeRepeats, j)
  {
    hide Kept, ContentKey, FirstCopy;
    if SkipsAt(duplicates, j) {
      var k :| 0 <= k < |duplicates| && duplicates[k].index == j;
      assert SkipOk(duplicates[k], drafts, rows, writeHeld, writeRepeats);
    }
  }

  /** What an answer about repeats may name: a line, held by no row, that a later one repeats first. */
  ghost predicate IsRepeated(drafts: seq<Event>, rows: map<nat, Event>, i: nat) {
    && i < |drafts| && !IsHeld(drafts[i], rows)
    && exists j: nat :: i < j && IsFirst(drafts, i, j)
  }

  lemma RepeatedIsTold(drafts: seq<Event>, rows: map<nat, Event>, i: nat)
    ensures Repeated(drafts, KeysOf(rows), i) <==> IsRepeated(drafts, rows, i)
  {
    hide SameLine, ContentKey, FirstCopy, IsFirst, IsHeld;
    if i < |drafts| {
      HeldIsHeld(drafts[i], rows);
      forall j: nat | j < |drafts| ensures IsFirst(drafts, i, j) <==> FirstCopy(drafts, j) == i {
        FirstCopyIsFirst(drafts, i, j);
      }
      forall j: nat | IsFirst(drafts, i, j) ensures j < |drafts| {
        FirstInBatch(drafts, i, j);
      }
      if IsRepeated(drafts, rows, i) {
        var j: nat :| i < j && IsFirst(drafts, i, j);
        assert RepeatsAt(drafts, i, j);
      }
      if Repeated(drafts, KeysOf(rows), i) {
        var j: nat :| RepeatsAt(drafts, i, j);
        assert IsFirst(drafts, i, j);
      }
    }
  }

  lemma FirstInBatch(drafts: seq<Event>, i: nat, j: nat)
    requires IsFirst(drafts, i, j)
    ensures j < |drafts|
  {
  }

  // ---- Splitting again ----

  /** Every key a written line has is in the table after the write, and the old keys stay. */
  lemma WrittenKeys(rows: map<nat, Event>, drafts: seq<Event>, names: map<string, string>, next: nat)
    requires Keyed(rows) && Above(rows, next)
    ensures var keys := KeysOf(Appended(rows, SettledAll(drafts, names), next));
            && KeysOf(rows) <= keys
            && forall i :: 0 <= i < |drafts| ==> ContentKey(drafts[i]) in keys
  {
    hide ContentKey, SettledAll, Appended, Keyed, Above;
    var settled := SettledAll(drafts, names);
    AppendedIsKeyed(rows, settled, next);
    var after := Appended(rows, settled, next);
    forall i | 0 <= i < |drafts| ensures ContentKey(drafts[i]) in KeysOf(after) {
      WrittenKey(rows, drafts, names, next, i);
    }
    forall k | k in KeysOf(rows) ensures k in KeysOf(after) {
      var id :| id in rows && ContentKey(rows[id]) == k;
      assert after[id] == rows[id];
    }
  }

  lemma WrittenKey(rows: map<nat, Event>, drafts: seq<Event>, names: map<string, string>, next: nat, i: nat)
    requires i < |drafts|
    ensures ContentKey(drafts[i]) in KeysOf(Appended(rows, SettledAll(drafts, names), next))
  {
    hide ContentKey, SettledAll, Appended, Settled, Stored, KnownAfter;
    var settled := SettledAll(drafts, names);
    var after := Appended(rows, settled, next);
    SettledAt(drafts, names, i);
    AppendedAt(rows, settled, next, i);
    StoredIsSame(drafts[i], KnownAfter(drafts[..i], names), next + i);
    assert next + i in after && ContentKey(after[next + i]) == ContentKey(drafts[i]);
  }

  lemma {:induction false} KeptIsFresh(drafts: seq<Event>, held: set<Key>, writeHeld: bool, writeRepeats: set<nat>,
                                       n: nat, i: nat)
    requires i < n <= |drafts| && Kept(drafts, held, writeHeld, writeRepeats, i)
    ensures drafts[i] in FreshOf(drafts, held, writeHeld, writeRepeats, n)
  {
    hide Kept;
    if i < n - 1 {
      KeptIsFresh(drafts, held, writeHeld, writeRepeats, n - 1, i);
    }
  }

  lemma {:induction false} NothingFresh(drafts: seq<Event>, held: set<Key>, n: nat)
    requires n <= |drafts| && forall i :: 0 <= i < |drafts| ==> ContentKey(drafts[i]) in held
    ensures FreshOf(drafts, held, false, {}, n) == []
  {
    if n > 0 {
      NothingFresh(drafts, held, n - 1);
    }
  }

  /**
   * Once its fresh lines are recorded, the same batch holds nothing
   * fresh, and nothing an answer about repeats may name.
   */
  lemma SplitAgainIsEmpty(rows: map<nat, Event>, next: nat, drafts: seq<Event>, writeHeld: bool, writeRepeats: set<nat>,
                          names: map<string, string>)
    requires Keyed(rows) && Above(rows, next)
    ensures var written := FreshOf(drafts, KeysOf(rows), writeHeld, writeRepeats, |drafts|);
            var keys := KeysOf(Appended(rows, SettledAll(written, names), next));
            && FreshOf(drafts, keys, false, {}, |drafts|) == []
            && forall i: nat :: !Repeated(drafts, keys, i)
  {
    hide ContentKey;
    var held := KeysOf(rows);
    var written := FreshOf(drafts, held, writeHeld, writeRepeats, |drafts|);
    WrittenKeys(rows, written, names, next);
    var keys := KeysOf(Appended(rows, SettledAll(written, names), next));
    forall i | 0 <= i < |drafts| ensures ContentKey(drafts[i]) in keys {
      if ContentKey(drafts[i]) !in held {
        var f := FirstCopy(drafts, i);
        assert FirstCopy(drafts, f) == f;
        KeptIsFresh(drafts, held, writeHeld, writeRepeats, |drafts|, f);
        var k :| 0 <= k < |written| && written[k] == drafts[f];
        assert ContentKey(written[k]) in keys;
      }
    }
    NothingFresh(drafts, keys, |drafts|);
  }

  // ---- The ledger in the store ----

  class Store {
    var rows: map<nat, Event>
    var next: nat

    predicate Valid()
      reads this
    {
      Keyed(rows) && Above(rows, next)
    }

    constructor ()
      ensures Valid() && rows == map[]
    {
      rows, next := map[], 1;
    }

    method ReadEvents() returns (events: seq<Event>)
      requires Valid()
      ensures IsReadOrder(events, rows)
    {
      events := [];
      var todo := rows.Keys;
      var seen: map<nat, Event> := map[];
      while todo != {}
        invariant todo <= rows.Keys && seen.Keys == rows.Keys - todo && Keyed(seen)
        invariant forall id :: id in seen ==> seen[id] == rows[id]
        invariant forall a, b :: a in seen && b in todo ==> a < b
        invariant IsReadOrder(events, seen)
      {
        var id := Lowest(todo);
        InsertedIsRead(events, seen, rows[id], id);
        events := Inserted(events, rows[id]);
        seen := seen[id := rows[id]];
        todo := todo - {id};
      }
      assert seen == rows;
    }

    /**
     * One block of settled events, under keys above every key ever
     * given; refused whole when the ledger no longer replays.
     */
    method RecordMany(drafts: seq<Event>, names: map<string, string>, issues: seq<Event> -> bool)
      returns (stored: Option<seq<Event>>)
      requires Valid()
      modifies this
      ensures Valid()
      ensures var settled := SettledAll(drafts, names);
              var after := Appended(old(rows), settled, old(next));
              if stored.None? then rows == old(rows)
              else stored.value == StoredAll(settled, old(next)) && rows == after && !issues(settled)
      ensures stored.None? <==>
                issues(SettledAll(drafts, names))
                || (drafts != [] && !ReplaysAsRead(Appended(old(rows), SettledAll(drafts, names), old(next))))
    {
      hide Appended, ReplaysAsRead, Replays, IsReadOrder, SettledAll;
      var settled := SettleAll(drafts, names);
      if issues(settled) {
        return None;
      }
      AppendedStep(rows, settled, next);
      if settled == [] {
        return Some([]);
      }
      ghost var after := Appended(rows, settled, next);
      AppendedIsKeyed(rows, settled, next);
      var held := rows;
      stored := Some(StoredAll(settled, next));
      Insert(settled);
      var events := ReadEvents();
      var positions := Replay(events);
      ReplaysOnce(events, after);
      if positions.None? {
        rows, stored := held, None;
      }
    }

    method Insert(settled: seq<Event>)
      modifies this
      ensures rows == Appended(old(rows), settled, old(next)) && next == old(next) + |settled|
    {
      ghost var first, before := next, rows;
      for i := 0 to |settled|
        invariant rows == Appended(before, settled[..i], first) && next == first + i
      {
        assert settled[..i + 1][..i] == settled[..i];
        rows := rows[next := Stored(settled[i], next)];
        next := next + 1;
      }
      assert settled[..|settled|] == settled;
    }

    /** The dry run, without writing a row. */
    method Judge(drafts: seq<Event>, names: map<string, string>, issues: seq<Event> -> bool) returns (accepted: bool)
      requires Valid()
      ensures accepted <==>
                !issues(SettledAll(drafts, names))
                && (drafts == [] || ReplaysAsRead(Appended(rows, SettledAll(drafts, names), next)))
    {
      var settled := SettleAll(drafts, names);
      if issues(settled) {
        return false;
      }
      if settled == [] {
        return true;
      }
      var events := ReadEvents();
      var positions := Replay(SortedByDate(events + WouldBe(settled)));
      accepted := positions.Some?;
      AppendedIsKeyed(rows, settled, next);
      WriteIsSorted(events, rows, settled, next);
      var after := SortedByDate(events + StoredAll(settled, next));
      DryRunAgrees(events, rows, settled, next, after);
      ReplaysOnce(after, Appended(rows, settled, next));
    }

    method SplitDuplicates(drafts: seq<Event>, writeHeld: bool, writeRepeats: set<nat>)
      returns (r: Result<(seq<Event>, seq<Duplicate>), set<nat>>)
      requires Valid()
      ensures r.Err? <==> exists i :: i in writeRepeats && !IsRepeated(drafts, rows, i)
      ensures r.Err? ==> forall i: nat :: i in r.error <==> i in writeRepeats && !IsRepeated(drafts, rows, i)
      ensures r.Ok? ==> r.value.0 == FreshOf(drafts, KeysOf(rows), writeHeld, writeRepeats, |drafts|)
      ensures r.Ok? ==> SplitTells(r.value.0, r.value.1, drafts, rows, writeHeld, writeRepeats)
    {
      hide FirstCopy, FreshOf, Kept, SkippedOk, SkipOk, ContentKey, FirstsOk, RepeatsOk, Repeated,
           IsRepeated, SplitTells;
      var held := HeldByKey();
      ghost var keys := KeysOf(rows);
      var first: map<Key, nat> := map[];
      var repeated: set<nat> := {};
      var kept: seq<Event> := [];
      var duplicates: seq<Duplicate> := [];
      NothingSplit(drafts, rows, writeHeld, writeRepeats);
      for i := 0 to |drafts|
        invariant FirstsOk(first, drafts, keys, i) && RepeatsOk(repeated, drafts, keys, i)
        invariant kept == FreshOf(drafts, keys, writeHeld, writeRepeats, i)
        invariant SkippedOk(duplicates, drafts, rows, writeHeld, writeRepeats, i)
      {
        var draft := drafts[i];
        var same := ContentKey(draft);
        FirstsStep(first, drafts, keys, i);
        RepeatsStep(repeated, first, drafts, keys, i);
        SplitStep(duplicates, drafts, rows, writeHeld, writeRepeats, i);
        if same in held {
          if writeHeld {
            kept := kept + [draft];
          } else {
            SkippedHeld(drafts, rows, writeHeld, writeRepeats, i, held[same]);
            duplicates := duplicates + [Duplicate(draft, Some(held[same]), i, None)];
          }
        } else if same in first {
          repeated := repeated + {first[same]};
          if first[same] in writeRepeats {
            kept := kept + [draft];
          } else {
            SkippedRepeat(drafts, rows, writeHeld, writeRepeats, i);
            duplicates := duplicates + [Duplicate(draft, None, i, Some(first[same]))];
          }
        } else {
          first := first[same := i];
          kept := kept + [draft];
        }
      }
      RepeatsAll(repeated, drafts, keys);
      UnknownAre(writeRepeats, repeated, drafts, keys);
      var unknown := writeRepeats - repeated;
      forall i: nat ensures Repeated(drafts, keys, i) <==> IsRepeated(drafts, rows, i) {
        RepeatedIsTold(drafts, rows, i);
      }
      SplitIsTold(duplicates, drafts, rows, writeHeld, writeRepeats);
      r := if unknown != {} then Err(unknown) else Ok((kept, duplicates));
    }

    /** A row of each key the ledger holds. */
    method HeldByKey() returns (held: map<Key, Event>)
      requires Valid()
      ensures held.Keys == KeysOf(rows)
      ensures forall k :: k in held ==> IsRow(held[k], rows) && ContentKey(held[k]) == k
    {
      var events := ReadEvents();
      held := map[];
      for i := 0 to |events|
        invariant forall k :: k in held ==> IsRow(held[k], rows) && ContentKey(held[k]) == k
        invariant forall j :: 0 <= j < i ==> ContentKey(events[j]) in held
      {
        assert IsRow(events[i], rows);
        held := held[ContentKey(events[i]) := events[i]];
      }
    }
  }

  /** The ledger, read back, replays. */
  ghost predicate ReplaysAsRead(rows: map<nat, Event>) {
    exists events :: IsReadOrder(events, rows) && Replays(events)
  }

  lemma ReplaysOnce(events: seq<Event>, rows: map<nat, Event>)
    requires IsReadOrder(events, rows) && Keyed(rows)
    ensures ReplaysAsRead(rows) <==> Replays(events)
  {
    if ReplaysAsRead(rows) {
      var other :| IsReadOrder(other, rows) && Replays(other);
      OneReadOrder(other, events, rows);
    }
  }

  method Lowest(ids: set<nat>) returns (lowest: nat)
    requires ids != {}
    ensures lowest in ids && forall id :: id in ids ==> lowest <= id
  {
    lowest := Pick(ids);
    var todo := ids - {lowest};
    while todo != {}
      invariant todo <= ids && lowest in ids
      invariant forall id :: id in ids && id !in todo ==> lowest <= id
    {
      var id := Pick(todo);
      if id < lowest {
        lowest := id;
      }
      todo := todo - {id};
    }
  }
}
