/** The memo of the oldest instant of each symbol, read and published by threads that writers race. */
module OldestMemo {
  import opened Basics
  import opened PriceStore

  type Answer = map<string, int>

  /** What one scan of a table answers: the smallest instant of every symbol that has a point. */
  ghost predicate IsOldest(answer: Answer, points: set<Point>) {
    && (forall p :: p in points ==> p.symbol in answer && answer[p.symbol] <= p.ts)
    && forall s :: s in answer ==> Attained(s, answer[s], points)
  }

  ghost predicate Attained(symbol: string, ts: int, points: set<Point>) {
    exists p :: p in points && p.symbol == symbol && p.ts == ts
  }

  /** A table has one answer. */
  lemma OneAnswer(a: Answer, b: Answer, points: set<Point>)
    requires IsOldest(a, points) && IsOldest(b, points)
    ensures a == b
  {
    forall s | s in a ensures s in b && b[s] <= a[s] {
      assert Attained(s, a[s], points);
    }
    forall s | s in b ensures s in a && a[s] <= b[s] {
      assert Attained(s, b[s], points);
    }
  }

  /** One repair moves no instant, which is why it leaves the memo alone. */
  lemma RepairKeepsOldest(b: Book, symbol: string, factors: map<int, real>, b': Book, answer: Answer)
    requires IsRepair(b, symbol, factors, b')
    ensures IsOldest(answer, b.points) <==> IsOldest(answer, b'.points)
  {
    if b'.points != b.points {
      forall s, ts ensures Attained(s, ts, b.points) <==> Attained(s, ts, b'.points) {
        if Attained(s, ts, b.points) {
          var p :| p in b.points && p.symbol == s && p.ts == ts;
          var p' := if Repairable(p, symbol, factors) then Converted(p, factors) else p;
          assert p' in b'.points && p'.symbol == s && p'.ts == ts;
        }
      }
      SameInstantsSameAnswer(b.points, b'.points, answer);
    }
  }

  lemma SameInstantsSameAnswer(a: set<Point>, b: set<Point>, answer: Answer)
    requires forall s, ts :: Attained(s, ts, a) <==> Attained(s, ts, b)
    ensures IsOldest(answer, a) <==> IsOldest(answer, b)
  {
    assert forall p :: p in a ==> Attained(p.symbol, p.ts, a);
    assert forall p :: p in b ==> Attained(p.symbol, p.ts, b);
    forall p | p in b && IsOldest(answer, a) ensures p.symbol in answer && answer[p.symbol] <= p.ts {
      assert Attained(p.symbol, p.ts, a);
    }
    forall p | p in a && IsOldest(answer, b) ensures p.symbol in answer && answer[p.symbol] <= p.ts {
      assert Attained(p.symbol, p.ts, b);
    }
  }

  // ---- The slot, and the three sections that hold its lock ----

  datatype Held = Held(path: string, generation: nat, answer: Answer)

  datatype Slot = Slot(generation: nat, scan: Option<Held>)

  /** What a reader of one file may take from the slot. */
  function Hit(slot: Slot, path: string): Option<Answer> {
    if slot.scan.Some? && slot.scan.value.path == path && slot.scan.value.generation == slot.generation
    then Some(slot.scan.value.answer)
    else None
  }

  function Published(slot: Slot, held: Held): Slot {
    if held.generation == slot.generation then slot.(scan := Some(held)) else slot
  }

  function Bumped(slot: Slot): Slot {
    slot.(generation := slot.generation + 1)
  }

  class Memo {
    var generation: nat
    var scan: Option<Held>

    function Value(): Slot
      reads this
    {
      Slot(generation, scan)
    }

    constructor ()
      ensures Value() == Slot(0, None)
    {
      generation, scan := 0, None;
    }

    /** The opening of a read: the generation it starts in, and the answer when the slot holds it. */
    method Peek(path: string) returns (started: nat, answer: Option<Answer>)
      ensures started == generation && answer == Hit(Value(), path)
    {
      started := generation;
      var held := scan;
      if held.Some? && held.value.path == path && held.value.generation == started {
        return started, Some(held.value.answer);
      }
      answer := None;
    }

    method Remember(path: string, started: nat, scanned: Answer)
      modifies this
      ensures Value() == Published(old(Value()), Held(path, started, scanned))
    {
      if started == generation {
        scan := Some(Held(path, started, scanned));
      }
    }

    method Forget()
      modifies this
      ensures Value() == Bumped(old(Value()))
    {
      generation := generation + 1;
    }
  }

  // ---- Readers and writers, interleaved ----

  /** One read of a file: `began` is the writes already forgotten about when it was called. */
  datatype Reader = Reader(path: string, began: set<nat>, phase: Phase)

  datatype Phase =
    | Entered
    | Missed(generation: nat)
    | Scanned(generation: nat, version: nat, answer: Answer)
    | Returned(answer: Answer)

  /** `log` is every committed table of a file, the current one last; `done` the commits whose bump completed. */
  datatype File = File(log: seq<set<Point>>, done: set<nat>)

  datatype World = World(files: map<string, File>, slot: Slot, readers: map<nat, Reader>)

  datatype Step =
    | Commit(path: string, table: set<Point>)
    | Bump(path: string, version: nat)
    | Enter(id: nat, path: string)
    | Look(id: nat)
    | Scan(id: nat, answer: Answer)
    | Publish(id: nat)

  function Moved(w: World, id: nat, phase: Phase): World
    requires id in w.readers
  {
    w.(readers := w.readers[id := w.readers[id].(phase := phase)])
  }

  function CommitTo(f: File, table: set<Point>): File {
    f.(log := f.log + [table])
  }

  ghost predicate Next(w: World, step: Step, w': World) {
    match step
    case Commit(path, table) =>
      path in w.files && w' == w.(files := w.files[path := CommitTo(w.files[path], table)])
    case Bump(path, version) =>
      && path in w.files && version < |w.files[path].log|
      && w' == w.(files := w.files[path := w.files[path].(done := w.files[path].done + {version})],
                  slot := Bumped(w.slot))
    case Enter(id, path) =>
      && path in w.files && id !in w.readers
      && w' == w.(readers := w.readers[id := Reader(path, w.files[path].done, Entered)])
    case Look(id) =>
      && id in w.readers && w.readers[id].phase.Entered?
      && w' == Moved(w, id, var hit := Hit(w.slot, w.readers[id].path);
                            if hit.Some? then Returned(hit.value) else Missed(w.slot.generation))
    case Scan(id, answer) =>
      && id in w.readers && w.readers[id].phase.Missed? && w.readers[id].path in w.files
      && var log := w.files[w.readers[id].path].log;
         log != [] && IsOldest(answer, log[|log| - 1])
         && w' == Moved(w, id, Scanned(w.readers[id].phase.generation, |log| - 1, answer))
    case Publish(id) =>
      && id in w.readers && w.readers[id].phase.Scanned?
      && var r := w.readers[id];
         w' == Moved(w, id, Returned(r.phase.answer))
               .(slot := Published(w.slot, Held(r.path, r.phase.generation, r.phase.answer)))
  }

  /** The answer is that of a committed table no older than any of those writes. */
  ghost predicate Reflects(answer: Answer, log: seq<set<Point>>, writes: set<nat>) {
    exists v :: AnswerOf(answer, log, v) && NoneAfter(writes, v)
  }

  ghost predicate AnswerOf(answer: Answer, log: seq<set<Point>>, v: nat) {
    v < |log| && IsOldest(answer, log[v])
  }

  predicate NoneAfter(writes: set<nat>, v: nat) {
    forall w :: w in writes ==> w <= v
  }

  ghost predicate ReaderOk(w: World, r: Reader) {
    && r.path in w.files && r.began <= w.files[r.path].done
    && match r.phase
       case Entered => true
       case Missed(g) => g <= w.slot.generation
       case Scanned(g, v, answer) =>
         && g <= w.slot.generation
         && AnswerOf(answer, w.files[r.path].log, v) && NoneAfter(r.began, v)
         && (g == w.slot.generation ==> NoneAfter(w.files[r.path].done, v))
       case Returned(answer) => Reflects(answer, w.files[r.path].log, r.began)
  }

  /** A slot that may still be taken reflects every write forgotten about so far. */
  ghost predicate SlotOk(w: World) {
    w.slot.scan.Some? ==>
      var h := w.slot.scan.value;
      && h.generation <= w.slot.generation && h.path in w.files
      && (h.generation == w.slot.generation ==> Reflects(h.answer, w.files[h.path].log, w.files[h.path].done))
  }

  ghost predicate Sound(w: World) {
    && (forall p :: p in w.files ==>
          NoneAfter(w.files[p].done, |w.files[p].log|) && |w.files[p].log| !in w.files[p].done)
    && SlotOk(w)
    && forall id :: id in w.readers ==> ReaderOk(w, w.readers[id])
  }

  lemma LogGrows(answer: Answer, log: seq<set<Point>>, table: set<Point>, writes: set<nat>)
    ensures forall v :: AnswerOf(answer, log, v) ==> AnswerOf(answer, log + [table], v)
    ensures Reflects(answer, log, writes) ==> Reflects(answer, log + [table], writes)
  {
    forall v: nat | AnswerOf(answer, log, v) ensures AnswerOf(answer, log + [table], v) {
      assert (log + [table])[v] == log[v];
    }
  }

  lemma CommitSound(w: World, path: string, table: set<Point>, w': World)
    requires Sound(w) && Next(w, Commit(path, table), w')
    ensures Sound(w')
  {
    hide AnswerOf, Reflects;
    var log := w.files[path].log;
    forall id | id in w'.readers ensures ReaderOk(w', w'.readers[id]) {
      var r := w.readers[id];
      assert ReaderOk(w, r);
      if r.path == path {
        match r.phase
        case Scanned(_, _, answer) => LogGrows(answer, log, table, r.began);
        case Returned(answer) => LogGrows(answer, log, table, r.began);
        case _ =>
      }
    }
    if w.slot.scan.Some? {
      LogGrows(w.slot.scan.value.answer, log, table, w.files[path].done);
    }
  }

  lemma BumpSound(w: World, path: string, version: nat, w': World)
    requires Sound(w) && Next(w, Bump(path, version), w')
    ensures Sound(w')
  {
    hide AnswerOf, Reflects;
    forall id | id in w'.readers ensures ReaderOk(w', w'.readers[id]) {
      assert ReaderOk(w, w.readers[id]);
    }
  }

  lemma ReaderMoveSound(w: World, step: Step, w': World)
    requires Sound(w) && Next(w, step, w') && (step.Enter? || step.Look? || step.Scan?)
    ensures Sound(w')
  {
    forall id | id in w'.readers ensures ReaderOk(w', w'.readers[id]) {
      if id in w.readers {
        assert ReaderOk(w, w.readers[id]);
      }
      if step.Look? && id == step.id && w'.readers[id].phase.Returned? {
        var h := w.slot.scan.value;
        var v :| AnswerOf(h.answer, w.files[h.path].log, v) && NoneAfter(w.files[h.path].done, v);
        assert NoneAfter(w.readers[id].began, v);
      }
    }
  }

  lemma PublishSound(w: World, id: nat, w': World)
    requires Sound(w) && Next(w, Publish(id), w')
    ensures Sound(w')
  {
    hide AnswerOf;
    assert ReaderOk(w, w.readers[id]);
    forall i | i in w'.readers ensures ReaderOk(w', w'.readers[i]) {
      assert ReaderOk(w, w.readers[i]);
    }
  }

  lemma StepSound(w: World, step: Step, w': World)
    requires Sound(w) && Next(w, step, w')
    ensures Sound(w')
  {
    match step
    case Commit(path, table) => CommitSound(w, path, table, w');
    case Bump(path, version) => BumpSound(w, path, version, w');
    case Publish(id) => PublishSound(w, id, w');
    case _ => ReaderMoveSound(w, step, w');
  }

  /** Before any read: the tables of the install, nothing forgotten about, an empty slot. */
  predicate Initial(w: World) {
    && (forall p :: p in w.files ==> |w.files[p].log| == 1 && w.files[p].done == {})
    && w.slot == Slot(0, None) && w.readers == map[]
  }

  ghost predicate Run(ws: seq<World>, steps: seq<Step>) {
    && |ws| == |steps| + 1 && Initial(ws[0])
    && forall i :: 0 <= i < |steps| ==> Next(ws[i], steps[i], ws[i + 1])
  }

  lemma {:induction false} RunSound(ws: seq<World>, steps: seq<Step>, n: nat)
    requires Run(ws, steps) && n < |ws|
    ensures Sound(ws[n])
  {
    if n > 0 {
      RunSound(ws, steps, n - 1);
      StepSound(ws[n - 1], steps[n - 1], ws[n]);
    }
  }

  /** A reader keeps what was forgotten about when it was called, to its return. */
  lemma {:induction false} BeganStays(ws: seq<World>, steps: seq<Step>, id: nat, called: nat, n: nat)
    requires Run(ws, steps) && called < n < |ws|
    requires steps[called].Enter? && steps[called].id == id
    ensures id in ws[n].readers && ws[n].readers[id].path == steps[called].path
    ensures steps[called].path in ws[called].files
    ensures ws[n].readers[id].began == ws[called].files[steps[called].path].done
  {
    assert Next(ws[n - 1], steps[n - 1], ws[n]) && Next(ws[called], steps[called], ws[called + 1]);
    if called < n - 1 {
      BeganStays(ws, steps, id, called, n - 1);
    }
  }

  /** In every interleaving, an answer returned reflects every write forgotten about before its read was called. */
  lemma AnswersAreFresh(ws: seq<World>, steps: seq<Step>, id: nat, called: nat, n: nat)
    requires Run(ws, steps) && called < n < |ws|
    requires steps[called].Enter? && steps[called].id == id
    requires id in ws[n].readers && ws[n].readers[id].phase.Returned?
    ensures var path := steps[called].path;
            && path in ws[called].files && path in ws[n].files
            && Reflects(ws[n].readers[id].phase.answer, ws[n].files[path].log, ws[called].files[path].done)
  {
    BeganStays(ws, steps, id, called, n);
    RunSound(ws, steps, n);
    assert Next(ws[called], steps[called], ws[called + 1]);
    assert ReaderOk(ws[n], ws[n].readers[id]);
  }

  /** With no write between its commit and its bump, and none landing during the read, the answer is the table's own. */
  lemma QuietReadIsExact(ws: seq<World>, steps: seq<Step>, id: nat, called: nat, n: nat)
    requires Run(ws, steps) && called < n < |ws|
    requires steps[called].Enter? && steps[called].id == id
    requires id in ws[n].readers && ws[n].readers[id].phase.Returned?
    requires var path := steps[called].path;
             && path in ws[called].files && path in ws[n].files
             && ws[n].files[path].log == ws[called].files[path].log
             && var log := ws[n].files[path].log;
                |log| == 1 || (|log| > 1 && |log| - 1 in ws[called].files[path].done)
    ensures var log := ws[n].files[steps[called].path].log;
            IsOldest(ws[n].readers[id].phase.answer, log[|log| - 1])
  {
    AnswersAreFresh(ws, steps, id, called, n);
  }

  // ---- What the memo is for ----

  /** A step that neither retires the slot nor publishes into it. */
  predicate LeavesSlot(step: Step) {
    !step.Bump? && !step.Publish?
  }

  lemma {:induction false} SlotStays(ws: seq<World>, steps: seq<Step>, m: nat, n: nat)
    requires Run(ws, steps) && m <= n < |ws| && forall k :: m <= k < n ==> LeavesSlot(steps[k])
    ensures ws[n].slot == ws[m].slot
  {
    if m < n {
      SlotStays(ws, steps, m, n - 1);
      assert Next(ws[n - 1], steps[n - 1], ws[n]);
    }
  }

  /**
   * A scan published in the generation it was begun in is the answer of every later look at its file, without a scan,
   * until a write is forgotten about or another scan published; a look at another file is not given it.
   */
  lemma PublishedIsTaken(ws: seq<World>, steps: seq<Step>, m: nat, n: nat)
    requires Run(ws, steps) && m < n < |steps| && steps[m].Publish? && steps[n].Look?
    requires forall k :: m < k < n ==> LeavesSlot(steps[k])
    requires steps[m].id in ws[m].readers
    requires var r := ws[m].readers[steps[m].id]; r.phase.Scanned? && r.phase.generation == ws[m].slot.generation
    requires steps[n].id in ws[n].readers
    ensures var r, asked := ws[m].readers[steps[m].id], ws[n].readers[steps[n].id].path;
            && steps[n].id in ws[n + 1].readers
            && ws[n + 1].readers[steps[n].id].phase
               == if asked == r.path then Returned(r.phase.answer) else Missed(ws[n].slot.generation)
  {
    assert Next(ws[m], steps[m], ws[m + 1]) && Next(ws[n], steps[n], ws[n + 1]);
    SlotStays(ws, steps, m + 1, n);
  }
}
