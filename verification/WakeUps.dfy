/** The notification that a stream update owes to the owner of the fill it takes: it is always
    given, and exactly when the owner can miss it. */
module WakeUps {
  import opened RouterTypes
  import opened CacheEntry
  import opened FillProtocol
  import opened FillInvariant
  import opened FillTheorems

  /** While the record that a stream update installed in the owner's own placeholder is
      resident, a sleeping owner can wake, at the latest after the updater's next step. */
  lemma {:induction false} SleeperWakes(chain: Chain, run: seq<Action>, t: TaskId)
    requires IsRun(chain, run)
    requires var s := After(chain, run);
             t < |s.tasks| && s.tasks[t].pc.Racing? && s.tasks[t].pc.watch.Asleep? &&
             s.tasks[t].pc.f < |s.fills| && Installed(s, s.tasks[t].pc.f)
    ensures var s := After(chain, run);
            Enabled(s, Wake(t)) || (Enabled(s, Notify) && Enabled(Apply(chain, s, Notify), Wake(t)))
  {
    RunKeeps(chain, run);
    var s := After(chain, run);
    assert TaskOk(chain, s, t) && FillOk(s, s.tasks[t].pc.f);
  }

  /** The fill that an action takes out of its entry for the updater to notify. */
  function TakenBy(s: State, a: Action): Option<FillId> {
    if a.Update? && a.key in s.db then Taken(s.db[a.key].entry, a.slot) else None
  }

  /** The fill that step `n` of a run takes out of its entry. */
  function TakenAt(chain: Chain, run: seq<Action>, n: nat): Option<FillId>
    requires IsRun(chain, run) && n < |run|
  {
    PrefixIsRun(chain, run, n);
    TakenBy(After(chain, run[..n]), run[n])
  }

  predicate Told(s: State, f: FillId) {
    f < |s.fills| && (s.updater == Notifying(f) || s.fills[f].notified == 1)
  }

  lemma TakenIsTold(chain: Chain, s: State, a: Action)
    requires Inv(chain, s) && Enabled(s, a) && TakenBy(s, a).Some?
    ensures Told(Apply(chain, s, a), TakenBy(s, a).value)
  {
    assert CellOk(chain, s, a.key);
  }

  lemma ToldStays(chain: Chain, s: State, a: Action, f: FillId)
    requires Inv(chain, s) && Enabled(s, a) && Told(s, f)
    ensures Told(Apply(chain, s, a), f)
  {
    assert FillOk(s, f);
    FillsOnlyGrow(chain, s, a);
    StepKeeps(chain, s, a);
    assert FillOk(Apply(chain, s, a), f);
  }

  /** A taken fill is notified next. */
  lemma {:induction false} TakenThenTold(chain: Chain, run: seq<Action>, n: nat)
    requires IsRun(chain, run) && n < |run| && TakenAt(chain, run, n).Some?
    ensures Told(After(chain, run), TakenAt(chain, run, n).value)
  {
    var before, a := run[..|run| - 1], run[|run| - 1];
    RunKeeps(chain, before);
    if n == |run| - 1 {
      TakenIsTold(chain, After(chain, before), a);
    } else {
      assert before[..n] == run[..n] && before[n] == run[n];
      TakenThenTold(chain, before, n);
      ToldStays(chain, After(chain, before), a, TakenAt(chain, run, n).value);
    }
  }

  /** Step by step, the fill that a step of the run notifies. */
  function Notes(chain: Chain, run: seq<Action>): (notes: seq<Option<FillId>>)
    requires IsRun(chain, run)
    ensures |notes| == |run|
  {
    if run == [] then []
    else
      var before := run[..|run| - 1];
      Notes(chain, before) + [NoteOf(After(chain, before), run[|run| - 1])]
  }

  function NoteOf(s: State, a: Action): Option<FillId> {
    if a == Notify && s.updater.Notifying? then Some(s.updater.fill) else None
  }

  /** Step `i` arms task `t`, and an earlier step `m` had notified `f`. */
  predicate ArmsAfterNote(notes: seq<Option<FillId>>, run: seq<Action>, t: TaskId, f: FillId, m: nat, i: nat) {
    m < i < |run| == |notes| && notes[m] == Some(f) && run[i] == Arm(t)
  }

  ghost predicate ArmedLate(notes: seq<Option<FillId>>, run: seq<Action>, t: TaskId, f: FillId) {
    exists m, i :: ArmsAfterNote(notes, run, t, f, m, i)
  }

  /** Task `t` armed itself after the notification of `f` had been given. */
  ghost predicate ArmedTooLate(chain: Chain, run: seq<Action>, t: TaskId, f: FillId)
    requires IsRun(chain, run)
  {
    ArmedLate(Notes(chain, run), run, t, f)
  }

  lemma {:induction false} ArmedLateStep(
    notes: seq<Option<FillId>>, run: seq<Action>, note: Option<FillId>, a: Action, t: TaskId, f: FillId)
    requires |notes| == |run|
    ensures ArmedLate(notes + [note], run + [a], t, f) <==>
              ArmedLate(notes, run, t, f) || (Some(f) in notes && a == Arm(t))
  {
    var notes', run' := notes + [note], run + [a];
    if ArmedLate(notes', run', t, f) {
      var m: nat, i: nat :| ArmsAfterNote(notes', run', t, f, m, i);
      assert i < |run| ==> ArmsAfterNote(notes, run, t, f, m, i);
    }
    if ArmedLate(notes, run, t, f) {
      var m: nat, i: nat :| ArmsAfterNote(notes, run, t, f, m, i);
      assert ArmsAfterNote(notes', run', t, f, m, i);
    }
    if Some(f) in notes && a == Arm(t) {
      var m :| 0 <= m < |notes| && notes[m] == Some(f);
      assert ArmsAfterNote(notes', run', t, f, m, |run|);
    }
  }

  predicate Notified(s: State, f: FillId) {
    f < |s.fills| && s.fills[f].notified >= 1
  }

  lemma NotifiedStep(chain: Chain, s: State, a: Action, f: FillId)
    requires Inv(chain, s) && Enabled(s, a)
    ensures Notified(Apply(chain, s, a), f) <==> Notified(s, f) || (a == Notify && s.updater == Notifying(f))
  {
  }

  /** The counter of a fill counts its notification in the run. */
  lemma {:induction false} NotifiedCounts(chain: Chain, run: seq<Action>, f: FillId)
    requires IsRun(chain, run)
    ensures Some(f) in Notes(chain, run) <==> Notified(After(chain, run), f)
  {
    if run != [] {
      var before := run[..|run| - 1];
      RunKeeps(chain, before);
      NotifiedCounts(chain, before, f);
      NotifiedStep(chain, After(chain, before), run[|run| - 1], f);
    }
  }

  predicate RacesFor(s: State, t: TaskId, f: FillId) {
    t < |s.tasks| && s.tasks[t].pc.Racing? && s.tasks[t].pc.f == f
  }

  /** The owner's armed notification captured the counter after it had been raised. */
  predicate Late(s: State, t: TaskId, f: FillId) {
    RacesFor(s, t, f) && !s.tasks[t].pc.watch.Arming? && s.tasks[t].pc.watch.mark == 1
  }

  lemma LateStep(chain: Chain, s: State, a: Action, t: TaskId, f: FillId)
    requires Inv(chain, s) && Enabled(s, a) && RacesFor(s, t, f) && RacesFor(Apply(chain, s, a), t, f)
    ensures Late(Apply(chain, s, a), t, f) <==> Late(s, t, f) || (Notified(s, f) && a == Arm(t))
  {
    assert TaskOk(chain, s, t) && FillOk(s, f);
    if Actor(a) != Some(t) { OthersStay(chain, s, a, t); }
  }

  /** An owner begins to race for a fill that still sits in its entry. */
  lemma RaceBegins(chain: Chain, s: State, a: Action, t: TaskId, f: FillId)
    requires Inv(chain, s) && Enabled(s, a) && !RacesFor(s, t, f) && RacesFor(Apply(chain, s, a), t, f)
    ensures !Notified(s, f) && a == Check(t) && !Late(Apply(chain, s, a), t, f)
  {
    if t < |s.tasks| {
      if Actor(a) != Some(t) { OthersStay(chain, s, a, t); }
      assert TaskOk(chain, s, t);
      assert a == Check(t);
      assert FillOk(s, f);
    }
  }

  lemma {:induction false} LateMeans(chain: Chain, run: seq<Action>, t: TaskId, f: FillId)
    requires IsRun(chain, run) && RacesFor(After(chain, run), t, f)
    ensures ArmedTooLate(chain, run, t, f) <==> Late(After(chain, run), t, f)
  {
    var before, a := run[..|run| - 1], run[|run| - 1];
    var s := After(chain, before);
    RunKeeps(chain, before);
    NotifiedCounts(chain, before, f);
    ArmedLateStep(Notes(chain, before), before, NoteOf(s, a), a, t, f);
    assert run == before + [a];
    if RacesFor(s, t, f) {
      LateMeans(chain, before, t, f);
      LateStep(chain, s, a, t, f);
    } else {
      RaceBegins(chain, s, a, t, f);
    }
  }

  /** The owner sleeps on a fill that step `n` of the run took out of its entry. */
  predicate SleepsOnTaken(chain: Chain, run: seq<Action>, n: nat, t: TaskId)
    requires IsRun(chain, run)
  {
    var s := After(chain, run);
    && n < |run| && t < |s.tasks| && s.tasks[t].pc.Racing? && s.tasks[t].pc.watch.Asleep?
    && TakenAt(chain, run, n) == Some(s.tasks[t].pc.f)
  }

  /** No lost wake-up. A sleeping owner whose fill was taken either has the notification still
      coming or can wake now, unless, and exactly if, it armed itself after the notification;
      it then found the installed record gone. */
  lemma {:induction false} NoLostWakeUp(chain: Chain, run: seq<Action>, n: nat, t: TaskId)
    requires IsRun(chain, run) && SleepsOnTaken(chain, run, n, t)
    ensures var s := After(chain, run);
            var f := s.tasks[t].pc.f;
            && f < |s.fills|
            && (s.updater == Notifying(f) || Enabled(s, Wake(t)) <==> !ArmedTooLate(chain, run, t, f))
            && (ArmedTooLate(chain, run, t, f) ==> s.tasks[t].pc.watch.mark == 1 && !Installed(s, f))
  {
    var s := After(chain, run);
    RunKeeps(chain, run);
    TakenThenTold(chain, run, n);
    LateMeans(chain, run, t, s.tasks[t].pc.f);
    assert TaskOk(chain, s, t) && FillOk(s, s.tasks[t].pc.f);
  }

  /** The action throws the entry under `k` out of the map. */
  predicate ThrowsOut(a: Action, k: Pubkey) {
    (a.Clear? && k in a.keys) || (a.Insert? && a.evicted == Some(k))
  }

  lemma TakenInstalls(chain: Chain, s: State, a: Action, f: FillId)
    requires Inv(chain, s) && Enabled(s, a) && TakenBy(s, a) == Some(f)
    ensures f < |s.fills| && f < |Apply(chain, s, a).fills| && Installed(Apply(chain, s, a), f)
    ensures Apply(chain, s, a).fills[f].key == s.fills[f].key
  {
    assert CellOk(chain, s, a.key);
  }

  lemma InstalledStays(chain: Chain, s: State, a: Action, f: FillId)
    requires Inv(chain, s) && Enabled(s, a) && f < |s.fills| && Installed(s, f) && !ThrowsOut(a, s.fills[f].key)
    ensures f < |Apply(chain, s, a).fills| && Installed(Apply(chain, s, a), f)
    ensures Apply(chain, s, a).fills[f].key == s.fills[f].key
  {
    FillsOnlyGrow(chain, s, a);
    if Quiet(a) {
      QuietKeepsMap(chain, s, a);
    } else if Actor(a).Some? {
      assert TaskOk(chain, s, a.t);
    }
  }

  lemma {:induction false} StaysInstalled(chain: Chain, run: seq<Action>, n: nat, f: FillId, k: Pubkey)
    requires IsRun(chain, run) && n < |run| && TakenAt(chain, run, n) == Some(f)
    requires f < |After(chain, run).fills| && After(chain, run).fills[f].key == k
    requires forall j | n < j < |run| :: !ThrowsOut(run[j], k)
    ensures Installed(After(chain, run), f)
  {
    var before, a := run[..|run| - 1], run[|run| - 1];
    RunKeeps(chain, before);
    if n == |run| - 1 {
      TakenInstalls(chain, After(chain, before), a, f);
    } else {
      assert before[..n] == run[..n] && before[n] == run[n];
      TakenThenTold(chain, before, n);
      FillsOnlyGrow(chain, After(chain, before), a);
      StaysInstalled(chain, before, n, f, k);
      InstalledStays(chain, After(chain, before), a, f);
    }
  }

  /** If the entry was neither evicted nor cleared since the update, its owner is not lost. */
  lemma {:induction false} WakesWhileResident(chain: Chain, run: seq<Action>, n: nat, t: TaskId)
    requires IsRun(chain, run) && SleepsOnTaken(chain, run, n, t)
    requires forall j | n < j < |run| :: !ThrowsOut(run[j], After(chain, run).tasks[t].key)
    ensures var s := After(chain, run); s.updater == Notifying(s.tasks[t].pc.f) || Enabled(s, Wake(t))
  {
    var s := After(chain, run);
    RunKeeps(chain, run);
    assert TaskOk(chain, s, t);
    NoLostWakeUp(chain, run, n, t);
    StaysInstalled(chain, run, n, s.tasks[t].pc.f, s.tasks[t].key);
  }

  // ---- The exception occurs ----

  /** For every key: an update fills the placeholder, its owner is notified, the entry is
      cleared, and only then does the owner arm itself; nothing will wake it. */
  lemma {:induction false} OwnerCanSleepOn(chain: Chain, k: Pubkey, slot: nat) returns (run: seq<Action>)
    requires slot > 0
    ensures IsRun(chain, run) && SleepsOnTaken(chain, run, 5, 0)
    ensures After(chain, run).updater.Idle? && !Enabled(After(chain, run), Wake(0))
  {
    var opening := Opens(chain, k, slot);
    var taken := Append(chain, opening, Update(k, slot));
    assert taken[..5] == opening;
    run := Cleared(chain, taken, k);
    run := FallsAsleep(chain, run, k, slot);
    assert run[..5] == opening && run[5] == Update(k, slot);
  }

  lemma {:induction false} Cleared(chain: Chain, taken: seq<Action>, k: Pubkey) returns (run: seq<Action>)
    requires IsRun(chain, taken)
    requires After(chain, taken).updater == Notifying(0) && After(chain, taken).fills == [Fill(0, k, Unresolved, 0)]
    ensures run == taken + [Notify, Clear({k})] && IsRun(chain, run)
    ensures var s, s' := After(chain, taken), After(chain, run);
            && s'.db == s.db - {k} && s'.fills == [Fill(0, k, Unresolved, 1)]
            && s'.tasks == s.tasks && s'.updater == Idle
  {
    run := Append(chain, taken, Notify);
    run := Append(chain, run, Clear({k}));
  }

  lemma {:induction false} FallsAsleep(chain: Chain, cleared: seq<Action>, k: Pubkey, slot: nat)
    returns (run: seq<Action>)
    requires IsRun(chain, cleared)
    requires var s := After(chain, cleared);
             && k !in s.db && s.fills == [Fill(0, k, Unresolved, 1)] && s.updater == Idle
             && s.tasks == [Task(k, Racing(0, slot, 0, Arming(0)), 0)]
    ensures run == cleared + [Arm(0), Look(0)] && IsRun(chain, run)
    ensures var s := After(chain, run);
            s.updater.Idle? && s.tasks == [Task(k, Racing(0, slot, 0, Asleep(0, 1)), 0)] && !Enabled(s, Wake(0))
  {
    run := Append(chain, cleared, Arm(0));
    run := Append(chain, run, Look(0));
  }

  /** A first call up to its race. */
  lemma {:induction false} Opens(chain: Chain, k: Pubkey, slot: nat) returns (run: seq<Action>)
    ensures IsRun(chain, run) && |run| == 5
    ensures After(chain, run) == State(
              map[k := Cell(Entry(0, None, MinContextSlot(slot), Some(0)), 0, {}, Some(slot), None)],
              [Fill(0, k, Unresolved, 0)],
              [Task(k, Racing(0, slot, 0, Arming(0)), 0)],
              Idle)
  {
    run := Append(chain, [], Spawn(k));
    run := Append(chain, run, ReadEntry(0));
    run := Append(chain, run, Insert(0, None));
    run := Append(chain, run, Subscribe(0, Some(slot)));
    run := Append(chain, run, Check(0));
  }
}
