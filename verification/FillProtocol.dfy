/** The cache-fill protocol as a step relation. Every access to the shared map is one
    atomic step; a caller can be cancelled at every await; the RPC and the stream observe
    `chain`, which gives the parsed record an account had at each slot. */
module FillProtocol {
  import opened RouterTypes
  import opened CacheEntry

  type TaskId = nat
  type Chain = (Pubkey, nat) -> Option<Record>

  const MAX_ACCOUNT_REFETCH_ATTEMPTS: nat := 3

  /** Attempts 0..=MAX_ACCOUNT_REFETCH_ATTEMPTS of one fetch. */
  const FETCH_ATTEMPTS: nat := MAX_ACCOUNT_REFETCH_ATTEMPTS + 1
  const MIN_CONTEXT_SLOT_ROLLBACK: nat := 8

  /** Where an answer comes from: the chain at a slot, or a fetch whose attempts all failed. */
  datatype Source = AtSlot(slot: nat) | Exhausted(caller: TaskId)
  datatype Answer = Answer(record: Option<Record>, source: Source)

  /** The shared one-shot result; `Dropped` is what waiters see when the sender is gone. */
  datatype FillState = Unresolved | Resolved(answer: Answer) | Dropped

  /** `notified` counts the calls of `notify_waiters` so far. */
  datatype Fill = Fill(owner: TaskId, key: Pubkey, state: FillState, notified: nat)

  /** A resident entry with the history of its residence: the fill it was inserted with,
      the slots of all observations delivered to it, the slot at which the fill's owner
      subscribed, and, once a fetch made for this residence has been merged, the
      subscription slot that fetch went back to. */
  datatype Cell = Cell(entry: Entry, home: FillId, seen: set<nat>, from: Option<nat>, anchor: Option<nat>)

  /** The residence a fetch is made for. */
  datatype Lease = Lease(home: FillId, from: Option<nat>)

  /** The loop of `stream_fill`: arm the notification, look at the entry, sleep.
      `mark` is the notify counter that the armed future captured. */
  datatype Watch =
    | Arming(wakes: nat)
    | Looking(wakes: nat, mark: nat)
    | Asleep(wakes: nat, mark: nat)

  datatype PC =
    | Reading
    | Awaiting(f: FillId)
    | Retiring(f: FillId)
    | Missed
    | Subscribing(f: FillId)
    | Withdrawing(f: FillId)
    | Checking(f: FillId, from: nat)
    | Racing(f: FillId, from: nat, attempt: nat, watch: Watch)
    | Fetching(own: Option<FillId>, min: Option<nat>, attempt: nat, lease: Option<Lease>)
    | Merging(own: Option<FillId>, fetched: Entry, lease: Option<Lease>)
    | Cleaning(f: FillId, answer: Answer)
    | Sending(f: FillId, answer: Answer)
    | Done(answer: Answer, via: Option<FillId>)
    | Gone

  /** One call of `get_record`; `failures` counts its failed RPC attempts. */
  datatype Task = Task(key: Pubkey, pc: PC, failures: nat)

  datatype Updater = Idle | Notifying(fill: FillId)

  datatype State = State(
    db: map<Pubkey, Cell>,
    fills: seq<Fill>,
    tasks: seq<Task>,
    updater: Updater)

  datatype Action =
    | Spawn(key: Pubkey)
    | ReadEntry(t: TaskId)
    | SeeResolved(t: TaskId)
    | SeeDropped(t: TaskId)
    | RetireDead(t: TaskId)
    | Insert(t: TaskId, evicted: Option<Pubkey>)
    | Subscribe(t: TaskId, from: Option<nat>)
    | Withdraw(t: TaskId)
    | Check(t: TaskId)
    | RpcOk(t: TaskId, slot: nat)
    | RpcFail(t: TaskId)
    | Arm(t: TaskId)
    | Look(t: TaskId)
    | Wake(t: TaskId)
    | Merge(t: TaskId)
    | Clean(t: TaskId)
    | Send(t: TaskId)
    | Cancel(t: TaskId)
    | Update(key: Pubkey, slot: nat)
    | Notify
    | Clear(keys: set<Pubkey>)

  /** The caller that performs an action, if it is not the environment or the updater. */
  function Actor(a: Action): Option<TaskId> {
    match a
    case Spawn(_) => None
    case Update(_, _) => None
    case Notify => None
    case Clear(_) => None
    case _ => Some(a.t)
  }

  /** The fill whose sender a task holds. */
  function Owned(pc: PC): Option<FillId> {
    match pc
    case Subscribing(f) => Some(f)
    case Withdrawing(f) => Some(f)
    case Checking(f, _) => Some(f)
    case Racing(f, _, _, _) => Some(f)
    case Fetching(own, _, _, _) => own
    case Merging(own, _, _) => own
    case Cleaning(f, _) => Some(f)
    case Sending(f, _) => Some(f)
    case _ => None
  }

  const INIT: State := State(map[], [], [], Idle)

  function Goto(s: State, t: TaskId, pc: PC): State
    requires t < |s.tasks|
  {
    s.(tasks := s.tasks[t := s.tasks[t].(pc := pc)])
  }

  function Settle(s: State, f: FillId, to: FillState): State
    requires f < |s.fills|
  {
    s.(fills := s.fills[f := s.fills[f].(state := to)])
  }

  /** The entry under `k` still is the placeholder of `f`. */
  predicate HoldsAt(s: State, k: Pubkey, f: FillId) {
    k in s.db && s.db[k].entry.slot == 0 && s.db[k].entry.pendingFill == Some(f)
  }

  /** Guards. Those that ask a fill to be known never block a step: see `TaskOk`. */
  predicate Enabled(s: State, a: Action) {
    match a
    case Spawn(_) => true
    case Update(_, _) => s.updater.Idle?
    case Clear(_) => s.updater.Idle?
    case Notify => s.updater.Notifying? && s.updater.fill < |s.fills|
    case ReadEntry(t) => t < |s.tasks| && s.tasks[t].pc.Reading?
    case SeeResolved(t) => AwaitsKnown(s, t) && s.fills[s.tasks[t].pc.f].state.Resolved?
    case SeeDropped(t) => AwaitsKnown(s, t) && s.fills[s.tasks[t].pc.f].state.Dropped?
    case RetireDead(t) => t < |s.tasks| && s.tasks[t].pc.Retiring?
    case Insert(t, evicted) =>
      && t < |s.tasks| && s.tasks[t].pc.Missed?
      && (evicted.Some? ==> s.tasks[t].key !in s.db && evicted.value in s.db)
    case Subscribe(t, _) => t < |s.tasks| && s.tasks[t].pc.Subscribing?
    case Withdraw(t) => OwnsKnown(s, t) && s.tasks[t].pc.Withdrawing?
    case Check(t) => OwnsKnown(s, t) && s.tasks[t].pc.Checking?
    case RpcOk(t, slot) => InFetch(s, t) && slot > 0 && AtLeast(slot, MinOf(s.tasks[t].pc))
    case RpcFail(t) => InFetch(s, t)
    case Arm(t) => OwnsKnown(s, t) && s.tasks[t].pc.Racing? && s.tasks[t].pc.watch.Arming?
    case Look(t) => t < |s.tasks| && s.tasks[t].pc.Racing? && s.tasks[t].pc.watch.Looking?
    case Wake(t) =>
      && OwnsKnown(s, t) && s.tasks[t].pc.Racing? && s.tasks[t].pc.watch.Asleep?
      && s.fills[s.tasks[t].pc.f].notified > s.tasks[t].pc.watch.mark
    case Merge(t) => t < |s.tasks| && s.tasks[t].pc.Merging?
    case Clean(t) => t < |s.tasks| && s.tasks[t].pc.Cleaning?
    case Send(t) => OwnsKnown(s, t) && s.tasks[t].pc.Sending?
    case Cancel(t) => OwnsKnown(s, t) && !s.tasks[t].pc.Sending? && !s.tasks[t].pc.Done? && !s.tasks[t].pc.Gone?
  }

  /** The RPC answers no older than the minimal context slot it is asked for. */
  predicate AtLeast(slot: nat, min: Option<nat>) {
    min.Some? ==> slot >= min.value
  }

  function CheckedSub(a: nat, b: nat): Option<nat> {
    if a >= b then Some(a - b) else None
  }

  /** Subscribed at slot `from`, the owner fetches from a little earlier. */
  function MinContextSlot(from: nat): Option<nat> {
    CheckedSub(from, MIN_CONTEXT_SLOT_ROLLBACK)
  }

  /** The minimal context slot pending in an entry whose owner subscribed at `from`. */
  function MinFrom(from: Option<nat>): Option<nat> {
    if from.Some? then MinContextSlot(from.value) else None
  }

  function MinOf(pc: PC): Option<nat>
    requires pc.Racing? || pc.Fetching?
  {
    if pc.Racing? then MinContextSlot(pc.from) else pc.min
  }

  predicate AwaitsKnown(s: State, t: TaskId) {
    t < |s.tasks| && s.tasks[t].pc.Awaiting? && s.tasks[t].pc.f < |s.fills|
  }

  predicate OwnsKnown(s: State, t: TaskId) {
    t < |s.tasks| && (Owned(s.tasks[t].pc).Some? ==> Owned(s.tasks[t].pc).value < |s.fills|)
  }

  predicate InFetch(s: State, t: TaskId) {
    t < |s.tasks| && (s.tasks[t].pc.Racing? || s.tasks[t].pc.Fetching?)
  }

  function Apply(chain: Chain, s: State, a: Action): State
    requires Enabled(s, a)
  {
    match a
    case Spawn(k) => s.(tasks := s.tasks + [Task(k, Reading, 0)])
    case Update(k, slot) => DoUpdate(s, k, slot, chain(k, slot))
    case Notify => DoNotify(s)
    case Clear(keys) => s.(db := s.db - keys)
    case RpcOk(t, slot) => DoFetched(s, t, Fetched(slot, chain(s.tasks[t].key, slot)))
    case ReadEntry(t) => DoRead(s, t)
    case SeeResolved(t) => DoSee(s, t)
    case SeeDropped(t) => Goto(s, t, Retiring(s.tasks[t].pc.f))
    case RetireDead(t) => DoRetire(s, t)
    case Insert(t, evicted) => DoInsert(s, t, evicted)
    case Subscribe(t, slot) => DoSubscribe(s, t, slot)
    case Withdraw(t) => DoWithdraw(s, t)
    case Check(t) => DoCheck(s, t)
    case RpcFail(t) => DoFailed(s, t)
    case Arm(t) => DoArm(s, t)
    case Look(t) => DoLook(s, t)
    case Wake(t) => DoWake(s, t)
    case Merge(t) => DoMerge(s, t)
    case Clean(t) => DoClean(s, t)
    case Send(t) => DoSend(s, t)
    case Cancel(t) => Goto(DropOwned(s, t), t, Gone)
  }

  function DoRead(s: State, t: TaskId): State
    requires t < |s.tasks|
  {
    var k := s.tasks[t].key;
    if k !in s.db then Goto(s, t, Missed)
    else
      var e := s.db[k].entry;
      if e.slot != 0 then Goto(s, t, Done(Answer(e.record, AtSlot(e.slot)), None))
      else if e.pendingFill.Some? then Goto(s, t, Awaiting(e.pendingFill.value))
      else Goto(s, t, Fetching(None, e.pendingMin, 0, Some(Lease(s.db[k].home, s.db[k].from))))
  }

  function DoSee(s: State, t: TaskId): State
    requires t < |s.tasks| && s.tasks[t].pc.Awaiting? && s.tasks[t].pc.f < |s.fills|
    requires s.fills[s.tasks[t].pc.f].state.Resolved?
  {
    var f := s.tasks[t].pc.f;
    Goto(s, t, Done(s.fills[f].state.answer, Some(f)))
  }

  function DoRetire(s: State, t: TaskId): State
    requires t < |s.tasks| && s.tasks[t].pc.Retiring?
  {
    var k := s.tasks[t].key;
    var next := Goto(s, t, Reading);
    if HoldsAt(s, k, s.tasks[t].pc.f) then next.(db := s.db - {k}) else next
  }

  function DoInsert(s: State, t: TaskId, evicted: Option<Pubkey>): State
    requires t < |s.tasks|
  {
    var k := s.tasks[t].key;
    if k in s.db then Goto(s, t, Reading)
    else
      var f := |s.fills|;
      var room := if evicted.Some? then s.db - {evicted.value} else s.db;
      Goto(s, t, Subscribing(f)).(
        db := room[k := Cell(Placeholder(f), f, {}, None, None)],
        fills := s.fills + [Fill(t, k, Unresolved, 0)])
  }

  function DoSubscribe(s: State, t: TaskId, slot: Option<nat>): State
    requires t < |s.tasks| && s.tasks[t].pc.Subscribing?
  {
    var f := s.tasks[t].pc.f;
    if slot.None? then Goto(s, t, Withdrawing(f))
    else Goto(s, t, Checking(f, slot.value))
  }

  function DropOwned(s: State, t: TaskId): State
    requires t < |s.tasks|
    requires Owned(s.tasks[t].pc).Some? ==> Owned(s.tasks[t].pc).value < |s.fills|
  {
    var own := Owned(s.tasks[t].pc);
    if own.Some? then Settle(s, own.value, Dropped) else s
  }

  /** A `continue` of the owner drops its sender. */
  function Restart(s: State, t: TaskId): State
    requires t < |s.tasks|
    requires Owned(s.tasks[t].pc).Some? ==> Owned(s.tasks[t].pc).value < |s.fills|
  {
    Goto(DropOwned(s, t), t, Reading)
  }

  function DoWithdraw(s: State, t: TaskId): State
    requires t < |s.tasks| && s.tasks[t].pc.Withdrawing? && s.tasks[t].pc.f < |s.fills|
  {
    var k, f := s.tasks[t].key, s.tasks[t].pc.f;
    if HoldsAt(s, k, f) then Goto(s, t, Fetching(Some(f), None, 0, None)).(db := s.db - {k})
    else Restart(s, t)
  }

  function DoCheck(s: State, t: TaskId): State
    requires t < |s.tasks| && s.tasks[t].pc.Checking? && s.tasks[t].pc.f < |s.fills|
  {
    var k, f, from := s.tasks[t].key, s.tasks[t].pc.f, s.tasks[t].pc.from;
    if HoldsAt(s, k, f) then
      var c := s.db[k];
      Goto(s, t, Racing(f, from, 0, Arming(0))).(
        db := s.db[k := c.(entry := c.entry.(pendingMin := MinContextSlot(from)), from := Some(from))])
    else Restart(s, t)
  }

  function ToAnswer(t: TaskId, e: Entry): Answer {
    Answer(e.record, if e.slot == 0 then Exhausted(t) else AtSlot(e.slot))
  }

  /** A fetch has ended. The withdrawn owner publishes its record, everyone else merges it. */
  function DoFetched(s: State, t: TaskId, fetched: Entry): State
    requires t < |s.tasks| && (s.tasks[t].pc.Racing? || s.tasks[t].pc.Fetching?)
  {
    var pc := s.tasks[t].pc;
    if pc.Racing? then Goto(s, t, Merging(Some(pc.f), fetched, Some(Lease(pc.f, Some(pc.from)))))
    else if pc.own.Some? then Goto(s, t, Sending(pc.own.value, ToAnswer(t, fetched)))
    else Goto(s, t, Merging(None, fetched, pc.lease))
  }

  function DoFailed(s: State, t: TaskId): State
    requires t < |s.tasks| && (s.tasks[t].pc.Racing? || s.tasks[t].pc.Fetching?)
  {
    var task := s.tasks[t];
    var counted := s.(tasks := s.tasks[t := task.(failures := task.failures + 1)]);
    if task.pc.attempt + 1 < FETCH_ATTEMPTS then
      Goto(counted, t, task.pc.(attempt := task.pc.attempt + 1))
    else
      DoFetched(counted, t, Fetched(0, None))
  }

  /** `filled()` captures the notify counter before the entry is read. */
  function DoArm(s: State, t: TaskId): State
    requires t < |s.tasks| && s.tasks[t].pc.Racing? && s.tasks[t].pc.f < |s.fills|
  {
    var pc := s.tasks[t].pc;
    Goto(s, t, pc.(watch := Looking(pc.watch.wakes, s.fills[pc.f].notified)))
  }

  function DoWake(s: State, t: TaskId): State
    requires t < |s.tasks| && s.tasks[t].pc.Racing?
  {
    var pc := s.tasks[t].pc;
    Goto(s, t, pc.(watch := Arming(pc.watch.wakes + 1)))
  }

  function DoLook(s: State, t: TaskId): State
    requires t < |s.tasks| && s.tasks[t].pc.Racing? && s.tasks[t].pc.watch.Looking?
  {
    var k, pc := s.tasks[t].key, s.tasks[t].pc;
    if k in s.db && s.db[k].entry.slot != 0 then Goto(s, t, Cleaning(pc.f, ToAnswer(t, s.db[k].entry)))
    else Goto(s, t, pc.(watch := Asleep(pc.watch.wakes, pc.watch.mark)))
  }

  function MergeCell(c: Cell, fetched: Entry, own: Option<FillId>, lease: Option<Lease>): Cell {
    if Blocks(c.entry, own) || fetched.slot == 0 then c
    else Cell(Merged(c.entry, fetched, own), c.home, c.seen + {fetched.slot}, c.from,
              if lease.Some? && lease.value.home == c.home && lease.value.from.Some? then lease.value.from
              else c.anchor)
  }

  function DoMerge(s: State, t: TaskId): State
    requires t < |s.tasks| && s.tasks[t].pc.Merging?
  {
    var k, own, fetched := s.tasks[t].key, s.tasks[t].pc.own, s.tasks[t].pc.fetched;
    var served := if k in s.db then Served(s.db[k].entry, fetched, own) else fetched;
    var answer := ToAnswer(t, served);
    var next := Goto(s, t, if own.Some? then Cleaning(own.value, answer) else Done(answer, None));
    if k in s.db then next.(db := s.db[k := MergeCell(s.db[k], fetched, own, s.tasks[t].pc.lease)]) else next
  }

  function DoClean(s: State, t: TaskId): State
    requires t < |s.tasks| && s.tasks[t].pc.Cleaning?
  {
    var k, pc := s.tasks[t].key, s.tasks[t].pc;
    var next := Goto(s, t, Sending(pc.f, pc.answer));
    if k in s.db then
      next.(db := s.db[k := s.db[k].(entry := Cleaned(s.db[k].entry, pc.f))])
    else next
  }

  function DoSend(s: State, t: TaskId): State
    requires t < |s.tasks| && s.tasks[t].pc.Sending? && s.tasks[t].pc.f < |s.fills|
  {
    var pc := s.tasks[t].pc;
    Goto(Settle(s, pc.f, Resolved(pc.answer)), t, Done(pc.answer, Some(pc.f)))
  }

  function DoUpdate(s: State, k: Pubkey, slot: nat, record: Option<Record>): State {
    if k !in s.db then s
    else
      var c := s.db[k];
      var taken := Taken(c.entry, slot);
      s.(db := s.db[k := Cell(Streamed(c.entry, slot, record), c.home,
                                 if slot == 0 then c.seen else c.seen + {slot}, c.from, c.anchor)],
         updater := if taken.Some? then Notifying(taken.value) else Idle)
  }

  function DoNotify(s: State): State
    requires s.updater.Notifying? && s.updater.fill < |s.fills|
  {
    var f := s.updater.fill;
    s.(fills := s.fills[f := s.fills[f].(notified := s.fills[f].notified + 1)], updater := Idle)
  }

  /** A run is a sequence of actions, each enabled in the state its predecessors lead to. */
  predicate IsRun(chain: Chain, run: seq<Action>)
    decreases |run|, 0
  {
    run == [] ||
    (IsRun(chain, run[..|run| - 1]) && Enabled(After(chain, run[..|run| - 1]), run[|run| - 1]))
  }

  function After(chain: Chain, run: seq<Action>): State
    requires IsRun(chain, run)
    decreases |run|, 1
  {
    if run == [] then INIT
    else Apply(chain, After(chain, run[..|run| - 1]), run[|run| - 1])
  }
}
