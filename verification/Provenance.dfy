/** Every record in the cache, on its way or returned was observed in the run. */
module Provenance {
  import opened RouterTypes
  import opened CacheEntry
  import opened FillProtocol
  import opened FillInvariant

  /** What an action lets the router see: a key at a slot. */
  function Sighted(s: State, a: Action): set<(Pubkey, nat)> {
    match a
    case Update(k, slot) => {(k, slot)}
    case RpcOk(t, slot) => if t < |s.tasks| then {(s.tasks[t].key, slot)} else {}
    case _ => {}
  }

  function Sightings(chain: Chain, run: seq<Action>): set<(Pubkey, nat)>
    requires IsRun(chain, run)
  {
    if run == [] then {}
    else
      var before := run[..|run| - 1];
      Sightings(chain, before) + Sighted(After(chain, before), run[|run| - 1])
  }

  predicate SourcedAnswer(k: Pubkey, answer: Answer, seen: set<(Pubkey, nat)>) {
    answer.source.AtSlot? ==> (k, answer.source.slot) in seen
  }

  predicate SourcedTask(task: Task, seen: set<(Pubkey, nat)>) {
    match task.pc
    case Merging(_, fetched, _) => fetched.slot != 0 ==> (task.key, fetched.slot) in seen
    case Cleaning(_, answer) => SourcedAnswer(task.key, answer, seen)
    case Sending(_, answer) => SourcedAnswer(task.key, answer, seen)
    case Done(answer, _) => SourcedAnswer(task.key, answer, seen)
    case _ => true
  }

  predicate SourcedFill(fill: Fill, seen: set<(Pubkey, nat)>) {
    fill.state.Resolved? ==> SourcedAnswer(fill.key, fill.state.answer, seen)
  }

  ghost predicate AllSourced(s: State, seen: set<(Pubkey, nat)>) {
    && (forall t | 0 <= t < |s.tasks| :: SourcedTask(s.tasks[t], seen))
    && (forall f | 0 <= f < |s.fills| :: SourcedFill(s.fills[f], seen))
    && (forall k <- s.db :: s.db[k].entry.slot != 0 ==> (k, s.db[k].entry.slot) in seen)
  }

  lemma ActorSourced(chain: Chain, s: State, a: Action, seen: set<(Pubkey, nat)>)
    requires Inv(chain, s) && Enabled(s, a) && AllSourced(s, seen) && Actor(a).Some?
    ensures a.t < |Apply(chain, s, a).tasks| && SourcedTask(Apply(chain, s, a).tasks[a.t], seen + Sighted(s, a))
  {
    assert TaskOk(chain, s, a.t) && SourcedTask(s.tasks[a.t], seen);
    if a.SeeResolved? { assert SourcedFill(s.fills[s.tasks[a.t].pc.f], seen); }
  }

  lemma TaskSourced(chain: Chain, s: State, a: Action, seen: set<(Pubkey, nat)>, t: TaskId)
    requires Inv(chain, s) && Enabled(s, a) && AllSourced(s, seen) && t < |Apply(chain, s, a).tasks|
    ensures SourcedTask(Apply(chain, s, a).tasks[t], seen + Sighted(s, a))
  {
    if Actor(a) == Some(t) {
      ActorSourced(chain, s, a, seen);
    } else if t < |s.tasks| {
      OthersStay(chain, s, a, t);
      assert SourcedTask(s.tasks[t], seen);
    }
  }

  lemma FillSourced(chain: Chain, s: State, a: Action, seen: set<(Pubkey, nat)>, f: FillId)
    requires Inv(chain, s) && Enabled(s, a) && AllSourced(s, seen) && f < |Apply(chain, s, a).fills|
    ensures SourcedFill(Apply(chain, s, a).fills[f], seen)
  {
    if f < |s.fills| { assert SourcedFill(s.fills[f], seen); }
    if a.Send? { assert TaskOk(chain, s, a.t) && SourcedTask(s.tasks[a.t], seen); }
  }

  lemma CellSourced(chain: Chain, s: State, a: Action, seen: set<(Pubkey, nat)>, k: Pubkey)
    requires Inv(chain, s) && Enabled(s, a) && AllSourced(s, seen) && k in Apply(chain, s, a).db
    ensures var e := Apply(chain, s, a).db[k].entry; e.slot != 0 ==> (k, e.slot) in seen + Sighted(s, a)
  {
    if a.Merge? { assert SourcedTask(s.tasks[a.t], seen); }
  }

  lemma StepSourced(chain: Chain, s: State, a: Action, seen: set<(Pubkey, nat)>)
    requires Inv(chain, s) && Enabled(s, a) && AllSourced(s, seen)
    ensures AllSourced(Apply(chain, s, a), seen + Sighted(s, a))
  {
    var s', seen' := Apply(chain, s, a), seen + Sighted(s, a);
    forall t | 0 <= t < |s'.tasks| ensures SourcedTask(s'.tasks[t], seen') { TaskSourced(chain, s, a, seen, t); }
    forall f | 0 <= f < |s'.fills| ensures SourcedFill(s'.fills[f], seen') { FillSourced(chain, s, a, seen, f); }
    forall k <- s'.db ensures s'.db[k].entry.slot != 0 ==> (k, s'.db[k].entry.slot) in seen' {
      CellSourced(chain, s, a, seen, k);
    }
  }

  lemma {:induction false} RunSourced(chain: Chain, run: seq<Action>)
    requires IsRun(chain, run)
    ensures AllSourced(After(chain, run), Sightings(chain, run))
  {
    if run != [] {
      var before := run[..|run| - 1];
      RunKeeps(chain, before);
      RunSourced(chain, before);
      StepSourced(chain, After(chain, before), run[|run| - 1], Sightings(chain, before));
    }
  }

  /** The stream delivered the key at that slot, or the RPC answered a call on that key with it. */
  predicate Observes(s: State, a: Action, k: Pubkey, slot: nat) {
    a == Update(k, slot) || (a.RpcOk? && a.slot == slot && a.t < |s.tasks| && s.tasks[a.t].key == k)
  }

  ghost predicate Observed(chain: Chain, run: seq<Action>, k: Pubkey, slot: nat)
    requires IsRun(chain, run)
  {
    exists a <- run :: Observes(After(chain, run), a, k, slot)
  }

  lemma KeysStay(chain: Chain, s: State, a: Action)
    requires Enabled(s, a)
    ensures var s' := Apply(chain, s, a);
            |s.tasks| <= |s'.tasks| && forall t | 0 <= t < |s.tasks| :: s'.tasks[t].key == s.tasks[t].key
  {
    forall t | 0 <= t < |s.tasks|
      ensures t < |Apply(chain, s, a).tasks| && Apply(chain, s, a).tasks[t].key == s.tasks[t].key
    {
      if Actor(a) != Some(t) { OthersStay(chain, s, a, t); }
    }
  }

  /** What has been sighted was an observation of the run. */
  lemma {:induction false} SightingsObserved(chain: Chain, run: seq<Action>, k: Pubkey, slot: nat)
    requires IsRun(chain, run) && (k, slot) in Sightings(chain, run)
    ensures Observed(chain, run, k, slot)
  {
    var before, last := run[..|run| - 1], run[|run| - 1];
    var s := After(chain, before);
    KeysStay(chain, s, last);
    if (k, slot) in Sighted(s, last) {
      assert last in run && Observes(After(chain, run), last, k, slot);
    } else {
      SightingsObserved(chain, before, k, slot);
      var a :| a in before && Observes(s, a, k, slot);
      assert a in run && Observes(After(chain, run), a, k, slot);
    }
  }
}
