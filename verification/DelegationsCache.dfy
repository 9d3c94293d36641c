/** The cache as the source writes it: one map updated in place, a retrying fetch and the
    updater's message loop. Each map operation equals the step the protocol takes. */
module DelegationsCache {
  import opened RouterTypes
  import opened CacheEntry
  import P = FillProtocol

  type Db = map<Pubkey, Entry>

  // ---- The map operations as functions of the map ----

  predicate IsPlaceholderOf(db: Db, k: Pubkey, f: FillId) {
    k in db && db[k].slot == 0 && db[k].pendingFill == Some(f)
  }

  function WithoutPlaceholder(db: Db, k: Pubkey, f: FillId): Db {
    if IsPlaceholderOf(db, k, f) then db - {k} else db
  }

  function MergedDb(db: Db, k: Pubkey, fetched: Entry, own: Option<FillId>): Db {
    if k in db then db[k := Merged(db[k], fetched, own)] else db
  }

  function CleanedDb(db: Db, k: Pubkey, f: FillId): Db {
    if k in db then db[k := Cleaned(db[k], f)] else db
  }

  function StreamedDb(db: Db, k: Pubkey, slot: nat, record: Option<Record>): Db {
    if k in db then db[k := Streamed(db[k], slot, record)] else db
  }

  function TakenFrom(db: Db, k: Pubkey, slot: nat): Option<FillId> {
    if k in db then Taken(db[k], slot) else None
  }

  // ---- These operations are the steps of the protocol ----

  function Entries(s: P.State): Db {
    map k | k in s.db :: s.db[k].entry
  }

  /** The map steps of a caller do what the cache's methods for them do. */
  lemma CallerStepsAreMapOperations(chain: P.Chain, s: P.State, a: P.Action)
    requires P.Enabled(s, a)
    requires a.RetireDead? || a.Withdraw? || a.Merge? || a.Clean? || a.Insert? || a.Check?
    ensures var db, db' := Entries(s), Entries(P.Apply(chain, s, a));
            var k, pc := s.tasks[a.t].key, s.tasks[a.t].pc;
            && (a.RetireDead? || a.Withdraw? ==> db' == WithoutPlaceholder(db, k, pc.f))
            && (a.Merge? ==> db' == MergedDb(db, k, pc.fetched, pc.own))
            && (a.Clean? ==> db' == CleanedDb(db, k, pc.f))
            && (a.Insert? && k in db ==> db' == db)
            && (a.Insert? && k !in db ==>
                  db' == (db - if a.evicted.Some? then {a.evicted.value} else {})[k := Placeholder(|s.fills|)])
            && (a.Check? && IsPlaceholderOf(db, k, pc.f) ==>
                  db' == db[k := db[k].(pendingMin := P.MinContextSlot(pc.from))])
            && (a.Check? && !IsPlaceholderOf(db, k, pc.f) ==> db' == db)
  {
  }

  /** So do the updater's, and no other step touches the map. */
  lemma OtherStepsAreMapOperations(chain: P.Chain, s: P.State, a: P.Action)
    requires P.Enabled(s, a)
    requires !(a.RetireDead? || a.Withdraw? || a.Merge? || a.Clean? || a.Insert? || a.Check?)
    ensures var db, db' := Entries(s), Entries(P.Apply(chain, s, a));
            && (a.Update? ==>
                  var taken := TakenFrom(db, a.key, a.slot);
                  && db' == StreamedDb(db, a.key, a.slot, chain(a.key, a.slot))
                  && P.Apply(chain, s, a).updater == if taken.Some? then P.Notifying(taken.value) else P.Idle)
            && (a.Clear? ==> db' == db - a.keys)
            && (!a.Update? && !a.Clear? ==> db' == db)
  {
  }

  // ---- The fetch ----

  datatype RpcReply = Answered(slot: nat, account: Option<Record>) | Failed

  /** `replies[i]` is what the RPC answers to attempt i. The fetch returns the first answer
      among its attempts and stops there; if all fail it returns the slot-0 entry. */
  method Fetch(replies: seq<RpcReply>) returns (fetched: Entry, used: nat)
    requires |replies| == 4
    ensures 0 < used <= |replies|
    ensures forall i | 0 <= i < used - 1 :: replies[i].Failed?
    ensures replies[used - 1].Answered? ==> fetched == Fetched(replies[used - 1].slot, replies[used - 1].account)
    ensures replies[used - 1].Failed? ==> used == |replies| && fetched == Fetched(0, None)
  {
    for attempt := 0 to P.MAX_ACCOUNT_REFETCH_ATTEMPTS + 1
      invariant forall i | 0 <= i < attempt :: replies[i].Failed?
    {
      if replies[attempt].Answered? {
        return Fetched(replies[attempt].slot, replies[attempt].account), attempt + 1;
      }
    }
    return Fetched(0, None), |replies|;
  }

  // ---- Transition counting ----

  datatype AccountUpdate =
    | Delegated(key: Pubkey, parsed: Option<Record>, slot: nat)
    | Undelegated(key: Pubkey, slot: nat)
    | SyncInterrupted
    | SyncTerminated

  function Authority(record: Option<Record>): Option<Pubkey> {
    if record.Some? then Some(record.value.authority) else None
  }

  datatype Transition = Unchanged | BecameDelegated | BecameUndelegated | Redelegated

  function TransitionOf(was: Option<Record>, now: Option<Record>): Transition {
    if Authority(was) == Authority(now) then Unchanged
    else if was.None? then BecameDelegated
    else if now.None? then BecameUndelegated
    else Redelegated
  }

  /** The transition an update is counted as: none if it is stale or fills a pending entry. */
  function CountedAs(db: Db, k: Pubkey, slot: nat, record: Option<Record>): Transition {
    if k !in db || db[k].slot >= slot || db[k].slot == 0 then Unchanged
    else TransitionOf(db[k].record, record)
  }

  /** `primed` are delegated records installed by an initial fill, `cleared` those lost to
      a clear; neither is a counted transition. */
  datatype Tally = Tally(delegated: nat, undelegated: nat, redelegated: nat, primed: nat, cleared: nat)

  function DelegatedKeys(db: Db): set<Pubkey> {
    set k | k in db && db[k].record.Some?
  }

  predicate AllWellFormed(db: Db) {
    forall k <- db :: WellFormed(db[k])
  }

  function Count(tally: Tally, db: Db, k: Pubkey, slot: nat, record: Option<Record>): Tally {
    match CountedAs(db, k, slot, record)
    case BecameDelegated => tally.(delegated := tally.delegated + 1)
    case BecameUndelegated => tally.(undelegated := tally.undelegated + 1)
    case Redelegated => tally.(redelegated := tally.redelegated + 1)
    case Unchanged =>
      if k in db && db[k].slot == 0 < slot && record.Some? then tally.(primed := tally.primed + 1) else tally
  }

  /** One message of the stream. */
  function Handled(db: Db, msg: AccountUpdate): Db {
    match msg
    case Delegated(k, parsed, slot) => StreamedDb(db, k, slot, parsed)
    case Undelegated(k, slot) => StreamedDb(db, k, slot, None)
    case SyncInterrupted => map[]
    case SyncTerminated => db
  }

  function Counted(tally: Tally, db: Db, msg: AccountUpdate): Tally {
    match msg
    case Delegated(k, parsed, slot) => Count(tally, db, k, slot, parsed)
    case Undelegated(k, slot) => Count(tally, db, k, slot, None)
    case SyncInterrupted => tally.(cleared := tally.cleared + |DelegatedKeys(db)|)
    case SyncTerminated => tally
  }

  function DbAfter(db: Db, msgs: seq<AccountUpdate>): Db {
    if msgs == [] then db else Handled(DbAfter(db, msgs[..|msgs| - 1]), msgs[|msgs| - 1])
  }

  function TallyAfter(db: Db, msgs: seq<AccountUpdate>): Tally {
    if msgs == [] then Tally(0, 0, 0, 0, 0)
    else Counted(TallyAfter(db, msgs[..|msgs| - 1]), DbAfter(db, msgs[..|msgs| - 1]), msgs[|msgs| - 1])
  }

  function Delegatedness(record: Option<Record>): int {
    if record.Some? then 1 else 0
  }

  lemma UpdateKeepsForm(db: Db, k: Pubkey, slot: nat, record: Option<Record>)
    requires AllWellFormed(db)
    ensures AllWellFormed(StreamedDb(db, k, slot, record))
  {
  }

  /** Who is delegated after an update that is not stale. */
  lemma DelegatedAfter(db: Db, k: Pubkey, slot: nat, record: Option<Record>)
    requires k in db && db[k].slot < slot
    ensures var was, now := DelegatedKeys(db), DelegatedKeys(StreamedDb(db, k, slot, record));
            && now == (if record.Some? then was + {k} else was - {k})
            && |now| == (if record.Some? then |was - {k}| + 1 else |was - {k}|)
            && |was| == |was - {k}| + Delegatedness(db[k].record)
  {
    var was, now := DelegatedKeys(db), DelegatedKeys(StreamedDb(db, k, slot, record));
    assert now == if record.Some? then (was - {k}) + {k} else was - {k};
    assert k in was ==> was == (was - {k}) + {k};
    assert k !in was ==> was == was - {k};
  }

  lemma UpdateBalances(db: Db, k: Pubkey, slot: nat, record: Option<Record>, tally: Tally)
    requires AllWellFormed(db)
    ensures AllWellFormed(StreamedDb(db, k, slot, record))
    ensures var tally' := Count(tally, db, k, slot, record);
            |DelegatedKeys(StreamedDb(db, k, slot, record))| - |DelegatedKeys(db)| ==
            (tally'.delegated - tally.delegated) + (tally'.primed - tally.primed)
            - (tally'.undelegated - tally.undelegated)
    ensures Count(tally, db, k, slot, record).cleared == tally.cleared
  {
    UpdateKeepsForm(db, k, slot, record);
    if k in db && db[k].slot < slot {
      assert WellFormed(db[k]);
      DelegatedAfter(db, k, slot, record);
    } else {
      assert StreamedDb(db, k, slot, record) == db;
    }
  }

  /** Conservation of delegated entries: whatever the stream delivers, the entries that are
      delegated now are those that were, plus the counted delegations and the initial fills,
      minus the counted undelegations and what clears threw away. */
  lemma {:induction false} TransitionsTelescope(db: Db, msgs: seq<AccountUpdate>)
    requires AllWellFormed(db)
    ensures AllWellFormed(DbAfter(db, msgs))
    ensures var tally := TallyAfter(db, msgs);
            |DelegatedKeys(DbAfter(db, msgs))| ==
            |DelegatedKeys(db)| + tally.delegated + tally.primed - tally.undelegated - tally.cleared
  {
    if msgs != [] {
      var before, last := msgs[..|msgs| - 1], msgs[|msgs| - 1];
      TransitionsTelescope(db, before);
      match last
      case Delegated(k, parsed, slot) => UpdateBalances(DbAfter(db, before), k, slot, parsed, TallyAfter(db, before));
      case Undelegated(k, slot) => UpdateBalances(DbAfter(db, before), k, slot, None, TallyAfter(db, before));
      case SyncInterrupted =>
        var none: Db := map[];
        assert DelegatedKeys(none) == {};
      case SyncTerminated =>
    }
  }

  function Added(x: Tally, y: Tally): Tally {
    Tally(x.delegated + y.delegated, x.undelegated + y.undelegated, x.redelegated + y.redelegated,
          x.primed + y.primed, x.cleared + y.cleared)
  }

  lemma DelegatedKeysAdd(a: Db, b: Db)
    requires a.Keys !! b.Keys
    ensures |DelegatedKeys(a + b)| == |DelegatedKeys(a)| + |DelegatedKeys(b)|
  {
    assert DelegatedKeys(a + b) == DelegatedKeys(a) + DelegatedKeys(b);
  }

  lemma UpdateAdds(a: Db, b: Db, x: Tally, y: Tally, k: Pubkey, slot: nat, record: Option<Record>)
    requires a.Keys !! b.Keys
    ensures StreamedDb(a + b, k, slot, record) == StreamedDb(a, k, slot, record) + StreamedDb(b, k, slot, record)
    ensures Count(Added(x, y), a + b, k, slot, record) ==
              Added(Count(x, a, k, slot, record), Count(y, b, k, slot, record))
  {
  }

  lemma MessageAdds(a: Db, b: Db, x: Tally, y: Tally, msg: AccountUpdate)
    requires a.Keys !! b.Keys
    ensures Handled(a, msg).Keys <= a.Keys && Handled(b, msg).Keys <= b.Keys
    ensures Handled(a + b, msg) == Handled(a, msg) + Handled(b, msg)
    ensures Counted(Added(x, y), a + b, msg) == Added(Counted(x, a, msg), Counted(y, b, msg))
  {
    match msg
    case Delegated(k, parsed, slot) => UpdateAdds(a, b, x, y, k, slot, parsed);
    case Undelegated(k, slot) => UpdateAdds(a, b, x, y, k, slot, None);
    case SyncInterrupted => DelegatedKeysAdd(a, b);
    case SyncTerminated =>
  }

  /** Entries do not influence each other: two parts of the map evolve and are counted as
      if each were alone. */
  lemma {:induction false} TalliesAdd(a: Db, b: Db, msgs: seq<AccountUpdate>)
    requires a.Keys !! b.Keys
    ensures DbAfter(a, msgs).Keys <= a.Keys && DbAfter(b, msgs).Keys <= b.Keys
    ensures DbAfter(a + b, msgs) == DbAfter(a, msgs) + DbAfter(b, msgs)
    ensures TallyAfter(a + b, msgs) == Added(TallyAfter(a, msgs), TallyAfter(b, msgs))
  {
    if msgs != [] {
      var before := msgs[..|msgs| - 1];
      TalliesAdd(a, b, before);
      MessageAdds(DbAfter(a, before), DbAfter(b, before), TallyAfter(a, before), TallyAfter(b, before),
                  msgs[|msgs| - 1]);
    }
  }

  /** How the counters move, in terms of the authorities alone: a stale update, the first value
      of a pending entry and an unchanged authority are not counted; any other update raises
      exactly one counter by one. */
  lemma CountsOneTransition(tally: Tally, db: Db, k: Pubkey, slot: nat, record: Option<Record>)
    ensures var tally' := Count(tally, db, k, slot, record);
            var counted := k in db && 0 < db[k].slot < slot &&
              match (db[k].record, record)
              case (None, None) => false
              case (Some(was), Some(now)) => was.authority != now.authority
              case _ => true;
            && tally'.delegated == tally.delegated + (if counted && db[k].record.None? then 1 else 0)
            && tally'.undelegated == tally.undelegated + (if counted && record.None? then 1 else 0)
            && tally'.redelegated ==
               tally.redelegated + (if counted && db[k].record.Some? && record.Some? then 1 else 0)
  {
  }

  /** What the counters say about entry `k`, looked at alone. */
  function TallyOf(db: Db, msgs: seq<AccountUpdate>, k: Pubkey): Tally
    requires k in db
  {
    TallyAfter(map[k := db[k]], msgs)
  }

  function AuthorityAt(db: Db, k: Pubkey): Option<Pubkey> {
    if k in db && db[k].record.Some? then Some(db[k].record.value.authority) else None
  }

  /** How often a message changed the authority in the entry. */
  function Changes(db: Db, msgs: seq<AccountUpdate>, k: Pubkey): nat {
    if msgs == [] then 0
    else
      var before := msgs[..|msgs| - 1];
      Changes(db, before, k) + if AuthorityAt(DbAfter(db, before), k) != AuthorityAt(DbAfter(db, msgs), k) then 1 else 0
  }

  lemma {:induction false} ChangesAlone(db: Db, msgs: seq<AccountUpdate>, k: Pubkey)
    requires k in db
    ensures AuthorityAt(DbAfter(db, msgs), k) == AuthorityAt(DbAfter(map[k := db[k]], msgs), k)
    ensures Changes(db, msgs, k) == Changes(map[k := db[k]], msgs, k)
  {
    var alone, rest: Db := map[k := db[k]], db - {k};
    assert db == alone + rest;
    TalliesAdd(alone, rest, msgs);
    if msgs != [] { ChangesAlone(db, msgs[..|msgs| - 1], k); }
  }

  lemma {:induction false} LoneEntryTelescopes(db: Db, msgs: seq<AccountUpdate>, k: Pubkey)
    requires db.Keys == {k} && db[k].slot != 0 && SyncInterrupted !in msgs
    ensures DbAfter(db, msgs).Keys == {k} && DbAfter(db, msgs)[k].slot >= db[k].slot
    ensures var tally, was, now := TallyAfter(db, msgs), db[k].record, DbAfter(db, msgs)[k].record;
            && tally.delegated - tally.undelegated == Delegatedness(now) - Delegatedness(was)
            && (tally.delegated + tally.undelegated + tally.redelegated == 0 ==> Authority(now) == Authority(was))
            && tally.delegated + tally.undelegated + tally.redelegated == Changes(db, msgs, k)
            && tally.primed == 0 && tally.cleared == 0
  {
    if msgs != [] { LoneEntryTelescopes(db, msgs[..|msgs| - 1], k); }
  }

  /** For one initialised entry among any others: delegated minus undelegated transitions is
      the change in its delegatedness, the transitions are as many as its authority changed, and
      the counters are its share plus that of the rest of the map. */
  lemma {:induction false} EntryTelescopes(db: Db, msgs: seq<AccountUpdate>, k: Pubkey)
    requires k in db && db[k].slot != 0 && SyncInterrupted !in msgs
    ensures k in DbAfter(db, msgs) && DbAfter(db, msgs)[k].slot >= db[k].slot
    ensures var tally, was, now := TallyOf(db, msgs, k), db[k].record, DbAfter(db, msgs)[k].record;
            && tally.delegated - tally.undelegated == Delegatedness(now) - Delegatedness(was)
            && (tally.delegated + tally.undelegated + tally.redelegated == 0 ==> Authority(now) == Authority(was))
            && tally.delegated + tally.undelegated + tally.redelegated == Changes(db, msgs, k)
            && tally.primed == 0 && tally.cleared == 0
    ensures TallyAfter(db, msgs) == Added(TallyOf(db, msgs, k), TallyAfter(db - {k}, msgs))
  {
    var alone, rest: Db := map[k := db[k]], db - {k};
    assert db == alone + rest;
    LoneEntryTelescopes(alone, msgs, k);
    ChangesAlone(db, msgs, k);
    TalliesAdd(alone, rest, msgs);
    var now, others := DbAfter(alone, msgs), DbAfter(rest, msgs);
    assert k in now && k !in others;
    assert (now + others)[k] == now[k];
  }

  // ---- What the stream leaves in an entry ----

  predicate About(msg: AccountUpdate, k: Pubkey) {
    (msg.Delegated? || msg.Undelegated?) && msg.key == k
  }

  /** The record an update carries: none if the account is undelegated or does not parse. */
  function Carried(msg: AccountUpdate): Option<Record> {
    if msg.Delegated? then msg.parsed else None
  }

  /** The entry is the first of its updates at the greatest slot, or untouched if none is newer. */
  ghost predicate LatestOf(was: Entry, now: Entry, msgs: seq<AccountUpdate>, k: Pubkey) {
    && (forall i | 0 <= i < |msgs| && About(msgs[i], k) :: msgs[i].slot <= now.slot)
    && (now == was || exists i | 0 <= i < |msgs| && About(msgs[i], k) ::
          && now == Entry(msgs[i].slot, Carried(msgs[i]), None, None) && was.slot < now.slot
          && forall j | 0 <= j < i && About(msgs[j], k) :: msgs[j].slot < now.slot)
  }

  lemma {:induction false} EntryIsLatest(db: Db, msgs: seq<AccountUpdate>, k: Pubkey)
    requires SyncInterrupted !in msgs && k in db
    ensures k in DbAfter(db, msgs) && LatestOf(db[k], DbAfter(db, msgs)[k], msgs, k)
  {
    if msgs != [] {
      var before, last := msgs[..|msgs| - 1], msgs[|msgs| - 1];
      EntryIsLatest(db, before, k);
      var e, e' := DbAfter(db, before)[k], DbAfter(db, msgs)[k];
      assert forall i | 0 <= i < |before| :: msgs[i] == before[i];
      if e' == e {
        assert last != SyncInterrupted;
      } else {
        assert About(msgs[|before|], k) && e' == Entry(last.slot, Carried(last), None, None);
      }
    }
  }

  /** The stream only updates what is resident, until an interruption empties the cache. */
  lemma {:induction false} ResidentAfter(db: Db, msgs: seq<AccountUpdate>)
    ensures DbAfter(db, msgs).Keys == if SyncInterrupted in msgs then {} else db.Keys
  {
    if msgs != [] {
      ResidentAfter(db, msgs[..|msgs| - 1]);
      assert msgs == msgs[..|msgs| - 1] + [msgs[|msgs| - 1]];
    }
  }

  // ---- The cache object ----

  class Cache {
    var db: Db
    var delegated: nat
    var undelegated: nat
    var redelegated: nat

    constructor ()
      ensures db == map[] && delegated == undelegated == redelegated == 0
    {
      db := map[];
      delegated, undelegated, redelegated := 0, 0, 0;
    }

    /** Removes the entry only if it still is the placeholder of this very fill. */
    method RemovePendingFill(pda: Pubkey, fill: FillId) returns (removed: bool)
      modifies this`db
      ensures db == WithoutPlaceholder(old(db), pda, fill)
      ensures removed <==> db != old(db)
    {
      removed := false;
      if pda in db && db[pda].slot == 0 && db[pda].pendingFill == Some(fill) {
        db := db - {pda};
        removed := true;
      }
    }

    method MergeFetched(pda: Pubkey, fetched: Entry, own: Option<FillId>) returns (record: Option<Record>)
      modifies this`db
      ensures db == MergedDb(old(db), pda, fetched, own)
      ensures pda !in old(db) ==> record == fetched.record
      ensures pda in old(db) && !Blocks(old(db)[pda], own) ==> record == db[pda].record
      ensures pda in old(db) && Blocks(old(db)[pda], own) ==> record == fetched.record && db == old(db)
    {
      if pda in db {
        var entry := db[pda];
        if entry.pendingFill.Some? && (own.None? || entry.pendingFill.value != own.value) {
          return fetched.record;
        }
        if entry.slot < fetched.slot {
          db := db[pda := fetched];
          record := fetched.record;
        } else {
          record := entry.record;
        }
      } else {
        record := fetched.record;
      }
    }

    method ReleaseFill(pda: Pubkey, fill: FillId)
      modifies this`db
      ensures db == CleanedDb(old(db), pda, fill)
    {
      if pda in db && db[pda].pendingFill == Some(fill) {
        db := db[pda := db[pda].(pendingFill := None)];
      }
    }

    /** Applies one stream update and hands back the fill whose owner has to be woken. */
    method UpdateCachedEntry(pda: Pubkey, slot: nat, record: Option<Record>) returns (wake: Option<FillId>)
      modifies this
      ensures db == StreamedDb(old(db), pda, slot, record)
      ensures wake == TakenFrom(old(db), pda, slot)
      ensures var counted := pda in old(db) && 0 < old(db)[pda].slot < slot &&
                             Authority(old(db)[pda].record) != Authority(record);
              && delegated == old(delegated) + (if counted && old(db)[pda].record.None? then 1 else 0)
              && undelegated == old(undelegated) + (if counted && record.None? then 1 else 0)
              && redelegated == old(redelegated) +
                                (if counted && old(db)[pda].record.Some? && record.Some? then 1 else 0)
    {
      wake := None;
      if pda !in db { return; }
      var entry := db[pda];
      if entry.slot >= slot { return; }
      var was, now := Authority(entry.record), Authority(record);
      if was != now && entry.slot != 0 {
        if was.None? { delegated := delegated + 1; }
        else if now.None? { undelegated := undelegated + 1; }
        else { redelegated := redelegated + 1; }
      }
      wake := entry.pendingFill;
      db := db[pda := Entry(slot, record, None, None)];
    }

    /** The updater's message loop. */
    method Updater(msgs: seq<AccountUpdate>)
      modifies this
      ensures db == DbAfter(old(db), msgs)
      ensures var tally := TallyAfter(old(db), msgs);
              && delegated == old(delegated) + tally.delegated
              && undelegated == old(undelegated) + tally.undelegated
              && redelegated == old(redelegated) + tally.redelegated
    {
      for i := 0 to |msgs|
        invariant db == DbAfter(old(db), msgs[..i])
        invariant delegated == old(delegated) + TallyAfter(old(db), msgs[..i]).delegated
        invariant undelegated == old(undelegated) + TallyAfter(old(db), msgs[..i]).undelegated
        invariant redelegated == old(redelegated) + TallyAfter(old(db), msgs[..i]).redelegated
      {
        assert msgs[..i + 1][..i] == msgs[..i];
        match msgs[i] {
          case Delegated(k, parsed, slot) => var _ := UpdateCachedEntry(k, slot, parsed);
          case Undelegated(k, slot) => var _ := UpdateCachedEntry(k, slot, None);
          case SyncInterrupted => db := map[];
          case SyncTerminated =>
        }
      }
      assert msgs[..|msgs|] == msgs;
    }
  }
}
