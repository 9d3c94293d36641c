/** Routing of client requests: the scatter/gather of `getMultipleAccounts` and the routing
    decision shared by transactions and blockhash requests. */
module HttpRouting {
  import opened RouterTypes

  type Account = nat

  datatype Upstream = Er(id: Pubkey) | BaseChain
  datatype Reply = Answered(slot: nat, values: seq<Option<Account>>) | RpcError(code: int)
  datatype RouterError = UnknownErNode(id: Pubkey) | Rpc(code: int) | ConflictingDelegations

  // ---- Scatter / gather ----

  /** A key with its position in the client's list. */
  datatype Indexed = Indexed(index: nat, key: Pubkey)
  datatype Request = Request(to: Upstream, group: seq<Indexed>)
  datatype Response = Response(slot: nat, values: seq<Option<Account>>)

  /** What each upstream answers to a list of keys. */
  type Network = (Upstream, seq<Pubkey>) -> Reply

  function Target(status: Option<Pubkey>): Upstream {
    if status.Some? then Er(status.value) else BaseChain
  }

  /** The first `n` keys that go to upstream `u`, with their positions in the request. */
  function Group(keys: seq<Pubkey>, statuses: seq<Option<Pubkey>>, u: Upstream, n: nat): seq<Indexed>
    requires n <= |keys| == |statuses|
  {
    if n == 0 then []
    else Group(keys, statuses, u, n - 1) + if Target(statuses[n - 1]) == u then [Indexed(n - 1, keys[n - 1])] else []
  }

  /** How many keys before position `i` go to the same upstream: its place in the group. */
  function Place(statuses: seq<Option<Pubkey>>, u: Upstream, i: nat): nat
    requires i <= |statuses|
  {
    if i == 0 then 0 else Place(statuses, u, i - 1) + if Target(statuses[i - 1]) == u then 1 else 0
  }

  function KeysOf(group: seq<Indexed>): (ks: seq<Pubkey>)
    ensures |ks| == |group| && forall j | 0 <= j < |group| :: ks[j] == group[j].key
  {
    seq(|group|, j requires 0 <= j < |group| => group[j].key)
  }

  lemma {:induction false} GroupHas(keys: seq<Pubkey>, statuses: seq<Option<Pubkey>>, u: Upstream, n: nat, i: nat)
    requires i < n <= |keys| == |statuses| && Target(statuses[i]) == u
    ensures Place(statuses, u, i) < |Group(keys, statuses, u, n)|
    ensures Group(keys, statuses, u, n)[Place(statuses, u, i)] == Indexed(i, keys[i])
  {
    GroupLength(keys, statuses, u, n - 1);
    if i < n - 1 { GroupHas(keys, statuses, u, n - 1, i); }
  }

  lemma {:induction false} GroupLength(keys: seq<Pubkey>, statuses: seq<Option<Pubkey>>, u: Upstream, n: nat)
    requires n <= |keys| == |statuses|
    ensures |Group(keys, statuses, u, n)| == Place(statuses, u, n)
  {
    if n > 0 { GroupLength(keys, statuses, u, n - 1); }
  }

  lemma {:induction false} GroupOnly(keys: seq<Pubkey>, statuses: seq<Option<Pubkey>>, u: Upstream, n: nat, j: nat)
    requires n <= |keys| == |statuses| && j < |Group(keys, statuses, u, n)|
    ensures var p := Group(keys, statuses, u, n)[j];
            p.index < n && Target(statuses[p.index]) == u && Place(statuses, u, p.index) == j && p.key == keys[p.index]
  {
    GroupLength(keys, statuses, u, n - 1);
    if j < |Group(keys, statuses, u, n - 1)| { GroupOnly(keys, statuses, u, n - 1, j); }
  }

  function AllOf(keys: seq<Pubkey>, statuses: seq<Option<Pubkey>>, u: Upstream): seq<Indexed>
    requires |keys| == |statuses|
  {
    Group(keys, statuses, u, |keys|)
  }

  function ReplyOf(ask: Network, keys: seq<Pubkey>, statuses: seq<Option<Pubkey>>, u: Upstream): Reply
    requires |keys| == |statuses|
  {
    ask(u, KeysOf(AllOf(keys, statuses, u)))
  }

  /** The answer that belongs at position `i`: its own upstream's value at its own place, or
      nothing if the upstream answered fewer values than it was asked for. */
  function Expected(ask: Network, keys: seq<Pubkey>, statuses: seq<Option<Pubkey>>, i: nat): Option<Account>
    requires i < |keys| == |statuses|
    requires ReplyOf(ask, keys, statuses, Target(statuses[i])).Answered?
  {
    var u := Target(statuses[i]);
    var values := ReplyOf(ask, keys, statuses, u).values;
    if Place(statuses, u, i) < |values| then values[Place(statuses, u, i)] else None
  }

  /** The earlier positions with the same status. */
  function SameBefore(statuses: seq<Option<Pubkey>>, s: Option<Pubkey>, i: nat): set<nat>
    requires i <= |statuses|
  {
    set j: nat | j < i && statuses[j] == s
  }

  lemma {:induction false} PlaceCounts(statuses: seq<Option<Pubkey>>, s: Option<Pubkey>, i: nat)
    requires i <= |statuses|
    ensures Place(statuses, Target(s), i) == |SameBefore(statuses, s, i)|
  {
    if i == 0 {
      assert SameBefore(statuses, s, 0) == {};
    } else {
      PlaceCounts(statuses, s, i - 1);
      var before := SameBefore(statuses, s, i - 1);
      assert SameBefore(statuses, s, i) == if statuses[i - 1] == s then before + {i - 1} else before;
    }
  }

  /** The value for a position is the one its upstream answers in the place that the key has
      among the keys sent there, or nothing if the reply is too short for it. */
  lemma ExpectedExactly(ask: Network, keys: seq<Pubkey>, statuses: seq<Option<Pubkey>>, i: nat)
    requires i < |keys| == |statuses|
    requires ReplyOf(ask, keys, statuses, Target(statuses[i])).Answered?
    ensures var u, n := if statuses[i].Some? then Er(statuses[i].value) else BaseChain,
                        |SameBefore(statuses, statuses[i], i)|;
            var sent := KeysOf(AllOf(keys, statuses, u));
            && n < |sent| && sent[n] == keys[i]
            && ask(u, sent).Answered?
            && Expected(ask, keys, statuses, i) ==
               if n < |ask(u, sent).values| then ask(u, sent).values[n] else None
  {
    PlaceCounts(statuses, statuses[i], i);
    GroupHas(keys, statuses, Target(statuses[i]), |keys|, i);
  }

  /** The reply holds one value per key of the upstream's group, each the lookup of that key. */
  predicate AnswersKeyByKey(reply: Reply, keys: seq<Pubkey>, statuses: seq<Option<Pubkey>>, u: Upstream,
                            lookup: (Upstream, Pubkey) -> Option<Account>)
    requires |keys| == |statuses|
  {
    var group := AllOf(keys, statuses, u);
    && reply.Answered? && |reply.values| == |group|
    && forall j | 0 <= j < |group| :: reply.values[j] == lookup(u, group[j].key)
  }

  /** If its own upstream answers key by key, a position gets the plain lookup of its key. */
  lemma ExpectedIsLookup(ask: Network, keys: seq<Pubkey>, statuses: seq<Option<Pubkey>>, i: nat,
                         lookup: (Upstream, Pubkey) -> Option<Account>)
    requires i < |keys| == |statuses|
    requires AnswersKeyByKey(ReplyOf(ask, keys, statuses, Target(statuses[i])), keys, statuses,
                             Target(statuses[i]), lookup)
    ensures ReplyOf(ask, keys, statuses, Target(statuses[i])).Answered?
    ensures Expected(ask, keys, statuses, i) ==
            lookup(if statuses[i].Some? then Er(statuses[i].value) else BaseChain, keys[i])
  {
    var u := Target(statuses[i]);
    GroupHas(keys, statuses, u, |keys|, i);
  }

  /** Writes one reply's values to their positions; surplus on either side is ignored. */
  method Scatter(response: array<Option<Account>>, group: seq<Indexed>, values: seq<Option<Account>>)
    requires forall j | 0 <= j < |group| :: group[j].index < response.Length
    requires forall i, j | 0 <= i < j < |group| :: group[i].index != group[j].index
    modifies response
    ensures forall j | 0 <= j < |group| && j < |values| :: response[group[j].index] == values[j]
    ensures forall j | |values| <= j < |group| :: response[group[j].index] == old(response[group[j].index])
    ensures forall p | 0 <= p < response.Length && (forall j | 0 <= j < |group| :: group[j].index != p) ::
              response[p] == old(response[p])
  {
    var n := if |group| <= |values| then |group| else |values|;
    for c := 0 to n
      invariant forall j | 0 <= j < c :: response[group[j].index] == values[j]
      invariant forall j | c <= j < |group| :: response[group[j].index] == old(response[group[j].index])
      invariant forall p | 0 <= p < response.Length && (forall j | 0 <= j < |group| :: group[j].index != p) ::
                  response[p] == old(response[p])
    {
      response[group[c].index] := values[c];
    }
  }

  type Groups = map<Pubkey, seq<Indexed>>

  function GroupAt(delegated: Groups, id: Pubkey): seq<Indexed> {
    if id in delegated then delegated[id] else []
  }

  lemma {:induction false} GroupNonEmpty(keys: seq<Pubkey>, statuses: seq<Option<Pubkey>>, s: Option<Pubkey>)
    requires |keys| == |statuses|
    ensures AllOf(keys, statuses, Target(s)) != [] <==> s in statuses
  {
    var group := AllOf(keys, statuses, Target(s));
    if s in statuses {
      var i :| 0 <= i < |statuses| && statuses[i] == s;
      GroupHas(keys, statuses, Target(s), |keys|, i);
    }
    if group != [] {
      GroupOnly(keys, statuses, Target(s), |keys|, 0);
      assert statuses[group[0].index] == s;
    }
  }

  /** `entry(identity).or_default().push(..)` for a delegated key. */
  function Filed(delegated: Groups, status: Option<Pubkey>, p: Indexed): Groups {
    if status.Some? then delegated[status.value := GroupAt(delegated, status.value) + [p]] else delegated
  }

  function FiledAll(keys: seq<Pubkey>, statuses: seq<Option<Pubkey>>, n: nat): Groups
    requires n <= |keys| == |statuses|
  {
    if n == 0 then map[] else Filed(FiledAll(keys, statuses, n - 1), statuses[n - 1], Indexed(n - 1, keys[n - 1]))
  }

  /** Filing key after key puts exactly the group of each node under its id. */
  lemma {:induction false} FiledAllIsGroups(keys: seq<Pubkey>, statuses: seq<Option<Pubkey>>, n: nat, id: Pubkey)
    requires n <= |keys| == |statuses|
    ensures GroupAt(FiledAll(keys, statuses, n), id) == Group(keys, statuses, Er(id), n)
    ensures id in FiledAll(keys, statuses, n) <==> Group(keys, statuses, Er(id), n) != []
  {
    if n > 0 { FiledAllIsGroups(keys, statuses, n - 1, id); }
  }

  /** Sorts the keys by the upstream that owns them. */
  method GroupKeys(keys: seq<Pubkey>, statuses: seq<Option<Pubkey>>)
    returns (delegated: Groups, undelegated: seq<Indexed>)
    requires |keys| == |statuses|
    ensures forall id: Pubkey :: id in delegated <==> Some(id) in statuses
    ensures forall id <- delegated :: delegated[id] == AllOf(keys, statuses, Er(id))
    ensures undelegated == AllOf(keys, statuses, BaseChain)
    ensures undelegated != [] <==> None in statuses
  {
    delegated, undelegated := map[], [];
    for i := 0 to |keys|
      invariant delegated == FiledAll(keys, statuses, i)
      invariant undelegated == Group(keys, statuses, BaseChain, i)
    {
      if statuses[i].Some? {
        var id := statuses[i].value;
        var sofar := if id in delegated then delegated[id] else [];
        delegated := delegated[id := sofar + [Indexed(i, keys[i])]];
      } else {
        undelegated := undelegated + [Indexed(i, keys[i])];
      }
    }
    forall id: Pubkey
      ensures id in delegated <==> Some(id) in statuses
      ensures id in delegated ==> delegated[id] == AllOf(keys, statuses, Er(id))
    {
      FiledAllIsGroups(keys, statuses, |keys|, id);
      GroupNonEmpty(keys, statuses, Some(id));
    }
    GroupNonEmpty(keys, statuses, None);
  }

  /** The upstreams that have to be asked. */
  function Asked(statuses: seq<Option<Pubkey>>): set<Upstream> {
    set s | s in statuses :: Target(s)
  }

  /** One request per upstream; an unknown ER node ends the call. */
  method BuildRequests(delegated: Groups, undelegated: seq<Indexed>, known: set<Pubkey>, order: seq<Pubkey>)
    returns (r: Result<seq<Request>, RouterError>)
    requires Enumerates(order, delegated.Keys)
    ensures r.Ok? <==> forall id <- delegated :: id in known
    ensures r.Err? ==> r.error.UnknownErNode? && r.error.id in delegated && r.error.id !in known
    ensures r.Ok? ==>
              && (forall q <- r.value :: if q.to.Er? then q.to.id in delegated && q.group == delegated[q.to.id]
                                         else undelegated != [] && q.group == undelegated)
              && (forall i, j | 0 <= i < j < |r.value| :: r.value[i].to != r.value[j].to)
              && (forall id <- delegated :: exists q <- r.value :: q.to == Er(id))
              && (undelegated != [] ==> exists q <- r.value :: q.to == BaseChain)
  {
    var requests := [];
    for i := 0 to |order|
      invariant |requests| == i && forall j | 0 <= j < i :: order[j] in known
      invariant forall j | 0 <= j < i ::
                  order[j] in delegated && requests[j] == Request(Er(order[j]), delegated[order[j]])
    {
      assert order[i] in order;
      if order[i] !in known { return Err(UnknownErNode(order[i])); }
      requests := requests + [Request(Er(order[i]), delegated[order[i]])];
    }
    ghost var ers := requests;
    if undelegated != [] { requests := requests + [Request(BaseChain, undelegated)]; }
    assert forall i | 0 <= i < |ers| :: requests[i] == ers[i];
    forall id <- delegated ensures id in known && exists q <- requests :: q.to == Er(id) {
      assert id in order;
      var j :| 0 <= j < |order| && order[j] == id;
      assert requests[j] in requests;
    }
    if undelegated != [] { assert requests[|order|] in requests; }
    r := Ok(requests);
  }

  /** Requests that cover what has to be asked: each upstream once, with all its keys. */
  ghost predicate Covers(requests: seq<Request>, keys: seq<Pubkey>, statuses: seq<Option<Pubkey>>)
    requires |keys| == |statuses|
  {
    && (forall q <- requests :: q.to in Asked(statuses) && q.group == AllOf(keys, statuses, q.to))
    && (forall i, j | 0 <= i < j < |requests| :: requests[i].to != requests[j].to)
    && (forall u <- Asked(statuses) :: exists q <- requests :: q.to == u)
  }

  /** Groups and sends: the requests made for a list of keys. */
  method Plan(keys: seq<Pubkey>, statuses: seq<Option<Pubkey>>, known: set<Pubkey>, order: seq<Pubkey>)
    returns (r: Result<seq<Request>, RouterError>)
    requires |keys| == |statuses|
    requires forall i, j | 0 <= i < j < |order| :: order[i] != order[j]
    requires forall id: Pubkey :: id in order <==> Some(id) in statuses
    ensures r.Ok? <==> forall id: Pubkey | Some(id) in statuses :: id in known
    ensures r.Err? ==> r.error.UnknownErNode? && Some(r.error.id) in statuses && r.error.id !in known
    ensures r.Ok? ==> Covers(r.value, keys, statuses)
  {
    var delegated, undelegated := GroupKeys(keys, statuses);
    r := BuildRequests(delegated, undelegated, known, order);
    if r.Ok? {
      forall q <- r.value ensures q.to in Asked(statuses) && q.group == AllOf(keys, statuses, q.to) {
        if q.to.Er? {
          assert Target(Some(q.to.id)) == q.to;
        } else {
          assert Target(None) == BaseChain;
        }
      }
      forall u <- Asked(statuses) ensures exists q <- r.value :: q.to == u {
        var s :| s in statuses && Target(s) == u;
      }
    }
  }

  /** Requests 0..n complete one after the other, in some order. */
  predicate Completes(completion: seq<nat>, n: nat) {
    && (forall i, j | 0 <= i < j < |completion| :: completion[i] != completion[j])
    && (forall i | 0 <= i < |completion| :: completion[i] < n)
    && (forall c: nat | c < n :: c in completion)
  }

  /** The positions of one group, before and after its reply is scattered. */
  lemma GroupOwnsItsPositions(keys: seq<Pubkey>, statuses: seq<Option<Pubkey>>, u: Upstream)
    requires |keys| == |statuses|
    ensures var group := AllOf(keys, statuses, u);
            && (forall j | 0 <= j < |group| :: group[j].index < |keys| && Target(statuses[group[j].index]) == u)
            && (forall i, j | 0 <= i < j < |group| :: group[i].index != group[j].index)
            && (forall i | 0 <= i < |keys| && Target(statuses[i]) == u ::
                  Place(statuses, u, i) < |group| && group[Place(statuses, u, i)].index == i)
  {
    var group := AllOf(keys, statuses, u);
    forall j | 0 <= j < |group|
      ensures group[j].index < |keys| && Target(statuses[group[j].index]) == u &&
                Place(statuses, u, group[j].index) == j
    {
      GroupOnly(keys, statuses, u, |keys|, j);
    }
    forall i | 0 <= i < |keys| && Target(statuses[i]) == u
      ensures Place(statuses, u, i) < |group| && group[Place(statuses, u, i)].index == i
    {
      GroupHas(keys, statuses, u, |keys|, i);
    }
  }

  /** Everything that belongs to the upstreams in `done` has arrived, nothing else has. */
  ghost predicate Arrived(response: seq<Option<Account>>, ask: Network, keys: seq<Pubkey>,
                          statuses: seq<Option<Pubkey>>, done: set<Upstream>)
    requires |response| == |keys| == |statuses|
  {
    && (forall u <- done :: ReplyOf(ask, keys, statuses, u).Answered?)
    && (forall i | 0 <= i < |keys| ::
          response[i] == if Target(statuses[i]) in done then Expected(ask, keys, statuses, i) else None)
  }

  /** The greatest context slot among the replies of some upstreams. */
  ghost predicate Greatest(slot: nat, ask: Network, keys: seq<Pubkey>, statuses: seq<Option<Pubkey>>, us: set<Upstream>)
    requires |keys| == |statuses|
  {
    && (forall u <- us :: ReplyOf(ask, keys, statuses, u).Answered? && ReplyOf(ask, keys, statuses, u).slot <= slot)
    && (slot == 0 || exists u <- us :: ReplyOf(ask, keys, statuses, u).slot == slot)
  }

  lemma GreatestOfMore(slot: nat, ask: Network, keys: seq<Pubkey>, statuses: seq<Option<Pubkey>>, us: set<Upstream>,
                       u: Upstream)
    requires |keys| == |statuses| && Greatest(slot, ask, keys, statuses, us) &&
             ReplyOf(ask, keys, statuses, u).Answered?
    ensures var next := ReplyOf(ask, keys, statuses, u).slot;
            Greatest(if next > slot then next else slot, ask, keys, statuses, us + {u})
  {
    assert u in us + {u};
    if slot != 0 {
      var v :| v in us && ReplyOf(ask, keys, statuses, v).slot == slot;
      assert v in us + {u};
    }
  }

  /** Files one upstream's reply into the response and raises the context slot to it. */
  method Absorb(response: array<Option<Account>>, slot: nat, q: Request, reply: Reply, ghost ask: Network,
                ghost keys: seq<Pubkey>, ghost statuses: seq<Option<Pubkey>>, ghost done: set<Upstream>)
    returns (slot': nat)
    requires response.Length == |keys| == |statuses| && q.group == AllOf(keys, statuses, q.to) && q.to !in done
    requires reply.Answered? && reply == ReplyOf(ask, keys, statuses, q.to)
    requires Arrived(response[..], ask, keys, statuses, done) && Greatest(slot, ask, keys, statuses, done)
    modifies response
    ensures Arrived(response[..], ask, keys, statuses, done + {q.to})
    ensures Greatest(slot', ask, keys, statuses, done + {q.to})
  {
    GreatestOfMore(slot, ask, keys, statuses, done, q.to);
    slot' := if reply.slot > slot then reply.slot else slot;
    GroupOwnsItsPositions(keys, statuses, q.to);
    Scatter(response, q.group, reply.values);
    forall i | 0 <= i < |keys|
      ensures response[i] == if Target(statuses[i]) in done + {q.to} then Expected(ask, keys, statuses, i) else None
    {
      if Target(statuses[i]) == q.to {
        var j := Place(statuses, q.to, i);
        assert q.group[j].index == i;
      }
    }
  }

  /** Position i holds the answer for key i from its own upstream, and the context slot is
      the greatest of the groups' slots. */
  ghost predicate Gathered(r: Response, ask: Network, keys: seq<Pubkey>, statuses: seq<Option<Pubkey>>)
    requires |keys| == |statuses|
  {
    && |r.values| == |keys|
    && (forall i | 0 <= i < |keys| ::
          ReplyOf(ask, keys, statuses, Target(statuses[i])).Answered? &&
          r.values[i] == Expected(ask, keys, statuses, i))
    && Greatest(r.slot, ask, keys, statuses, Asked(statuses))
  }

  /** The replies of the first `c` completed requests, and no others, have been filed. */
  ghost predicate Progress(response: seq<Option<Account>>, slot: nat, ask: Network, keys: seq<Pubkey>,
                           statuses: seq<Option<Pubkey>>, requests: seq<Request>, completion: seq<nat>, c: nat,
                           done: set<Upstream>)
    requires Completes(completion, |requests|)
  {
    && |response| == |keys| == |statuses| && c <= |completion|
    && done <= Asked(statuses)
    && (forall i | 0 <= i < c :: requests[completion[i]].to in done)
    && (forall i | c <= i < |completion| :: requests[completion[i]].to !in done)
    && Arrived(response, ask, keys, statuses, done)
    && Greatest(slot, ask, keys, statuses, done)
  }

  lemma OneMoreFiled(response: seq<Option<Account>>, slot: nat, response': seq<Option<Account>>, slot': nat,
                     ask: Network, keys: seq<Pubkey>, statuses: seq<Option<Pubkey>>, requests: seq<Request>,
                     completion: seq<nat>, c: nat, done: set<Upstream>)
    requires Completes(completion, |requests|) && c < |completion| && |response'| == |keys| == |statuses|
    requires Covers(requests, keys, statuses)
    requires Progress(response, slot, ask, keys, statuses, requests, completion, c, done)
    requires Arrived(response', ask, keys, statuses, done + {requests[completion[c]].to})
    requires Greatest(slot', ask, keys, statuses, done + {requests[completion[c]].to})
    ensures Progress(response', slot', ask, keys, statuses, requests, completion, c + 1,
              done + {requests[completion[c]].to})
  {
    assert requests[completion[c]] in requests;
    forall i | c < i < |completion| ensures requests[completion[i]].to != requests[completion[c]].to {
      assert completion[c] != completion[i];
    }
  }

  lemma AllFiled(response: seq<Option<Account>>, slot: nat, ask: Network, keys: seq<Pubkey>,
                 statuses: seq<Option<Pubkey>>, requests: seq<Request>, completion: seq<nat>, done: set<Upstream>)
    requires |keys| == |statuses| && Covers(requests, keys, statuses) && Completes(completion, |requests|)
    requires Progress(response, slot, ask, keys, statuses, requests, completion, |completion|, done)
    ensures Gathered(Response(slot, response), ask, keys, statuses)
  {
    forall u <- Asked(statuses) ensures u in done {
      var q :| q in requests && q.to == u;
      var c :| 0 <= c < |requests| && requests[c] == q;
      assert c in completion;
      var i :| 0 <= i < |completion| && completion[i] == c;
    }
    assert done == Asked(statuses);
    forall i | 0 <= i < |keys| ensures Target(statuses[i]) in done {
      assert statuses[i] in statuses;
    }
  }

  /** The requests complete in some order; each reply fills in its own positions. */
  method Gather(ask: Network, ghost keys: seq<Pubkey>, statuses: seq<Option<Pubkey>>, requests: seq<Request>,
                completion: seq<nat>)
    returns (r: Result<Response, RouterError>)
    requires |keys| == |statuses| && Covers(requests, keys, statuses)
    requires Completes(completion, |requests|)
    ensures r.Ok? ==> Gathered(r.value, ask, keys, statuses)
    ensures r.Err? ==>
              r.error.Rpc? && exists u <- Asked(statuses) :: ReplyOf(ask, keys, statuses, u) == RpcError(r.error.code)
  {
    var response := new Option<Account>[|statuses|](_ => None);
    var slot: nat := 0;
    ghost var done: set<Upstream> := {};
    for c := 0 to |completion|
      invariant Progress(response[..], slot, ask, keys, statuses, requests, completion, c, done)
    {
      var q := requests[completion[c]];
      assert q in requests;
      var reply := ask(q.to, KeysOf(q.group));
      if reply.RpcError? { return Err(Rpc(reply.code)); }
      ghost var was, before := response[..], slot;
      slot := Absorb(response, slot, q, reply, ask, keys, statuses, done);
      OneMoreFiled(was, before, response[..], slot, ask, keys, statuses, requests, completion, c, done);
      done := done + {q.to};
    }
    AllFiled(response[..], slot, ask, keys, statuses, requests, completion, done);
    r := Ok(Response(slot, response[..]));
  }

  /** The whole call. For every order in which the groups are visited and the requests
      complete, and with duplicate keys, position i of the response is the answer for key i
      from its own upstream, and the context slot is the greatest of the groups' slots. */
  method MultipleAccounts(ask: Network, keys: seq<Pubkey>, statuses: seq<Option<Pubkey>>, known: set<Pubkey>,
                          order: seq<Pubkey>, completion: nat -> seq<nat>)
    returns (r: Result<Response, RouterError>)
    requires |keys| == |statuses|
    requires forall i, j | 0 <= i < j < |order| :: order[i] != order[j]
    requires forall id: Pubkey :: id in order <==> Some(id) in statuses
    requires forall n: nat :: Completes(completion(n), n)
    ensures r.Ok? <==>
              (forall id: Pubkey | Some(id) in statuses :: id in known) &&
              (forall u <- Asked(statuses) :: ReplyOf(ask, keys, statuses, u).Answered?)
    ensures r.Err? ==>
              || (r.error.UnknownErNode? && Some(r.error.id) in statuses && r.error.id !in known)
              || (r.error.Rpc? && exists u <- Asked(statuses) ::
                   ReplyOf(ask, keys, statuses, u) == RpcError(r.error.code))
    ensures r.Ok? ==> Gathered(r.value, ask, keys, statuses)
  {
    var plan := Plan(keys, statuses, known, order);
    if plan.Err? { return Err(plan.error); }
    var requests := plan.value;
    r := Gather(ask, keys, statuses, requests, completion(|requests|));
    assert r.Ok? ==> Greatest(r.value.slot, ask, keys, statuses, Asked(statuses));
  }

  // ---- One routing decision for transactions and blockhashes ----

  /** Who holds each account, as one snapshot of the delegation cache. */
  type Snapshot = Pubkey -> Option<Pubkey>

  datatype Decision = Conflict | To(id: Pubkey) | ToBaseChain

  function Authorities(held: Snapshot, accounts: seq<Pubkey>): set<Pubkey> {
    set k | k in accounts && held(k).Some? :: held(k).value
  }

  /** What the decision has to be, from the set of authorities alone. */
  ghost predicate Decides(d: Decision, authorities: set<Pubkey>) {
    match d
    case Conflict => exists a, b :: a in authorities && b in authorities && a != b
    case To(a) => authorities == {a}
    case ToBaseChain => authorities == {}
  }

  lemma DecisionUnique(d: Decision, e: Decision, authorities: set<Pubkey>)
    requires Decides(d, authorities) && Decides(e, authorities)
    ensures d == e
  {
  }

  /** The loop compares each authority only with the one before it. */
  method DecideForAccounts(held: Snapshot, accounts: seq<Pubkey>) returns (d: Decision)
    ensures Decides(d, Authorities(held, accounts))
  {
    var delegated := None;
    for i := 0 to |accounts|
      invariant delegated.None? ==> Authorities(held, accounts[..i]) == {}
      invariant delegated.Some? ==> Authorities(held, accounts[..i]) == {delegated.value}
    {
      assert accounts[..i + 1] == accounts[..i] + [accounts[i]];
      var validator := held(accounts[i]);
      if validator.Some? {
        assert Authorities(held, accounts[..i + 1]) == Authorities(held, accounts[..i]) + {validator.value};
        var replaced := delegated;
        delegated := validator;
        if replaced.Some? && replaced.value != validator.value {
          assert replaced.value in Authorities(held, accounts[..i + 1]);
          assert Authorities(held, accounts[..i + 1]) <= Authorities(held, accounts);
          return Conflict;
        }
      } else {
        assert Authorities(held, accounts[..i + 1]) == Authorities(held, accounts[..i]);
      }
    }
    assert accounts[..|accounts|] == accounts;
    d := if delegated.Some? then To(delegated.value) else ToBaseChain;
  }

  /** The writable keys of a transaction. */
  function Writable(keys: seq<Pubkey>, writable: seq<bool>): (ws: seq<Pubkey>)
    requires |keys| == |writable|
    ensures forall k :: k in ws <==> exists i :: 0 <= i < |keys| && writable[i] && keys[i] == k
  {
    if keys == [] then []
    else
      var rest := Writable(keys[..|keys| - 1], writable[..|keys| - 1]);
      if writable[|keys| - 1] then rest + [keys[|keys| - 1]] else rest
  }

  method DecideForTransaction(held: Snapshot, keys: seq<Pubkey>, writable: seq<bool>) returns (d: Decision)
    requires |keys| == |writable|
    ensures Decides(d, Authorities(held, Writable(keys, writable)))
  {
    var delegation := None;
    for i := 0 to |keys|
      invariant delegation.None? ==> Authorities(held, Writable(keys[..i], writable[..i])) == {}
      invariant delegation.Some? ==> Authorities(held, Writable(keys[..i], writable[..i])) == {delegation.value}
    {
      assert keys[..i + 1][..i] == keys[..i] && writable[..i + 1][..i] == writable[..i];
      ghost var sofar, next := Writable(keys[..i], writable[..i]), Writable(keys[..i + 1], writable[..i + 1]);
      if !writable[i] { continue; }
      assert next == sofar + [keys[i]];
      var validator := held(keys[i]);
      if validator.None? {
        assert Authorities(held, next) == Authorities(held, sofar);
        continue;
      }
      assert Authorities(held, next) == Authorities(held, sofar) + {validator.value};
      var replaced := delegation;
      delegation := validator;
      if replaced.Some? && replaced.value != validator.value {
        assert replaced.value in Authorities(held, next);
        WritablePrefix(keys, writable, i + 1);
        assert Authorities(held, next) <= Authorities(held, Writable(keys, writable));
        return Conflict;
      }
    }
    assert keys[..|keys|] == keys && writable[..|keys|] == writable;
    d := if delegation.Some? then To(delegation.value) else ToBaseChain;
  }

  lemma WritablePrefix(keys: seq<Pubkey>, writable: seq<bool>, n: nat)
    requires n <= |keys| == |writable|
    ensures forall k :: k in Writable(keys[..n], writable[..n]) ==> k in Writable(keys, writable)
  {
    forall k | k in Writable(keys[..n], writable[..n]) ensures k in Writable(keys, writable) {
      var i :| 0 <= i < n && writable[..n][i] && keys[..n][i] == k;
      assert writable[i] && keys[i] == k;
    }
  }

  /** The upstream behind a decision, or the error the client gets. */
  function Resolve(d: Decision, known: set<Pubkey>): Result<Upstream, RouterError> {
    match d
    case Conflict => Err(ConflictingDelegations)
    case To(id) => if id in known then Ok(Er(id)) else Err(UnknownErNode(id))
    case ToBaseChain => Ok(BaseChain)
  }

  /** Where a decision sends the request, from the set of authorities. */
  lemma Destination(d: Decision, authorities: set<Pubkey>, known: set<Pubkey>)
    requires Decides(d, authorities)
    ensures var r := Resolve(d, known);
            && (forall a: Pubkey :: r == Ok(Er(a)) <==> authorities == {a} && a in known)
            && (forall a: Pubkey :: r == Err(UnknownErNode(a)) <==> authorities == {a} && a !in known)
            && (r == Ok(BaseChain) <==> authorities == {})
            && (r == Err(ConflictingDelegations) <==> exists a, b :: a in authorities && b in authorities && a != b)
  {
    if d.To? {
      assert d.id in authorities;
      forall a ensures authorities == {a} <==> a == d.id {
        assert authorities == {a} ==> a in authorities;
      }
    }
  }

  /** Under one snapshot, a blockhash asked for a transaction's writable accounts comes from
      where the transaction will be sent, or both requests fail alike. */
  method RoutesAgree(held: Snapshot, keys: seq<Pubkey>, writable: seq<bool>, known: set<Pubkey>)
    returns (blockhash: Result<Upstream, RouterError>, transaction: Result<Upstream, RouterError>)
    requires |keys| == |writable|
    ensures blockhash == transaction
    ensures var authorities := Authorities(held, Writable(keys, writable));
            && (forall a: Pubkey :: transaction == Ok(Er(a)) <==> authorities == {a} && a in known)
            && (forall a: Pubkey :: transaction == Err(UnknownErNode(a)) <==> authorities == {a} && a !in known)
            && (transaction == Ok(BaseChain) <==> authorities == {})
            && (transaction == Err(ConflictingDelegations) <==>
                  exists a, b :: a in authorities && b in authorities && a != b)
  {
    var d := DecideForAccounts(held, Writable(keys, writable));
    var e := DecideForTransaction(held, keys, writable);
    ghost var authorities := Authorities(held, Writable(keys, writable));
    DecisionUnique(d, e, authorities);
    Destination(d, authorities, known);
    return Resolve(d, known), Resolve(e, known);
  }

  /** The decision does not depend on the order of the accounts. */
  lemma OrderDoesNotMatter(held: Snapshot, ks: seq<Pubkey>, js: seq<Pubkey>, d: Decision)
    requires multiset(ks) == multiset(js) && Decides(d, Authorities(held, ks))
    ensures Decides(d, Authorities(held, js))
  {
    forall k ensures k in ks <==> k in js {
      assert k in ks <==> k in multiset(ks);
    }
    assert Authorities(held, ks) == Authorities(held, js);
  }
}
