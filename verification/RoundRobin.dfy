/** The round-robin choice of a base-chain upstream. */
module RoundRobin {

  /** How often upstream `i` of `n` is chosen by `calls` consecutive calls from counter `v`. */
  function Chosen(v: nat, n: nat, calls: nat, i: nat): nat
    requires n > 0
  {
    if calls == 0 then 0
    else Chosen(v, n, calls - 1, i) + if Counter(v, n, calls - 1) == i then 1 else 0
  }

  /** The counter after so many calls. */
  function Counter(v: nat, n: nat, calls: nat): nat
    requires n > 0
  {
    if calls == 0 then v else (Counter(v, n, calls - 1) + 1) % n
  }

  /** Calls from counter `v` until upstream `i` comes up. */
  function Ahead(v: nat, n: nat, i: nat): nat
    requires v < n && i < n
  {
    if i >= v then i - v else i + n - v
  }

  /** Full rounds made by so many calls, and calls made since the last full round. */
  function Rounds(n: nat, calls: nat): (nat, nat)
    requires n > 0
  {
    if calls == 0 then (0, 0)
    else
      var (q, r) := Rounds(n, calls - 1);
      if r + 1 >= n then (q + 1, 0) else (q, r + 1)
  }

  lemma {:induction false} RoundsDivide(n: nat, calls: nat)
    requires n > 0
    ensures var (q, r) := Rounds(n, calls); r < n && calls == q * n + r
  {
    if calls > 0 {
      RoundsDivide(n, calls - 1);
      var (q, r) := Rounds(n, calls - 1);
      assert (q + 1) * n == q * n + n;
    }
  }

  lemma {:induction false} QuotientIs(x: nat, n: nat, q: nat, r: nat)
    requires r < n && x == q * n + r
    ensures x / n == q
  {
    assert x == n * (x / n) + x % n;
    assert n * (q - x / n) == x % n - r;
    SmallMultiple(n, q - x / n);
  }

  lemma SmallMultiple(n: nat, k: int)
    requires 0 - n < n * k < n
    ensures k == 0
  {
  }

  lemma NextCounter(c: nat, n: nat)
    requires c < n
    ensures (c + 1) % n == if c + 1 == n then 0 else c + 1
  {
  }

  /** The exact count: one choice per full round, and one more for those whose turn has come
      since; the counter is always in range. */
  lemma {:induction false} ChosenExactly(v: nat, n: nat, calls: nat, i: nat)
    requires v < n && i < n
    ensures var (q, r) := Rounds(n, calls);
            && r < n
            && Counter(v, n, calls) == (if v + r < n then v + r else v + r - n) < n
            && Chosen(v, n, calls, i) == q + if Ahead(v, n, i) < r then 1 else 0
  {
    if calls > 0 {
      ChosenExactly(v, n, calls - 1, i);
      NextCounter(Counter(v, n, calls - 1), n);
    }
  }

  /** Fairness: in any window of consecutive calls each upstream is chosen the floor or the
      ceiling of its share, from any counter the table can reach. */
  lemma {:induction false} Fair(v: nat, n: nat, calls: nat, i: nat)
    requires v < n && i < n
    ensures calls / n <= Chosen(v, n, calls, i) <= (calls + n - 1) / n
  {
    ChosenExactly(v, n, calls, i);
    RoundsDivide(n, calls);
    var (q, r) := Rounds(n, calls);
    QuotientIs(calls, n, q, r);
    if r == 0 {
      QuotientIs(calls + n - 1, n, q, n - 1);
    } else {
      assert (q + 1) * n == q * n + n;
      QuotientIs(calls + n - 1, n, q + 1, r - 1);
    }
  }

  class BaseChainUpstreams {
    const upstreams: seq<nat>
    var next: nat

    ghost predicate Valid()
      reads this
    {
      next < |upstreams|
    }

    constructor (clients: seq<nat>)
      requires clients != []
      ensures Valid() && upstreams == clients && next == 0
    {
      upstreams := clients;
      next := 0;
    }

    /** One atomic `fetch_update`: the old counter is the choice. */
    method BaseChain() returns (client: nat)
      requires Valid()
      modifies this
      ensures Valid() && client == upstreams[old(next)] && next == Counter(old(next), |upstreams|, 1)
    {
      client := upstreams[next];
      next := (next + 1) % |upstreams|;
    }

    /** A window of consecutive calls picks each upstream a fair number of times. */
    method Window(calls: nat) returns (counts: seq<nat>)
      requires Valid()
      modifies this
      ensures Valid() && |counts| == |upstreams|
      ensures forall i | 0 <= i < |counts| ::
                calls / |upstreams| <= counts[i] <= (calls + |upstreams| - 1) / |upstreams|
    {
      var n := |upstreams|;
      counts := seq(n, _ => 0);
      for c := 0 to calls
        invariant |counts| == n && next == Counter(old(next), n, c) < n
        invariant forall i | 0 <= i < n :: counts[i] == Chosen(old(next), n, c, i)
      {
        ChosenExactly(old(next), n, c + 1, 0);
        var pick := next;
        var _ := BaseChain();
        counts := counts[pick := counts[pick] + 1];
      }
      forall i | 0 <= i < n ensures calls / n <= counts[i] <= (calls + n - 1) / n {
        Fair(old(next), n, calls, i);
      }
    }
  }
}
