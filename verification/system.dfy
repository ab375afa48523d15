/**
 The System pallet: the low-level state of a small blockchain runtime, namely
 the current block number and, per account, a nonce counting the transactions
 that account has made.

 The pallet is generic over the account identifier. Block numbers and nonces
 are `nat`: the only capabilities the pallet asks of them are zero, one and
 addition.

 The module has two layers:
 - `Pallet`, a class whose two fields are updated in place by `IncBlockNumber`
   and `IncNonce`, as the pallet's `&mut self` methods do;
 - a value-level view of the same state (`State`, `Genesis`, `Step`, `Run`),
   used to state what any sequence of calls into the pallet does.
 Each mutator of `Pallet` is proved to move its state exactly as `Step` does.
 */
module System {

  /** One call into a mutator of the pallet. */
  datatype Call<AccountId> = IncBlockNumber | IncNonce(who: AccountId)

  /** The pallet's two fields, as a value. */
  datatype State<AccountId> = State(blockNumber: nat, nonces: map<AccountId, nat>)

  /** Nonce lookup with the zero-on-miss rule: an absent account has nonce 0. */
  function Lookup<AccountId(!new)>(nonces: map<AccountId, nat>, who: AccountId): nat
  {
    if who in nonces then nonces[who] else 0
  }

  /** Every stored nonce is at least 1: an account only enters the map once its
      nonce has been incremented past zero. */
  ghost predicate NoncesPositive<AccountId(!new)>(nonces: map<AccountId, nat>)
  {
    forall a :: a in nonces ==> nonces[a] >= 1
  }

  /** The state of a freshly created pallet. */
  function Genesis<AccountId(!new)>(): (s: State<AccountId>)
    ensures s.blockNumber == 0
    ensures forall a :: Lookup(s.nonces, a) == 0
    ensures NoncesPositive(s.nonces)
  {
    State(0, map[])
  }

  /** The effect of one call, stated in terms of what the accessors observe. */
  function Step<AccountId(!new)>(s: State<AccountId>, c: Call<AccountId>): (t: State<AccountId>)
    ensures t.blockNumber == s.blockNumber + (if c.IncBlockNumber? then 1 else 0)
    ensures forall a :: Lookup(t.nonces, a) == Lookup(s.nonces, a) + (if c == IncNonce(a) then 1 else 0)
    ensures t.nonces.Keys == s.nonces.Keys + (if c.IncNonce? then {c.who} else {})
  {
    match c
    case IncBlockNumber => State(s.blockNumber + 1, s.nonces)
    case IncNonce(who) => State(s.blockNumber, s.nonces[who := Lookup(s.nonces, who) + 1])
  }

  /** The state reached from `s` by performing `calls` in order. */
  function Run<AccountId(!new)>(s: State<AccountId>, calls: seq<Call<AccountId>>): State<AccountId>
    decreases |calls|
  {
    if calls == [] then s
    else Step(Run(s, calls[..|calls| - 1]), calls[|calls| - 1])
  }

  /** `calls` is its prefix followed by its last element, as a multiset. */
  lemma LastSplit<AccountId(!new)>(calls: seq<Call<AccountId>>)
    requires calls != []
    ensures multiset(calls) == multiset(calls[..|calls| - 1]) + multiset{calls[|calls| - 1]}
  {
    assert calls == calls[..|calls| - 1] + [calls[|calls| - 1]];
  }

  /** Each counter advances by exactly the number of calls that target it:
      the block number by the number of `IncBlockNumber` calls, the nonce of
      `a` by the number of `IncNonce(a)` calls, whatever else is interleaved. */
  lemma {:induction false} RunCounts<AccountId(!new)>(s: State<AccountId>, calls: seq<Call<AccountId>>)
    ensures Run(s, calls).blockNumber == s.blockNumber + multiset(calls)[IncBlockNumber]
    ensures forall a :: Lookup(Run(s, calls).nonces, a) == Lookup(s.nonces, a) + multiset(calls)[IncNonce(a)]
    decreases |calls|
  {
    if calls != [] {
      var init := calls[..|calls| - 1];
      RunCounts(s, init);
      LastSplit(calls);
    }
  }

  /** An account has an entry after a run exactly when it had one before or
      some call of the run incremented its nonce. */
  lemma {:induction false} RunKeys<AccountId(!new)>(s: State<AccountId>, calls: seq<Call<AccountId>>)
    ensures forall a :: a in Run(s, calls).nonces <==> a in s.nonces || IncNonce(a) in calls
    decreases |calls|
  {
    if calls != [] {
      var init := calls[..|calls| - 1];
      RunKeys(s, init);
      assert calls == init + [calls[|calls| - 1]];
    }
  }

  /** Every run preserves the invariant that stored nonces are at least 1. */
  lemma {:induction false} RunPreservesPositive<AccountId(!new)>(s: State<AccountId>, calls: seq<Call<AccountId>>)
    requires NoncesPositive(s.nonces)
    ensures NoncesPositive(Run(s, calls).nonces)
    decreases |calls|
  {
    if calls != [] {
      var init := calls[..|calls| - 1];
      RunPreservesPositive(s, init);
      var t := Run(s, init);
      var c := calls[|calls| - 1];
      forall a | a in Step(t, c).nonces
        ensures Step(t, c).nonces[a] >= 1
      {
        if c.IncNonce? && a == c.who {
        } else {
          assert Lookup(t.nonces, a) == t.nonces[a];
        }
      }
    }
  }

  /** Neither counter ever decreases over a run. */
  lemma {:induction false} RunMonotonic<AccountId(!new)>(s: State<AccountId>, calls: seq<Call<AccountId>>)
    ensures Run(s, calls).blockNumber >= s.blockNumber
    ensures forall a :: Lookup(Run(s, calls).nonces, a) >= Lookup(s.nonces, a)
  {
    RunCounts(s, calls);
  }

  /** Starting from a freshly created pallet, the block number is the number of
      `IncBlockNumber` calls made, the nonce of every account the number of
      `IncNonce` calls made for it, and every stored nonce is at least 1. */
  lemma RunFromGenesis<AccountId(!new)>(calls: seq<Call<AccountId>>)
    ensures Run(Genesis(), calls).blockNumber == multiset(calls)[IncBlockNumber]
    ensures forall a :: Lookup(Run(Genesis(), calls).nonces, a) == multiset(calls)[IncNonce(a)]
    ensures NoncesPositive(Run(Genesis<AccountId>(), calls).nonces)
  {
    RunCounts(Genesis(), calls);
    RunPreservesPositive(Genesis(), calls);
  }

  /** `n` copies of one call. */
  function Repeat<AccountId(!new)>(c: Call<AccountId>, n: nat): (r: seq<Call<AccountId>>)
    ensures |r| == n
    ensures forall i :: 0 <= i < n ==> r[i] == c
    ensures multiset(r)[c] == n
  {
    if n == 0 then [] else Repeat(c, n - 1) + [c]
  }

  /** `n` block increments from a fresh pallet give block number `n`, and `n`
      nonce increments for `a` give nonce `n` for `a` and 0 for everyone else. */
  lemma {:induction false} RepeatFromGenesis<AccountId(!new)>(n: nat, a: AccountId)
    ensures Run(Genesis<AccountId>(), Repeat(IncBlockNumber, n)).blockNumber == n
    ensures Lookup(Run(Genesis(), Repeat(IncNonce(a), n)).nonces, a) == n
    ensures forall b :: b != a ==> Lookup(Run(Genesis(), Repeat(IncNonce(a), n)).nonces, b) == 0
  {
    RunFromGenesis(Repeat<AccountId>(IncBlockNumber, n));
    var calls := Repeat(IncNonce(a), n);
    RunFromGenesis(calls);
    forall b | b != a
      ensures multiset(calls)[IncNonce(b)] == 0
    {
      assert IncNonce(b) !in calls;
    }
  }

  /** The nonce map is canonical under the invariant: two maps whose stored
      nonces are all at least 1 and that agree on every lookup are equal. */
  lemma PositiveNoncesCanonical<AccountId(!new)>(m1: map<AccountId, nat>, m2: map<AccountId, nat>)
    requires NoncesPositive(m1) && NoncesPositive(m2)
    requires forall a :: Lookup(m1, a) == Lookup(m2, a)
    ensures m1 == m2
  {
    assert m1.Keys == m2.Keys by {
      forall a | a in m1 ensures a in m2 {
        assert Lookup(m1, a) >= 1;
      }
      forall a | a in m2 ensures a in m1 {
        assert Lookup(m2, a) >= 1;
      }
    }
    forall a | a in m1 ensures m1[a] == m2[a] {
      assert Lookup(m1, a) == Lookup(m2, a);
    }
  }

  /** The state reached depends only on which calls were made, not on their
      order: interleaving the calls differently gives the same state. */
  lemma RunOrderIndependent<AccountId(!new)>(s: State<AccountId>, c1: seq<Call<AccountId>>, c2: seq<Call<AccountId>>)
    requires multiset(c1) == multiset(c2)
    ensures Run(s, c1) == Run(s, c2)
  {
    RunCounts(s, c1);
    RunCounts(s, c2);
    RunKeys(s, c1);
    RunKeys(s, c2);
    var m1, m2 := Run(s, c1).nonces, Run(s, c2).nonces;
    forall a ensures a in m1 <==> a in m2 {
      assert IncNonce(a) in c1 <==> IncNonce(a) in multiset(c1);
      assert IncNonce(a) in c2 <==> IncNonce(a) in multiset(c2);
    }
    forall a | a in m1 ensures m1[a] == m2[a] {
      assert Lookup(m1, a) == Lookup(m2, a);
    }
  }

  /** The System pallet: a block number and a map from account to nonce,
      both updated in place. */
  class Pallet<AccountId(==,!new)> {
    /** The current block number. */
    var blockNumber: nat
    /** A map from an account to its nonce; absent accounts have nonce 0. */
    var nonces: map<AccountId, nat>

    /** The object invariant: every stored nonce is at least 1. */
    ghost predicate Valid()
      reads this
    {
      NoncesPositive(nonces)
    }

    /** The fields of this pallet, as a value. */
    ghost function Snapshot(): State<AccountId>
      reads this
    {
      State(blockNumber, nonces)
    }

    /** A new pallet starts at block 0 with no account recorded. */
    constructor ()
      ensures Valid()
      ensures Snapshot() == Genesis()
      ensures BlockNumber() == 0
      ensures forall a :: Nonce(a) == 0
    {
      blockNumber := 0;
      nonces := map[];
    }

    /** The current block number. */
    function BlockNumber(): (n: nat)
      reads this
      ensures n == Snapshot().blockNumber
    {
      blockNumber
    }

    /** The nonce of `who`: the stored value, or 0 when `who` has no entry.
        Under the invariant, a nonce is 0 exactly when `who` has no entry. */
    function Nonce(who: AccountId): (n: nat)
      reads this
      ensures who in nonces ==> n == nonces[who]
      ensures who !in nonces ==> n == 0
      ensures Valid() ==> (n == 0 <==> who !in nonces)
    {
      Lookup(nonces, who)
    }

    /** Increases the block number by one; the nonces are untouched. */
    method IncBlockNumber()
      modifies this
      ensures BlockNumber() == old(BlockNumber()) + 1
      ensures nonces == old(nonces)
      ensures Snapshot() == Step(old(Snapshot()), Call.IncBlockNumber)
      ensures old(Valid()) ==> Valid()
    {
      blockNumber := blockNumber + 1;
    }

    /** Increments the nonce of `who`, inserting an entry of 1 if `who` had
        none. No other account's nonce and not the block number change. */
    method IncNonce(who: AccountId)
      modifies this
      ensures Nonce(who) == old(Nonce(who)) + 1
      ensures forall b :: b != who ==> Nonce(b) == old(Nonce(b))
      ensures BlockNumber() == old(BlockNumber())
      ensures nonces.Keys == old(nonces.Keys) + {who}
      ensures Snapshot() == Step(old(Snapshot()), Call.IncNonce(who))
      ensures old(Valid()) ==> Valid()
    {
      var current := Lookup(nonces, who);
      nonces := nonces[who := current + 1];
    }
  }

  /** The pallet's own test scenario: a fresh pallet, one block increment, one
      nonce increment for "alice", with "bob" never touched. Returns what the
      accessors report along the way. */
  method InitSystem() returns (height0: nat, height1: nat, alice0: nat, alice1: nat, bob: nat)
    ensures height0 == 0 && height1 == 1
    ensures alice0 == 0 && alice1 == 1
    ensures bob == 0
  {
    var system := new Pallet<string>();
    height0 := system.BlockNumber();
    system.IncBlockNumber();
    height1 := system.BlockNumber();
    alice0 := system.Nonce("alice");
    system.IncNonce("alice");
    alice1 := system.Nonce("alice");
    bob := system.Nonce("bob");
  }
}
