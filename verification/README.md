# System pallet

A model of the System pallet of a small educational blockchain state machine.
The pallet owns the low-level state of the chain: the current block number and,
for each account, a nonce counting the transactions that account has made. An
account that has never transacted has no entry in the nonce map and reads as
nonce 0. The runtime creates one pallet at genesis, increments the block number
once per block and increments an account's nonce after each of its
transactions.

`system.dfy` holds one module, `System`:

- `Pallet` is the pallet itself: a class with the fields `blockNumber` and
  `nonces`, the read accessors `BlockNumber` and `Nonce` as functions, and the
  mutators `IncBlockNumber` and `IncNonce` as methods that update the fields in
  place. `Valid()` is the object invariant (every stored nonce is at least 1).
- `State`, `Genesis`, `Step` and `Run` give the same state as a value and the
  effect of any sequence of mutator calls (`Call`). Each mutator of `Pallet` is
  proved to change its state exactly as `Step` does, so the lemmas about `Run`
  describe any sequence of calls made on a `Pallet`.
- `InitSystem` is the pallet's own unit test scenario, with its assertions as
  postconditions.

The source is generic over three type parameters, `AccountId`, `BlockNumber` and
`Nonce`, bounded by traits. The model keeps `AccountId` as a type parameter and
takes `nat` for `BlockNumber` and `Nonce`: the pallet uses nothing of them but
zero, one and addition. The source uses three independent type parameters, not
a single configuration trait with associated types; the model follows the code.

## Model

| member | source | states |
|---|---|---|
| `System.Pallet.constructor` | src/system.rs:22-24 | a new pallet is at block 0 and every account's nonce is 0; its state is `Genesis()` and it satisfies the invariant |
| `System.Pallet.BlockNumber` | src/system.rs:27-29 | returns the current block number without changing anything |
| `System.Pallet.Nonce` | src/system.rs:32-34 | returns the stored nonce when the account has an entry and 0 when it has none; under the invariant the result is 0 exactly when the account has no entry |
| `System.Pallet.IncBlockNumber` | src/system.rs:38-40 | the block number becomes the old one plus one and the nonce map is unchanged; the state moves as `Step` says and the invariant is kept |
| `System.Pallet.IncNonce` | src/system.rs:44-47 | the nonce of `who` becomes its old value (0 when absent) plus one, every other account's nonce and the block number are unchanged, `who` gains an entry; the state moves as `Step` says and the invariant is kept |
| `System.Genesis` | src/system.rs:22-24 | the genesis state has block number 0, nonce 0 for every account and satisfies the invariant |
| `System.Step` | src/system.rs:38-47 | one call raises exactly the counter it targets by one, as observed through the zero-on-miss lookup, and adds at most the called account to the map's keys |
| `System.RunCounts` | src/system.rs:38-47 | over any sequence of calls the block number grows by the number of block increments and each account's nonce by the number of increments for that account, whatever is interleaved |
| `System.RunKeys` | src/system.rs:44-47 | after a sequence of calls an account has an entry exactly when it had one before or one of the calls incremented its nonce |
| `System.RunPreservesPositive` | src/system.rs:44-47 | every sequence of calls keeps all stored nonces at least 1 |
| `System.RunMonotonic` | src/system.rs:38-47 | neither the block number nor any account's nonce ever decreases |
| `System.RunFromGenesis` | src/system.rs:22-47 | from a new pallet, the block number equals the number of block increments made, each account's nonce the number of increments made for it, and all stored nonces are at least 1 |
| `System.RepeatFromGenesis` | src/system.rs:22-47 | from a new pallet, `n` block increments give block number `n`; `n` nonce increments for one account give it nonce `n` and leave every other account at 0 |
| `System.PositiveNoncesCanonical` | src/system.rs:32-47 | two nonce maps that satisfy the invariant and agree on every zero-on-miss lookup are the same map |
| `System.RunOrderIndependent` | src/system.rs:38-47 | two sequences holding the same calls in any order reach the same state |
| `System.InitSystem` | src/system.rs:53-69 | the unit test: block number 0 then 1 after one increment; "alice" has nonce 0 then 1 after one increment; "bob" stays at 0 |

## Left out

- Fixed-width arithmetic: the test instantiates both counters as 32-bit unsigned integers, where incrementing at the maximum overflows. Block numbers and nonces are unbounded `nat` here, so the overflow at the top of the range is not modelled.
- The ordering of `BTreeMap` keys and its iteration order: the pallet only looks up and inserts by key, so a Dafny `map` is used and the `Ord` bounds on the type parameters play no part.
- Cloning the account key on insert and the derived `Debug` implementation: ownership and printing details with no effect on the state.
- The `Zero`, `One` and `AddAssign` traits of the `num` crate: replaced by `0`, `1` and `+` on `nat`.
