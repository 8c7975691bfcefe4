/**
 * The ledger's value types: references to transaction outputs, the contract states they hold,
 * and the wallet snapshot with its per-currency cash balances.
 */
module Ledger {
  import opened Wrappers

  /** A secure hash (transaction id, linear thread id) seen only through equality. */
  type Hash = int
  /** A public key, seen only through equality. */
  type PublicKey = int
  /** An ISO currency code such as "USD". */
  type Currency = string

  const USD: Currency := "USD"

  /** A party's reference to something it issued: `MEGA_CORP.ref(1)`. */
  datatype PartyAndReference = PartyAndReference(party: PublicKey, reference: int)

  /** The output of a transaction: the transaction's id and the output's index. */
  datatype StateRef = StateRef(txhash: Hash, index: nat)

  /**
   * The payload of an output, as a closed set of kinds. Cash carries an amount in minor units
   * (cents), issued by a party and owned by a key; a linear state belongs to a thread that links
   * a chain of successors, is relevant to its participants, and differs from its siblings by a nonce.
   * Any other state, identified here only by the hash of its contract, is neither cash nor linear
   * and no node's wallet regards it as its own.
   */
  datatype ContractState =
    | CashState(amount: nat, currency: Currency, issuer: PartyAndReference, owner: PublicKey)
    | LinearState(thread: Hash, participants: seq<PublicKey>, nonce: Hash)
    | OtherState(contract: Hash)

  /** A state paired with the reference of the output that holds it. */
  datatype StateAndRef = StateAndRef(state: ContractState, ref: StateRef)

  /** The type test `stateAndRef.state.data is Cash.State`. */
  predicate IsCash(x: StateAndRef)
  {
    x.state.CashState?
  }

  predicate AllCash(s: seq<StateAndRef>)
  {
    forall x :: x in s ==> IsCash(x)
  }

  /** The references of a sequence of entries. */
  function RefsOf(s: seq<StateAndRef>): set<StateRef>
  {
    set x | x in s :: x.ref
  }

  /** An immutable snapshot of the states a node holds. */
  datatype Wallet = Wallet(states: seq<StateAndRef>)

  /** Whether some cash entry of `s` is in currency `c`. */
  ghost predicate HasCash(s: seq<StateAndRef>, c: Currency)
  {
    exists x :: x in s && x.state.CashState? && x.state.currency == c
  }

  /** The total amount of the cash entries of `s` in currency `c`. */
  function CashSum(s: seq<StateAndRef>, c: Currency): nat
  {
    if s == [] then 0
    else (if s[0].state.CashState? && s[0].state.currency == c then s[0].state.amount else 0)
         + CashSum(s[1..], c)
  }

  /**
   * `cashBalances`: the cash entries grouped by currency (the issuer is ignored), each group's
   * amounts summed. A currency with no cash entry has no key at all.
   */
  function CashBalances(s: seq<StateAndRef>): (m: map<Currency, nat>)
    ensures forall c :: c in m <==> HasCash(s, c)
    ensures forall c :: c in m ==> m[c] == CashSum(s, c)
    ensures forall c :: c !in m ==> CashSum(s, c) == 0
  {
    if s == [] then map[]
    else
      var rest := CashBalances(s[1..]);
      assert forall x :: x in s <==> x == s[0] || x in s[1..];
      match s[0].state
      case CashState(amount, c, _, _) =>
        rest[c := amount + (if c in rest then rest[c] else 0)]
      case LinearState(_, _, _) =>
        rest
      case OtherState(_) =>
        rest
  }

  /** `wallet.cashBalances[currency]`: absent (null) when the wallet holds no cash of that currency. */
  function CashBalance(w: Wallet, c: Currency): (r: Option<nat>)
    ensures r.None? <==> !HasCash(w.states, c)
    ensures r.Some? ==> r.value == CashSum(w.states, c)
  {
    var m := CashBalances(w.states);
    if c in m then Some(m[c]) else None
  }

  /** The cash total of a concatenation is the sum of the totals of its parts. */
  lemma {:induction false} CashSumConcat(a: seq<StateAndRef>, b: seq<StateAndRef>, c: Currency)
    ensures CashSum(a + b, c) == CashSum(a, c) + CashSum(b, c)
  {
    if a == [] {
      assert a + b == b;
    } else {
      assert (a + b)[1..] == a[1..] + b;
      CashSumConcat(a[1..], b, c);
    }
  }

  /** A wallet with no states has no balance entry for any currency. */
  lemma EmptyWalletHasNoBalance(c: Currency)
    ensures CashBalance(Wallet([]), c) == None
  {
  }
}
