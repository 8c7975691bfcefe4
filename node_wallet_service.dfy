/**
 * The node's wallet: the states it currently holds, replaced as a whole each time a verified
 * transaction is applied. Applying consumes the held states the transaction spends, adds the
 * outputs relevant to this node, and refuses any transaction after which two held states would
 * share a linear thread.
 */
module NodeWalletService {
  import opened Wrappers
  import opened Ledger
  import opened Sequences
  import opened ContractStateModel

  /** A transaction whose signatures and contract rules are already checked: its id, inputs and outputs. */
  datatype WireTransaction = WireTransaction(id: Hash, inputs: seq<StateRef>, outputs: seq<ContractState>)

  /** The ledger inconsistency that rejects a transaction: a linear thread would branch. */
  datatype LedgerError = BranchedLinearState(thread: Hash)

  /** A successful application: the wallet's new states and the diff it reports. */
  datatype Applied = Applied(states: seq<StateAndRef>, diff: Diff)

  /** `tx.outRef(i)` for every output `i`: the output paired with the reference (tx.id, i). */
  function OutRefs(tx: WireTransaction): (r: seq<StateAndRef>)
    ensures |r| == |tx.outputs|
    ensures forall i :: 0 <= i < |r| ==> r[i] == StateAndRef(tx.outputs[i], StateRef(tx.id, i))
  {
    seq(|tx.outputs|, i requires 0 <= i < |tx.outputs| => StateAndRef(tx.outputs[i], StateRef(tx.id, i)))
  }

  /** The relevance rule ("is this output ours?") lifted to entries. */
  function RelevantTo(isRelevant: ContractState -> bool): StateAndRef -> bool
  {
    (x: StateAndRef) => isRelevant(x.state)
  }

  /** The outputs of `tx` that belong to this node, in output order. */
  function Produced(tx: WireTransaction, isRelevant: ContractState -> bool): (r: seq<StateAndRef>)
    ensures |r| <= |tx.outputs|
    ensures forall x :: x in r <==> x in OutRefs(tx) && isRelevant(x.state)
  {
    FilterLength(RelevantTo(isRelevant), OutRefs(tx));
    forall x ensures x in Filter(RelevantTo(isRelevant), OutRefs(tx)) <==> x in OutRefs(tx) && isRelevant(x.state) {
      FilterMembership(RelevantTo(isRelevant), OutRefs(tx), x);
    }
    Filter(RelevantTo(isRelevant), OutRefs(tx))
  }

  /** The inputs of `tx` that this wallet holds; other inputs are not ours and are ignored. */
  function Consumed(states: seq<StateAndRef>, tx: WireTransaction): (c: set<StateRef>)
    ensures forall r :: r in c <==> r in tx.inputs && exists x :: x in states && x.ref == r
  {
    set r | r in tx.inputs && r in RefsOf(states)
  }

  /** Whether an entry is a linear state on thread `t`. */
  function OnThread(t: Hash): StateAndRef -> bool
  {
    (x: StateAndRef) => x.state.LinearState? && x.state.thread == t
  }

  /** The number of linear states of `s` on thread `t`. */
  function ThreadCount(s: seq<StateAndRef>, t: Hash): nat
  {
    Count(OnThread(t), s)
  }

  /** The wallet invariant: at most one held state per linear thread. */
  ghost predicate NoBranching(s: seq<StateAndRef>)
  {
    forall t :: ThreadCount(s, t) <= 1
  }

  /**
   * The thread of a linear state among `produced` that occurs more than once in `next`, if any:
   * the first such state's thread, since `produced` is scanned in order.
   */
  function BranchedThread(produced: seq<StateAndRef>, next: seq<StateAndRef>): (r: Option<Hash>)
    ensures r.None? <==>
      forall x :: x in produced && x.state.LinearState? ==> ThreadCount(next, x.state.thread) <= 1
    ensures r.Some? ==>
      && ThreadCount(next, r.value) > 1
      && exists x :: x in produced && x.state.LinearState? && x.state.thread == r.value
  {
    if produced == [] then None
    else
      assert forall x :: x in produced <==> x == produced[0] || x in produced[1..];
      if produced[0].state.LinearState? && ThreadCount(next, produced[0].state.thread) > 1
      then Some(produced[0].state.thread)
      else BranchedThread(produced[1..], next)
  }

  /**
   * `notify(tx)` as a function of the held states: the diff adds the relevant outputs and removes the
   * held inputs; the new states are the held states without the consumed ones, followed by the
   * produced ones. It fails, changing nothing, if a produced linear state's thread would then be
   * held more than once.
   */
  function Apply(states: seq<StateAndRef>, tx: WireTransaction, isRelevant: ContractState -> bool)
    : (r: Result<Applied, LedgerError>)
    ensures r.Err? ==>
      exists x :: x in Produced(tx, isRelevant) && x.state.LinearState? && x.state.thread == r.error.thread
    ensures r.Ok? ==> r.value.diff.removed <= RefsOf(states) && |r.value.diff.added| <= |tx.outputs|
  {
    var diff := Diff(Produced(tx, isRelevant), Consumed(states, tx));
    var next := FoldStep(states, diff);
    match BranchedThread(diff.added, next)
    case Some(t) => Err(BranchedLinearState(t))
    case None => Ok(Applied(next, diff))
  }

  /** The diff a successful application reports is what the wallet gained and lost. */
  lemma ApplyDiff(states: seq<StateAndRef>, tx: WireTransaction, isRelevant: ContractState -> bool)
    requires Apply(states, tx, isRelevant).Ok?
    ensures var a := Apply(states, tx, isRelevant).value;
      && a.states == FoldStep(states, a.diff)
      && (forall r :: r in a.diff.removed <==> r in tx.inputs && r in RefsOf(states))
      && (forall x :: x in a.diff.added <==> x in OutRefs(tx) && isRelevant(x.state))
  {
    forall x ensures x in Produced(tx, isRelevant) <==> x in OutRefs(tx) && isRelevant(x.state) {
      FilterMembership(RelevantTo(isRelevant), OutRefs(tx), x);
    }
  }

  /**
   * After a successful application the wallet holds exactly the old states whose reference the
   * transaction does not spend, and the transaction's outputs that are ours.
   */
  lemma ApplyContents(states: seq<StateAndRef>, tx: WireTransaction, isRelevant: ContractState -> bool,
                      x: StateAndRef)
    requires Apply(states, tx, isRelevant).Ok?
    ensures x in Apply(states, tx, isRelevant).value.states <==>
      (x in states && x.ref !in tx.inputs) || (x in OutRefs(tx) && isRelevant(x.state))
  {
    var a := Apply(states, tx, isRelevant).value;
    ApplyDiff(states, tx, isRelevant);
    FoldStepMembership(states, a.diff, x);
    assert x in states ==> x.ref in RefsOf(states);
  }

  /** A transaction is rejected exactly when one of its produced linear states' threads would be held twice. */
  lemma ApplyRejectsExactlyBranching(states: seq<StateAndRef>, tx: WireTransaction,
                                     isRelevant: ContractState -> bool)
    ensures var produced := Produced(tx, isRelevant);
      var next := FoldStep(states, Diff(produced, Consumed(states, tx)));
      Apply(states, tx, isRelevant).Err? <==>
        exists x :: x in produced && x.state.LinearState? && ThreadCount(next, x.state.thread) > 1
  {
  }

  /** A successful application keeps the no-branching invariant. */
  lemma ApplyPreservesNoBranching(states: seq<StateAndRef>, tx: WireTransaction,
                                  isRelevant: ContractState -> bool)
    requires NoBranching(states)
    requires Apply(states, tx, isRelevant).Ok?
    ensures NoBranching(Apply(states, tx, isRelevant).value.states)
  {
    var a := Apply(states, tx, isRelevant).value;
    var kept := Filter(NotRemoved(a.diff.removed), states);
    forall t ensures ThreadCount(a.states, t) <= 1 {
      if exists x :: x in a.diff.added && x.state.LinearState? && x.state.thread == t {
        var x :| x in a.diff.added && x.state.LinearState? && x.state.thread == t;
        assert ThreadCount(a.states, x.state.thread) <= 1;
      } else {
        assert a.states == kept + a.diff.added;
        assert ThreadCount(states, t) <= 1;
        CountNone(OnThread(t), a.diff.added);
        CountConcat(OnThread(t), kept, a.diff.added);
        CountAfterFilter(OnThread(t), NotRemoved(a.diff.removed), states);
      }
    }
  }

  /** A transaction that spends nothing we hold and pays nothing to us changes nothing. */
  lemma IrrelevantTransactionChangesNothing(states: seq<StateAndRef>, tx: WireTransaction,
                                            isRelevant: ContractState -> bool)
    requires forall r :: r in tx.inputs ==> r !in RefsOf(states)
    requires forall o :: o in tx.outputs ==> !isRelevant(o)
    ensures Apply(states, tx, isRelevant) == Ok(Applied(states, Diff([], {})))
  {
    var out := OutRefs(tx);
    forall x | x in out ensures !RelevantTo(isRelevant)(x) {
      var i :| 0 <= i < |out| && out[i] == x;
      assert tx.outputs[i] in tx.outputs;
    }
    FilterKeepsNone(RelevantTo(isRelevant), out);
    assert Consumed(states, tx) == {};
    FoldStepEmptyDiff(states);
  }

  lemma {:induction false} CashSumSplit(s: seq<StateAndRef>, removed: set<StateRef>, c: Currency)
    ensures CashSum(s, c)
         == CashSum(Filter(NotRemoved(removed), s), c) + CashSum(Filter(IsRemoved(removed), s), c)
  {
    if s != [] {
      CashSumSplit(s[1..], removed, c);
      var kept := if s[0].ref !in removed then [s[0]] else [];
      var gone := if s[0].ref in removed then [s[0]] else [];
      assert Filter(NotRemoved(removed), s) == kept + Filter(NotRemoved(removed), s[1..]);
      assert Filter(IsRemoved(removed), s) == gone + Filter(IsRemoved(removed), s[1..]);
      CashSumConcat(kept, Filter(NotRemoved(removed), s[1..]), c);
      CashSumConcat(gone, Filter(IsRemoved(removed), s[1..]), c);
    }
  }

  /**
   * Balance conservation: after a successful application, the balance in any currency is the old
   * balance minus what the consumed states held plus what the produced states hold.
   */
  lemma ApplyConservesCash(states: seq<StateAndRef>, tx: WireTransaction,
                           isRelevant: ContractState -> bool, c: Currency)
    requires Apply(states, tx, isRelevant).Ok?
    ensures var a := Apply(states, tx, isRelevant).value;
      CashSum(a.states, c) + CashSum(Filter(IsRemoved(a.diff.removed), states), c)
        == CashSum(states, c) + CashSum(a.diff.added, c)
  {
    var a := Apply(states, tx, isRelevant).value;
    CashSumConcat(Filter(NotRemoved(a.diff.removed), states), a.diff.added, c);
    CashSumSplit(states, a.diff.removed, c);
  }

  /**
   * `NodeWalletService`: holds the current wallet snapshot; `emitted` is the (ghost) history of the
   * diffs it has reported, from which every subscribed projection is folded.
   */
  class NodeWallet {
    const isRelevant: ContractState -> bool
    var currentWallet: Wallet
    ghost var emitted: seq<Diff>

    ghost predicate Valid()
      reads this
    {
      && NoBranching(currentWallet.states)
      && currentWallet.states == FoldAll([], emitted)
    }

    constructor (isRelevant: ContractState -> bool)
      ensures Valid()
      ensures this.isRelevant == isRelevant && currentWallet == Wallet([]) && emitted == []
    {
      this.isRelevant := isRelevant;
      currentWallet := Wallet([]);
      emitted := [];
    }

    /**
     * `notify(tx)`: applies the transaction; on success the snapshot is replaced and the diff is
     * reported, on a ledger inconsistency the wallet is left exactly as it was.
     */
    method Notify(tx: WireTransaction) returns (r: Result<Diff, LedgerError>)
      requires Valid()
      modifies this
      ensures Valid()
      ensures match Apply(old(currentWallet.states), tx, isRelevant)
        case Ok(a) =>
          r == Ok(a.diff) && currentWallet == Wallet(a.states) && emitted == old(emitted) + [a.diff]
        case Err(e) =>
          r == Err(e) && currentWallet == old(currentWallet) && emitted == old(emitted)
    {
      var applied := Apply(currentWallet.states, tx, isRelevant);
      match applied
      case Err(e) => r := Err(e);
      case Ok(a) =>
        ApplyPreservesNoBranching(currentWallet.states, tx, isRelevant);
        ApplyDiff(currentWallet.states, tx, isRelevant);
        FoldAllSnoc([], emitted, a.diff);
        assert a.states == FoldAll([], emitted + [a.diff]);
        currentWallet := Wallet(a.states);
        emitted := emitted + [a.diff];
        r := Ok(a.diff);
    }
  }

  /**
   * Fold and full recomputation agree: a cash projection folded from every diff the wallet
   * reported equals the cash entries of the current wallet.
   */
  lemma ProjectionMatchesWallet(w: Wallet, emitted: seq<Diff>)
    requires w.states == FoldAll([], emitted)
    ensures FoldAll([], CashStatesDiffs(emitted)) == Filter(IsCash, w.states)
  {
    FoldAllCommutesWithCashFilter([], emitted);
  }
}
