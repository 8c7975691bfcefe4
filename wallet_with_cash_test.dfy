/**
 * The wallet behaviour pinned by the node's wallet tests, replayed against the NodeWallet contract:
 * a relevant issue raises the balance, an irrelevant transaction changes nothing, a spend with change
 * leaves the change, a second state on a live linear thread is refused, and moving a linear state
 * to its successor is accepted.
 */
module WalletWithCashTest {
  import opened Wrappers
  import opened Ledger
  import opened ContractStateModel
  import opened Sequences
  import opened NodeWalletService

  /** The key handed out by the key management service for the test; the only key this node owns. */
  const FreshKey: PublicKey := 1
  const BobKey: PublicKey := 2
  const MegaCorpKey: PublicKey := 3

  /** `SecureHash.sha256("thread")`. */
  const Thread: Hash := 7

  /**
   * An output is ours when we own it (cash) or take part in it (linear state); the wallet takes no
   * other kind of state.
   */
  predicate OwnedBy(keys: set<PublicKey>, s: ContractState)
  {
    match s
    case CashState(_, _, _, owner) => owner in keys
    case LinearState(_, participants, _) => exists k :: k in participants && k in keys
    case OtherState(_) => false
  }

  predicate Ours(s: ContractState)
  {
    OwnedBy({FreshKey}, s)
  }

  lemma OutRefsOne(tx: WireTransaction)
    requires |tx.outputs| == 1
    ensures OutRefs(tx) == [StateAndRef(tx.outputs[0], StateRef(tx.id, 0))]
  {
  }

  lemma OutRefsTwo(tx: WireTransaction)
    requires |tx.outputs| == 2
    ensures OutRefs(tx) == [StateAndRef(tx.outputs[0], StateRef(tx.id, 0)), StateAndRef(tx.outputs[1], StateRef(tx.id, 1))]
  {
  }

  /**
   * Issuing one output of ours, spending nothing, adds just that output, provided that a linear
   * output's thread is not already held.
   */
  lemma IssueOne(states: seq<StateAndRef>, tx: WireTransaction)
    requires tx.inputs == [] && |tx.outputs| == 1 && Ours(tx.outputs[0])
    requires tx.outputs[0].LinearState? ==> ThreadCount(states, tx.outputs[0].thread) == 0
    ensures var e := StateAndRef(tx.outputs[0], StateRef(tx.id, 0));
      Apply(states, tx, Ours) == Ok(Applied(states + [e], Diff([e], {})))
  {
    var e := StateAndRef(tx.outputs[0], StateRef(tx.id, 0));
    OutRefsOne(tx);
    Sequences.FilterSingleton(RelevantTo(Ours), e);
    assert Consumed(states, tx) == {};
    FoldStepEmptyDiff(states);
    assert FoldStep(states, Diff([e], {})) == states + [e];
    if e.state.LinearState? {
      assert ThreadCount([e], e.state.thread) == 1;
      CountConcat(OnThread(e.state.thread), states, [e]);
    }
  }

  /** A single held cash state gives a balance of its amount in its currency. */
  lemma BalanceOfOne(e: StateAndRef)
    requires e.state.CashState?
    ensures CashBalance(Wallet([e]), e.state.currency) == Some(e.state.amount)
  {
    assert e in [e];
  }

  /** The spend: our 100.00 is consumed, 80.00 goes to Bob, the 20.00 change comes back to us. */
  lemma SpendWithChange(e: StateAndRef, tx: WireTransaction)
    requires tx.inputs == [e.ref] && |tx.outputs| == 2
    requires !Ours(tx.outputs[0]) && Ours(tx.outputs[1]) && tx.outputs[1].CashState?
    ensures var ch := StateAndRef(tx.outputs[1], StateRef(tx.id, 1));
      Apply([e], tx, Ours) == Ok(Applied([ch], Diff([ch], {e.ref})))
  {
    var b := StateAndRef(tx.outputs[0], StateRef(tx.id, 0));
    var ch := StateAndRef(tx.outputs[1], StateRef(tx.id, 1));
    OutRefsTwo(tx);
    assert [b, ch][1..] == [ch];
    Sequences.FilterSingleton(RelevantTo(Ours), ch);
    assert Produced(tx, Ours) == [ch];
    assert RefsOf([e]) == {e.ref};
    assert Consumed([e], tx) == {e.ref};
    Sequences.FilterSingleton(NotRemoved({e.ref}), e);
    assert FoldStep([e], Diff([ch], {e.ref})) == [ch];
  }

  /** A second state on a thread whose first state is still held is refused. */
  lemma BranchRefused(l: StateAndRef, tx: WireTransaction)
    requires l.state.LinearState? && tx.inputs == [] && |tx.outputs| == 1 && Ours(tx.outputs[0])
    requires tx.outputs[0].LinearState? && tx.outputs[0].thread == l.state.thread
    ensures Apply([l], tx, Ours) == Err(BranchedLinearState(l.state.thread))
  {
    var e := StateAndRef(tx.outputs[0], StateRef(tx.id, 0));
    OutRefsOne(tx);
    Sequences.FilterSingleton(RelevantTo(Ours), e);
    assert Consumed([l], tx) == {};
    FoldStepEmptyDiff([l]);
    assert FoldStep([l], Diff([e], {})) == [l, e];
    assert ThreadCount([e], l.state.thread) == 1;
    assert ThreadCount([l], l.state.thread) == 1;
    CountConcat(OnThread(l.state.thread), [l], [e]);
    assert [l] + [e] == [l, e];
  }

  /** Consuming the held linear state while producing its successor on the same thread is accepted. */
  lemma SuccessorAccepted(l: StateAndRef, tx: WireTransaction)
    requires l.state.LinearState? && tx.inputs == [l.ref] && |tx.outputs| == 1 && Ours(tx.outputs[0])
    requires tx.outputs[0].LinearState? && tx.outputs[0].thread == l.state.thread
    ensures var e := StateAndRef(tx.outputs[0], StateRef(tx.id, 0));
      Apply([l], tx, Ours) == Ok(Applied([e], Diff([e], {l.ref})))
  {
    var e := StateAndRef(tx.outputs[0], StateRef(tx.id, 0));
    OutRefsOne(tx);
    Sequences.FilterSingleton(RelevantTo(Ours), e);
    assert RefsOf([l]) == {l.ref};
    assert Consumed([l], tx) == {l.ref};
    Sequences.FilterSingleton(NotRemoved({l.ref}), l);
    assert FoldStep([l], Diff([e], {l.ref})) == [e];
    assert ThreadCount([e], e.state.thread) == 1;
  }

  /** Delivers a transaction whose effect on the wallet is already known. */
  method Deliver(wallet: NodeWallet, tx: WireTransaction, ghost a: Applied) returns (r: Result<Diff, LedgerError>)
    requires wallet.Valid() && Apply(wallet.currentWallet.states, tx, wallet.isRelevant) == Ok(a)
    modifies wallet
    ensures wallet.Valid() && wallet.currentWallet == Wallet(a.states) && r == Ok(a.diff)
  {
    r := wallet.Notify(tx);
  }

  /** The cash of the `basics` scenario: all USD, issued by MegaCorp. */
  const Issuer := PartyAndReference(MegaCorpKey, 1)
  const Mine := CashState(100_00, USD, Issuer, FreshKey)
  const Change := CashState(20_00, USD, Issuer, FreshKey)

  /** The first step of `basics`: 100.00 USD issued to our key lands in the empty wallet. */
  method IssueToUs(wallet: NodeWallet) returns (balance: Option<nat>)
    requires wallet.Valid() && wallet.isRelevant == Ours && wallet.currentWallet.states == []
    modifies wallet
    ensures wallet.Valid() && wallet.currentWallet == Wallet([StateAndRef(Mine, StateRef(1, 0))])
    ensures balance == Some(100_00)
  {
    var usefulTx := WireTransaction(1, [], [Mine]);
    var e := StateAndRef(Mine, StateRef(1, 0));
    IssueOne([], usefulTx);
    var r := Deliver(wallet, usefulTx, Applied([e], Diff([e], {})));
    BalanceOfOne(e);
    balance := CashBalance(wallet.currentWallet, USD);
  }

  /** The second step of `basics`: an issue to Bob leaves our wallet as it was. */
  method IssueToBob(wallet: NodeWallet) returns (balance: Option<nat>)
    requires wallet.Valid() && wallet.isRelevant == Ours
    requires wallet.currentWallet == Wallet([StateAndRef(Mine, StateRef(1, 0))])
    modifies wallet
    ensures wallet.Valid() && wallet.currentWallet == old(wallet.currentWallet)
    ensures balance == Some(100_00)
  {
    var irrelevantTx := WireTransaction(2, [], [CashState(100_00, USD, Issuer, BobKey)]);
    var e := StateAndRef(Mine, StateRef(1, 0));
    assert RefsOf([e]) == {e.ref};
    IrrelevantTransactionChangesNothing([e], irrelevantTx, Ours);
    var r := Deliver(wallet, irrelevantTx, Applied([e], Diff([], {})));
    BalanceOfOne(e);
    balance := CashBalance(wallet.currentWallet, USD);
  }

  /** The last step of `basics`: our 100.00 pays 80.00 to Bob, and the 20.00 change is all we hold. */
  method SpendToBob(wallet: NodeWallet) returns (balance: Option<nat>)
    requires wallet.Valid() && wallet.isRelevant == Ours
    requires wallet.currentWallet == Wallet([StateAndRef(Mine, StateRef(1, 0))])
    modifies wallet
    ensures wallet.Valid() && wallet.currentWallet == Wallet([StateAndRef(Change, StateRef(3, 1))])
    ensures balance == Some(20_00)
  {
    var spendTx := WireTransaction(3, [StateRef(1, 0)], [CashState(80_00, USD, Issuer, BobKey), Change]);
    var e := StateAndRef(Mine, StateRef(1, 0));
    var ch := StateAndRef(Change, StateRef(3, 1));
    SpendWithChange(e, spendTx);
    var r := Deliver(wallet, spendTx, Applied([ch], Diff([ch], {e.ref})));
    BalanceOfOne(ch);
    balance := CashBalance(wallet.currentWallet, USD);
  }

  /**
   * `basics`: no USD balance at first; 100.00 USD after an issue to our key; still 100.00 after an
   * issue to Bob; 20.00 after spending our 100.00 with 80.00 to Bob and 20.00 change to us, the
   * spent state gone and the change held.
   */
  method Basics() returns (before: Option<nat>, afterIssue: Option<nat>, afterIrrelevant: Option<nat>,
                           afterSpend: Option<nat>, held: seq<StateAndRef>)
    ensures before == None
    ensures afterIssue == Some(100_00)
    ensures afterIrrelevant == Some(100_00)
    ensures afterSpend == Some(20_00)
    ensures held == [StateAndRef(CashState(20_00, USD, PartyAndReference(MegaCorpKey, 1), FreshKey), StateRef(3, 1))]
  {
    var wallet := new NodeWallet(Ours);
    assert wallet.isRelevant == Ours;
    before := CashBalance(wallet.currentWallet, USD);
    afterIssue := IssueToUs(wallet);
    afterIrrelevant := IssueToBob(wallet);
    afterSpend := SpendToBob(wallet);
    held := wallet.currentWallet.states;
  }

  /**
   * `branchingLinearStatesFails`: after one linear state is issued the wallet holds one state; a
   * second issue on the same thread, the first unconsumed, is refused and the wallet still holds one.
   */
  method BranchingLinearStatesFails() returns (sizeAfterIssue: nat, second: Result<Diff, LedgerError>,
                                              sizeAfterSecond: nat)
    ensures sizeAfterIssue == 1
    ensures second == Err(BranchedLinearState(Thread))
    ensures sizeAfterSecond == 1
  {
    var issue := WireTransaction(1, [], [LinearState(Thread, [FreshKey], 1)]);
    var issue2 := WireTransaction(2, [], [LinearState(Thread, [FreshKey], 2)]);

    var wallet := new NodeWallet(Ours);
    var l := StateAndRef(issue.outputs[0], StateRef(1, 0));
    IssueOne([], issue);
    var r1 := Deliver(wallet, issue, Applied([l], Diff([l], {})));
    sizeAfterIssue := |wallet.currentWallet.states|;

    assert wallet.isRelevant == Ours;
    BranchRefused(l, issue2);
    second := wallet.Notify(issue2);
    sizeAfterSecond := |wallet.currentWallet.states|;
  }

  /**
   * `sequencingLinearStatesWorks`: issuing a linear state, then consuming it while producing its
   * successor on the same thread, is accepted and leaves exactly the successor.
   */
  method SequencingLinearStatesWorks() returns (sizeAfterIssue: nat, move: Result<Diff, LedgerError>,
                                               held: seq<StateAndRef>)
    ensures sizeAfterIssue == 1
    ensures move.Ok?
    ensures held == [StateAndRef(LinearState(Thread, [FreshKey], 2), StateRef(2, 0))]
  {
    var issue := WireTransaction(1, [], [LinearState(Thread, [FreshKey], 1)]);
    var moveTx := WireTransaction(2, [StateRef(1, 0)], [LinearState(Thread, [FreshKey], 2)]);

    var wallet := new NodeWallet(Ours);
    var l := StateAndRef(issue.outputs[0], StateRef(1, 0));
    IssueOne([], issue);
    var r1 := Deliver(wallet, issue, Applied([l], Diff([l], {})));
    sizeAfterIssue := |wallet.currentWallet.states|;

    assert wallet.isRelevant == Ours;
    SuccessorAccepted(l, moveTx);
    move := wallet.Notify(moveTx);
    held := wallet.currentWallet.states;
  }
}
