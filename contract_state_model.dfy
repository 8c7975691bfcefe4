/**
 * The client's view of the owned contract states: vault updates become diffs, the diffs are
 * narrowed to cash, and the cash diffs are folded, one by one and in arrival order, into a list
 * kept up to date in place.
 */
module ContractStateModel {
  import opened Wrappers
  import opened Ledger
  import opened Sequences

  /** The vault's report of one applied transaction: the references it consumed, the entries it produced. */
  datatype VaultUpdate = VaultUpdate(consumed: set<StateRef>, produced: seq<StateAndRef>)

  /** Entries to append and references to remove. References carry no type, so `removed` is untyped. */
  datatype Diff = Diff(added: seq<StateAndRef>, removed: set<StateRef>)

  /** `contractStatesDiff`: a vault update as a diff. */
  function ContractStatesDiff(u: VaultUpdate): (d: Diff)
    ensures d.added == u.produced && d.removed == u.consumed
  {
    Diff(u.produced, u.consumed)
  }

  /** `stateAndRef as StateAndRef<Cash.State>` when the data is cash, null otherwise. */
  function AsCash(x: StateAndRef): Option<StateAndRef>
  {
    if IsCash(x) then Some(x) else None
  }

  /** `map { ... }` over a collection of entries. */
  function MapAsCash(s: seq<StateAndRef>): (r: seq<Option<StateAndRef>>)
    ensures |r| == |s|
    ensures forall i :: 0 <= i < |s| ==> (r[i].Some? <==> s[i].state.CashState?)
    ensures forall i :: 0 <= i < |s| && r[i].Some? ==> r[i].value == s[i]
  {
    seq(|s|, i requires 0 <= i < |s| => AsCash(s[i]))
  }

  /** `filterNotNull()`: the present values, in order. */
  function FilterNotNull<T(==,!new)>(s: seq<Option<T>>): (r: seq<T>)
    ensures |r| <= |s|
    ensures forall x :: x in r <==> Some(x) in s
  {
    if s == [] then []
    else
      assert forall o :: o in s <==> o == s[0] || o in s[1..];
      (if s[0].Some? then [s[0].value] else []) + FilterNotNull(s[1..])
  }

  /** Mapping to "the entry if cash, else null" and then dropping the nulls is filtering by the cash test. */
  lemma {:induction false} MapNotNullIsFilter(s: seq<StateAndRef>)
    ensures FilterNotNull(MapAsCash(s)) == Filter(IsCash, s)
  {
    if s != [] {
      assert MapAsCash(s)[1..] == MapAsCash(s[1..]);
      MapNotNullIsFilter(s[1..]);
    }
  }

  /**
   * `filterCashStateAndRefs`: exactly the cash entries of `s`, in their relative order. Together with
   * FilterMembership and FilterConcat this says: every kept entry is cash and from `s`, every cash
   * entry of `s` is kept, and the order of any two kept entries is their order in `s`.
   */
  function FilterCashStateAndRefs(s: seq<StateAndRef>): (r: seq<StateAndRef>)
    ensures r == Filter(IsCash, s)
    ensures AllCash(r)
    ensures forall x :: x in r <==> x in s && IsCash(x)
  {
    MapNotNullIsFilter(s);
    FilterSound(IsCash, s);
    forall x ensures x in Filter(IsCash, s) <==> x in s && IsCash(x) {
      FilterMembership(IsCash, s, x);
    }
    FilterNotNull(MapAsCash(s))
  }

  /** `cashStatesDiff`: the added entries narrowed to cash; the removed references passed on untouched. */
  function CashStatesDiff(d: Diff): (c: Diff)
    ensures c.removed == d.removed
    ensures c.added == Filter(IsCash, d.added) && AllCash(c.added)
  {
    Diff(FilterCashStateAndRefs(d.added), d.removed)
  }

  /** The negation of `IsRemoved`: whether an entry survives. */
  function NotRemoved(removed: set<StateRef>): StateAndRef -> bool
  {
    (x: StateAndRef) => x.ref !in removed
  }

  /** The test of `removeIf { it.ref in removed }`: whether an entry goes. */
  function IsRemoved(removed: set<StateRef>): StateAndRef -> bool
  {
    (x: StateAndRef) => x.ref in removed
  }

  /**
   * One fold step: drop every entry whose reference is removed, then append the added entries.
   * The added entries end the new list, in the given order.
   */
  function FoldStep(s: seq<StateAndRef>, d: Diff): (r: seq<StateAndRef>)
    ensures |r| >= |d.added| && r[|r| - |d.added|..] == d.added
  {
    Filter(NotRemoved(d.removed), s) + d.added
  }

  /** Folding a sequence of diffs, in order, into a list. */
  function FoldAll(s: seq<StateAndRef>, ds: seq<Diff>): seq<StateAndRef>
    decreases ds
  {
    if ds == [] then s else FoldAll(FoldStep(s, ds[0]), ds[1..])
  }

  /** The cash diffs of a stream of vault updates. */
  function CashDiffs(us: seq<VaultUpdate>): (ds: seq<Diff>)
    ensures |ds| == |us|
    ensures forall i :: 0 <= i < |us| ==> ds[i] == CashStatesDiff(ContractStatesDiff(us[i]))
  {
    seq(|us|, i requires 0 <= i < |us| => CashStatesDiff(ContractStatesDiff(us[i])))
  }

  /** The cash narrowing of every diff of a stream. */
  function CashStatesDiffs(ds: seq<Diff>): (cs: seq<Diff>)
    ensures |cs| == |ds|
    ensures forall i :: 0 <= i < |ds| ==> cs[i] == CashStatesDiff(ds[i])
  {
    seq(|ds|, i requires 0 <= i < |ds| => CashStatesDiff(ds[i]))
  }

  /** The contents of `cashStates` after a stream of vault updates, starting from the empty list. */
  function CashStatesAfter(us: seq<VaultUpdate>): seq<StateAndRef>
  {
    FoldAll([], CashDiffs(us))
  }

  /** After a step the list holds exactly the old entries not removed and the added entries. */
  lemma FoldStepMembership(s: seq<StateAndRef>, d: Diff, x: StateAndRef)
    ensures x in FoldStep(s, d) <==> (x in s && x.ref !in d.removed) || x in d.added
  {
    FilterMembership(NotRemoved(d.removed), s, x);
  }

  /**
   * The new list is the surviving old entries followed by the added entries in the given order;
   * none of the surviving entries has a removed reference.
   */
  lemma FoldStepLayout(s: seq<StateAndRef>, d: Diff)
    ensures var n := FoldStep(s, d);
      && |n| >= |d.added|
      && n[|n| - |d.added|..] == d.added
      && forall i :: 0 <= i < |n| - |d.added| ==> n[i] in s && n[i].ref !in d.removed
  {
    var kept := Filter(NotRemoved(d.removed), s);
    FilterSound(NotRemoved(d.removed), s);
    var n := FoldStep(s, d);
    assert n == kept + d.added;
    forall i | 0 <= i < |n| - |d.added| ensures n[i] in s && n[i].ref !in d.removed {
      assert n[i] == kept[i] && kept[i] in kept;
    }
  }

  /** Surviving entries keep their relative order: whatever came first still comes first. */
  lemma FoldStepKeepsOrder(a: seq<StateAndRef>, b: seq<StateAndRef>, d: Diff)
    ensures FoldStep(a + b, d)
         == Filter(NotRemoved(d.removed), a) + Filter(NotRemoved(d.removed), b) + d.added
  {
    FilterConcat(NotRemoved(d.removed), a, b);
  }

  lemma {:induction false} KeptLength(s: seq<StateAndRef>, removed: set<StateRef>)
    ensures |Filter(NotRemoved(removed), s)| == |s| - Count(IsRemoved(removed), s)
  {
    if s != [] {
      KeptLength(s[1..], removed);
    }
  }

  /** New length = old length - number of old entries removed + number added. */
  lemma FoldStepLength(s: seq<StateAndRef>, d: Diff)
    ensures |FoldStep(s, d)| == |s| - Count(IsRemoved(d.removed), s) + |d.added|
  {
    KeptLength(s, d.removed);
  }

  /** An empty diff leaves the list as it was. */
  lemma FoldStepEmptyDiff(s: seq<StateAndRef>)
    ensures FoldStep(s, Diff([], {})) == s
  {
    FilterKeepsAll(NotRemoved({}), s);
  }

  /** A cash-only list stays cash-only when a cash diff is folded into it. */
  lemma FoldStepKeepsCash(s: seq<StateAndRef>, d: Diff)
    requires AllCash(s)
    ensures AllCash(FoldStep(s, CashStatesDiff(d)))
  {
    var c := CashStatesDiff(d);
    forall x | x in FoldStep(s, c) ensures IsCash(x) {
      FoldStepMembership(s, c, x);
    }
  }

  lemma {:induction false} FoldAllKeepsCash(s: seq<StateAndRef>, us: seq<VaultUpdate>)
    requires AllCash(s)
    ensures AllCash(FoldAll(s, CashDiffs(us)))
    decreases us
  {
    if us != [] {
      FoldStepKeepsCash(s, ContractStatesDiff(us[0]));
      assert CashDiffs(us)[1..] == CashDiffs(us[1..]);
      FoldAllKeepsCash(FoldStep(s, CashStatesDiff(ContractStatesDiff(us[0]))), us[1..]);
    }
  }

  /** `cashStates` only ever holds cash entries, although the removed references are untyped. */
  lemma CashStatesOnlyCash(us: seq<VaultUpdate>)
    ensures AllCash(CashStatesAfter(us))
  {
    FoldAllKeepsCash([], us);
  }

  /** Folding one more update extends the fold by one step. */
  lemma {:induction false} FoldAllSnoc(s: seq<StateAndRef>, ds: seq<Diff>, d: Diff)
    ensures FoldAll(s, ds + [d]) == FoldStep(FoldAll(s, ds), d)
    decreases ds
  {
    if ds == [] {
      assert ds + [d] == [d];
      assert [d][1..] == [];
    } else {
      assert (ds + [d])[1..] == ds[1..] + [d];
      FoldAllSnoc(FoldStep(s, ds[0]), ds[1..], d);
    }
  }

  /** After a non-empty stream of diffs the list ends with what the last diff added, in order. */
  lemma FoldAllEndsWithLastAdded(s: seq<StateAndRef>, ds: seq<Diff>)
    requires ds != []
    ensures var last := ds[|ds| - 1].added;
      |FoldAll(s, ds)| >= |last| && FoldAll(s, ds)[|FoldAll(s, ds)| - |last|..] == last
  {
    var n := |ds| - 1;
    assert ds[..n] + [ds[n]] == ds;
    FoldAllSnoc(s, ds[..n], ds[n]);
  }

  lemma CashStatesAfterSnoc(us: seq<VaultUpdate>, u: VaultUpdate)
    ensures CashStatesAfter(us + [u])
         == FoldStep(CashStatesAfter(us), CashStatesDiff(ContractStatesDiff(u)))
  {
    var d := CashStatesDiff(ContractStatesDiff(u));
    assert CashDiffs(us + [u]) == CashDiffs(us) + [d] by {
      forall i | 0 <= i < |us| + 1 ensures CashDiffs(us + [u])[i] == (CashDiffs(us) + [d])[i] {
        if i < |us| {
          assert (us + [u])[i] == us[i];
        }
      }
    }
    FoldAllSnoc([], CashDiffs(us), CashStatesDiff(ContractStatesDiff(u)));
  }

  /**
   * Narrowing to cash after a fold step gives what folding the narrowed diff into the narrowed
   * list gives: the incremental cash view agrees with recomputing it from the full list.
   */
  lemma FoldStepCommutesWithCashFilter(s: seq<StateAndRef>, d: Diff)
    ensures Filter(IsCash, FoldStep(s, d)) == FoldStep(Filter(IsCash, s), CashStatesDiff(d))
  {
    var p := NotRemoved(d.removed);
    FilterConcat(IsCash, Filter(p, s), d.added);
    FilterCommutes(IsCash, p, s);
  }

  lemma {:induction false} FoldAllCommutesWithCashFilter(s: seq<StateAndRef>, ds: seq<Diff>)
    ensures Filter(IsCash, FoldAll(s, ds)) == FoldAll(Filter(IsCash, s), CashStatesDiffs(ds))
    decreases ds
  {
    if ds != [] {
      FoldStepCommutesWithCashFilter(s, ds[0]);
      assert CashStatesDiffs(ds)[1..] == CashStatesDiffs(ds[1..]);
      FoldAllCommutesWithCashFilter(FoldStep(s, ds[0]), ds[1..]);
    }
  }

  /** The folded cash list equals the cash entries of the list folded from the unfiltered diffs. */
  lemma CashStatesAfterIsFilteredFold(us: seq<VaultUpdate>)
    ensures CashStatesAfter(us)
         == Filter(IsCash, FoldAll([], seq(|us|, i requires 0 <= i < |us| => ContractStatesDiff(us[i]))))
  {
    var ds := seq(|us|, i requires 0 <= i < |us| => ContractStatesDiff(us[i]));
    FoldAllCommutesWithCashFilter([], ds);
    assert CashStatesDiffs(ds) == CashDiffs(us) by {
      forall i | 0 <= i < |us| ensures CashStatesDiffs(ds)[i] == CashDiffs(us)[i] {
        assert ds[i] == ContractStatesDiff(us[i]);
      }
    }
  }

  /**
   * `ContractStateModel`: holds `cashStates`, the list folded from every vault update received so
   * far; `updates` is the (ghost) history of those updates.
   */
  class ContractStateModel {
    var cashStates: seq<StateAndRef>
    ghost var updates: seq<VaultUpdate>

    ghost predicate Valid()
      reads this
    {
      && AllCash(cashStates)
      && cashStates == CashStatesAfter(updates)
    }

    constructor ()
      ensures Valid() && cashStates == [] && updates == []
    {
      cashStates := [];
      updates := [];
    }

    /**
     * Receives one vault update: its cash diff is folded into `cashStates` in place, first
     * `removeIf { it.ref in removed }`, then `addAll(added)`.
     */
    method OnVaultUpdate(u: VaultUpdate)
      requires Valid()
      modifies this
      ensures Valid()
      ensures updates == old(updates) + [u]
      ensures cashStates == FoldStep(old(cashStates), CashStatesDiff(ContractStatesDiff(u)))
    {
      var d := CashStatesDiff(ContractStatesDiff(u));
      var list := cashStates;
      var kept: seq<StateAndRef> := [];
      var i := 0;
      while i < |list|
        invariant 0 <= i <= |list|
        invariant kept == Filter(NotRemoved(d.removed), list[..i])
        invariant unchanged(this)
      {
        assert list[..i + 1] == list[..i] + [list[i]];
        FilterSnoc(NotRemoved(d.removed), list[..i], list[i]);
        if list[i].ref !in d.removed {
          kept := kept + [list[i]];
        }
        i := i + 1;
      }
      assert list[..i] == list;
      FoldStepKeepsCash(list, ContractStatesDiff(u));
      CashStatesAfterSnoc(updates, u);
      cashStates := kept;
      cashStates := cashStates + d.added;
      updates := updates + [u];
    }
  }
}
