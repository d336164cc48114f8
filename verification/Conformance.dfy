/** Token transfers that a receipt must show for a plan, as the cash-flow image of its actions. */
module Conformance {
  import opened Checked
  import opened Simulation
  import opened SimulationRuns

  datatype AdapterKind = DirectMarket | MorphoVaultV1Idle
  datatype ActionKind = Allocate | Deallocate

  datatype ExpectedAction = ExpectedAction(
    adapterKind: AdapterKind,
    kind: ActionKind,
    adapter: Address,
    intermediary: Option<Address>,
    requested: U256)

  datatype Transfer = Transfer(from: Address, to: Address, value: U256)

  /** The hops of one action; the wrapped vault adds an intermediary, which must be recorded. */
  function Hops(a: ExpectedAction, vault: Address, morpho: Address): Option<seq<Transfer>> {
    match (a.adapterKind, a.kind)
    case (DirectMarket, Allocate) =>
      Some([Transfer(vault, a.adapter, a.requested), Transfer(a.adapter, morpho, a.requested)])
    case (DirectMarket, Deallocate) =>
      Some([Transfer(morpho, a.adapter, a.requested), Transfer(a.adapter, vault, a.requested)])
    case (MorphoVaultV1Idle, Allocate) =>
      if a.intermediary.None? then None
      else Some([Transfer(vault, a.adapter, a.requested), Transfer(a.adapter, a.intermediary.value, a.requested),
                 Transfer(a.intermediary.value, morpho, a.requested)])
    case (MorphoVaultV1Idle, Deallocate) =>
      if a.intermediary.None? then None
      else Some([Transfer(morpho, a.intermediary.value, a.requested), Transfer(a.intermediary.value, a.adapter, a.requested),
                 Transfer(a.adapter, vault, a.requested)])
  }

  /** All hops in action order, or none when some action record is incomplete. */
  function ExpectedTransfers(actions: seq<ExpectedAction>, vault: Address, morpho: Address): Option<seq<Transfer>> {
    if actions == [] then Some([])
    else
      var first, rest := Hops(actions[0], vault, morpho), ExpectedTransfers(actions[1..], vault, morpho);
      if first.None? || rest.None? then None else Some(first.value + rest.value)
  }

  /** Net token flow into a party. */
  function Net(transfers: seq<Transfer>, party: Address): int {
    if transfers == [] then 0 else Flow(transfers[0], party) + Net(transfers[1..], party)
  }

  function Flow(t: Transfer, party: Address): int {
    (if t.to == party then t.value else 0) - (if t.from == party then t.value else 0)
  }

  lemma {:induction false} NetConcat(a: seq<Transfer>, b: seq<Transfer>, party: Address)
    ensures Net(a + b, party) == Net(a, party) + Net(b, party)
  {
    if a == [] {
      assert a + b == b;
    } else {
      assert (a + b)[1..] == a[1..] + b;
      NetConcat(a[1..], b, party);
    }
  }

  /** Total assets an expected list returns to the vault. */
  function Returned(actions: seq<ExpectedAction>): int {
    if actions == [] then 0
    else (if actions[0].kind.Deallocate? then actions[0].requested else 0 - actions[0].requested) + Returned(actions[1..])
  }

  /** Vault and Morpho differ from each other and from every adapter and intermediary. */
  predicate DistinctParties(actions: seq<ExpectedAction>, vault: Address, morpho: Address) {
    && vault != morpho
    && forall a | a in actions ::
         && a.adapter != vault && a.adapter != morpho
         && (a.intermediary.Some? ==> a.intermediary.value != vault && a.intermediary.value != morpho)
  }

  /** The transfers net the vault by what the actions return, Morpho by the opposite, and every other
      party by nothing. */
  lemma {:induction false} TransfersBalance(actions: seq<ExpectedAction>, vault: Address, morpho: Address, party: Address)
    requires DistinctParties(actions, vault, morpho) && ExpectedTransfers(actions, vault, morpho).Some?
    ensures Net(ExpectedTransfers(actions, vault, morpho).value, party) ==
            if party == vault then Returned(actions) else if party == morpho then -Returned(actions) else 0
    decreases |actions|
  {
    if actions != [] {
      var first := Hops(actions[0], vault, morpho).value;
      TransfersBalance(actions[1..], vault, morpho, party);
      NetConcat(first, ExpectedTransfers(actions[1..], vault, morpho).value, party);
      HopsBalance(actions[0], vault, morpho, party);
    }
  }

  lemma HopsBalance(a: ExpectedAction, vault: Address, morpho: Address, party: Address)
    requires vault != morpho && a.adapter != vault && a.adapter != morpho
    requires a.intermediary.Some? ==> a.intermediary.value != vault && a.intermediary.value != morpho
    requires Hops(a, vault, morpho).Some?
    ensures Net(Hops(a, vault, morpho).value, party) ==
            if party == vault then Returned([a]) else if party == morpho then -Returned([a]) else 0
  {
    var hops := Hops(a, vault, morpho).value;
    assert hops == [hops[0], hops[1]] + hops[2..];
    NetConcat([hops[0], hops[1]], hops[2..], party);
    assert [hops[0], hops[1]][1..] == [hops[1]] && [hops[1]][1..] == [];
    assert Net([hops[0], hops[1]], party) == Flow(hops[0], party) + Flow(hops[1], party);
    if |hops| == 3 {
      assert hops[2..] == [hops[2]] && [hops[2]][1..] == [];
      assert Net(hops[2..], party) == Flow(hops[2], party);
    }
  }

  /** The record persisted for a plan action, as final preflight derives it. */
  function RecordOf(env: Env, wrappedVault: Address, a: Action): ExpectedAction {
    ExpectedAction(
      if IsLiquidityKey(env, a.position) then MorphoVaultV1Idle else DirectMarket,
      if a.Deallocation? then Deallocate else Allocate,
      a.adapter,
      if IsLiquidityKey(env, a.position) then Some(wrappedVault) else None,
      a.requested)
  }

  function RecordsOf(env: Env, wrappedVault: Address, actions: seq<Action>): seq<ExpectedAction> {
    if actions == [] then [] else [RecordOf(env, wrappedVault, actions[0])] + RecordsOf(env, wrappedVault, actions[1..])
  }

  lemma {:induction false} RecordsReturn(env: Env, wrappedVault: Address, actions: seq<Action>, vault: Address, morpho: Address)
    ensures Returned(RecordsOf(env, wrappedVault, actions)) == NetInflow(actions)
    ensures ExpectedTransfers(RecordsOf(env, wrappedVault, actions), vault, morpho).Some?
    decreases |actions|
  {
    if actions != [] {
      var records := RecordsOf(env, wrappedVault, actions);
      assert records[1..] == RecordsOf(env, wrappedVault, actions[1..]);
      RecordsReturn(env, wrappedVault, actions[1..], vault, morpho);
    }
  }

  /** The transfers expected for an accepted run net the vault by exactly its simulated idle change, Morpho
      by the opposite, and leave nothing with any adapter or intermediary. */
  lemma TransfersMatchSimulation(env: Env, s: State, n: State, actions: seq<Action>, allocating: bool, touched: set<PositionKey>,
                                 wrappedVault: Address, morpho: Address, party: Address)
    requires OneToken(env) && s.locked <= s.idle && env.asset in s.shared
    requires Simulate(env, s, actions, allocating, touched) == Ok(n)
    requires DistinctParties(RecordsOf(env, wrappedVault, actions), env.vault, morpho)
    ensures env.asset in n.shared
    ensures var transfers := ExpectedTransfers(RecordsOf(env, wrappedVault, actions), env.vault, morpho);
            && transfers.Some?
            && (party == env.vault ==> n.idle == s.idle + Net(transfers.value, party))
            && (party == morpho ==> n.shared[env.asset] == s.shared[env.asset] + Net(transfers.value, party))
            && (party != env.vault && party != morpho ==> Net(transfers.value, party) == 0)
  {
    hide Simulate, ExpectedTransfers, RecordsOf, Net, Returned;
    RunConservesCash(env, s, actions, allocating, touched);
    RecordsReturn(env, wrappedVault, actions, env.vault, morpho);
    TransfersBalance(RecordsOf(env, wrappedVault, actions), env.vault, morpho, party);
  }
}
