/** The guarantees of a whole simulated plan, from the snapshot and projection it starts from. */
module PlanGuarantees {
  import opened Checked
  import opened Market
  import opened Simulation
  import opened Ordering
  import opened SimulationRuns
  import V1 = VaultV1Adapter

  /** Iteration visits every snapshot position once, and a position's three caps differ. */
  predicate ProperInputs(env: Env, inputs: Inputs) {
    && AllDifferent(env.positionKeys)
    && (forall k | k in env.positionKeys && k in inputs.positions :: AllDifferent(inputs.positions[k].caps))
  }

  /** Projected valuations are the floor value of each position's shares at its projected market. */
  predicate ProjectedValuations(env: Env, inputs: Inputs) {
    && (forall k | k in inputs.positions && k in inputs.expectedAssets && inputs.positions[k].market in inputs.projectedMarkets ::
          var m := inputs.projectedMarkets[inputs.positions[k].market];
          ExpectedAssets(inputs.positions[k].shares, m) == Ok(inputs.expectedAssets[k]))
    && (inputs.liquidity.Some? ==> inputs.liquidity.value.realAssets == V1.RedeemValue(inputs.liquidity.value))
  }

  lemma {:induction false} StartPositionsEffect(env: Env, inputs: Inputs, keys: seq<PositionKey>)
    requires StartPositions(env, inputs, keys).Ok?
    ensures var r := StartPositions(env, inputs, keys).value;
            && (forall k :: k in r <==> k in keys)
            && (forall k | k in r ::
                  && k in inputs.positions && k in inputs.expectedAssets
                  && r[k].market == inputs.positions[k].market && r[k].shares == inputs.positions[k].shares
                  && r[k].caps == inputs.positions[k].caps && r[k].recorded == inputs.positions[k].recorded
                  && r[k].expected == inputs.expectedAssets[k])
    decreases |keys|
  {
    if keys != [] {
      StartPositionsEffect(env, inputs, keys[1..]);
      assert keys == [keys[0]] + keys[1..];
    }
  }

  lemma {:induction false} RegisterAllEffect(env: Env, keys: seq<MarketId>, shared: map<Token, U256>)
    requires RegisterAll(env, keys, shared).Ok?
    ensures var r := RegisterAll(env, keys, shared).value;
            && (forall t | t in shared :: t in r && r[t] == shared[t])
            && (forall k | k in keys :: k in env.markets && env.markets[k].loanToken in r
                                         && r[env.markets[k].loanToken] == env.markets[k].tokenBalance)
    decreases |keys|
  {
    if keys != [] {
      var info := env.markets[keys[0]];
      RegisterAllEffect(env, keys[1..], Register(shared, info.loanToken, info.tokenBalance).value);
      assert keys == [keys[0]] + keys[1..];
    }
  }

  /** The plan only moves cash between the vault and Morpho: their sum is the snapshot's, and the locked
      idle assets stay covered. */
  lemma PlanConservesCash(env: Env, inputs: Inputs, actions: seq<Action>, market: MarketId)
    requires OneToken(env) && market in inputs.marketKeys && SimulateActions(env, inputs, actions).Ok?
    ensures market in env.markets
    ensures var n := SimulateActions(env, inputs, actions).value;
            && env.asset in n.shared
            && n.idle == env.parent.idleAssets + NetInflow(actions)
            && n.idle + n.shared[env.asset] == env.parent.idleAssets + env.markets[market].tokenBalance
            && Ok(n.locked) == SumLocks(inputs.locks, 0) && n.locked <= n.idle
  {
    hide Simulate, StartPositions;
    var s := FromProjection(env, inputs).value;
    RegisterAllEffect(env, inputs.marketKeys, map[]);
    RunConservesCash(env, s, actions, false, {});
  }

  /** Idle assets move by the signed sum of the requests, whatever markets are registered. */
  lemma PlanMovesIdle(env: Env, inputs: Inputs, actions: seq<Action>)
    requires OneToken(env) && SimulateActions(env, inputs, actions).Ok?
    ensures SimulateActions(env, inputs, actions).value.idle == env.parent.idleAssets + NetInflow(actions)
  {
    hide Simulate, StartPositions, RegisterAll;
    RunMovesIdle(env, FromProjection(env, inputs).value, actions, false, {});
  }

  /** Every direct cap's final ledger value is its recorded allocation plus the change of the positions it
      covers, and every cap allocated into is admitted against one total. */
  lemma PlanKeepsCaps(env: Env, inputs: Inputs, actions: seq<Action>, c: CapRef)
    requires ProperInputs(env, inputs) && SimulateActions(env, inputs, actions).Ok?
    requires c in env.caps && (inputs.liquidity.Some? ==> c != LiquidityCap(env, inputs.liquidity.value))
    ensures var s, n := FromProjection(env, inputs).value, SimulateActions(env, inputs, actions).value;
            && c in n.ledger
            && (forall k | k in env.positionKeys :: k in s.positions && k in n.positions)
            && n.ledger[c] - env.caps[c].recordedAllocation
               == Recorded(n.positions, env.positionKeys, c) - Recorded(s.positions, env.positionKeys, c)
            && AllAdmitted(env, n, AllCapsAllocated(env, s, actions))
  {
    hide Simulate, AllAdmitted;
    var s := FromProjection(env, inputs).value;
    StartPositionsEffect(env, inputs, env.positionKeys);
    assert WellFormed(env, s);
    RunKeepsAttribution(env, s, actions, false, {}, c);
    assert AllAdmitted(env, s, {}) by { NothingToAdmit(env, s); }
    RunAdmits(env, s, actions, false, {}, {});
    assert {} + AllCapsAllocated(env, s, actions) == AllCapsAllocated(env, s, actions);
  }

  lemma NothingToAdmit(env: Env, s: State)
    ensures AllAdmitted(env, s, {})
  {
  }

  /** A plan over pools priced at or below one loses at most one asset unit per action. */
  lemma PlanLoss(env: Env, inputs: Inputs, actions: seq<Action>)
    requires ProjectedValuations(env, inputs) && SimulateActions(env, inputs, actions).Ok?
    requires forall a | a in actions :: Cheap(env, FromProjection(env, inputs).value, a.position)
    ensures SimulateActions(env, inputs, actions).value.loss <= |actions|
  {
    hide Simulate, ExpectedAssets, Cheap, V1.RedeemValue;
    var s := FromProjection(env, inputs).value;
    StartPositionsEffect(env, inputs, env.positionKeys);
    forall a | a in actions ensures Valued(env, s, a.position) {
      StartIsValued(env, inputs, s, a.position);
    }
    RunLoss(env, s, actions, false, {});
  }

  lemma StartIsValued(env: Env, inputs: Inputs, s: State, key: PositionKey)
    requires ProjectedValuations(env, inputs) && FromProjection(env, inputs) == Ok(s)
    ensures Valued(env, s, key)
  {
    hide V1.RedeemValue, ExpectedAssets;
    StartPositionsEffect(env, inputs, env.positionKeys);
    if key in s.positions && s.positions[key].market in s.markets {
      ExpectedIsFloor(s.positions[key].shares, s.markets[s.positions[key].market]);
    }
  }
}
