/**
 The read-only API's artifact cache.

 Every operation holds the one lock for its whole duration, so an interleaving of writers is a sequence of
 operations.  Writers may be delayed: they present a token or a publication captured any time before.
 */
module ApiStore {
  import opened Checked

  type Vault = nat
  type Hash = nat

  datatype Block = Block(number: U64, hash: Hash, timestamp: U64)
  datatype Context = Context(chain: U64, block: Block, configRevision: Hash, topologyRevision: Hash)
  datatype Snapshot = Snapshot(vault: Vault, context: Context, hash: Hash)
  datatype Rates = Rates(vault: Vault, snapshotHash: Hash, block: Block)
  datatype Plan = Plan(vault: Vault, snapshot: Context, configRevision: Hash, topologyRevision: Hash, generation: U64, id: Hash)

  datatype Artifacts = Artifacts(
    chain: Option<U64>,
    epoch: U64,
    snapshot: Option<Snapshot>,
    rates: Option<Rates>,
    plan: Option<Plan>,
    episode: Option<Hash>)

  const EMPTY: Artifacts := Artifacts(None, 0, None, None, None, None)

  /** Ownership token of one vault's canonical branch. */
  datatype Token = Token(chain: U64, vault: Vault, generation: U64)

  datatype Publication = Publication(snapshot: Snapshot, rates: Rates, block: Block)

  type Store = map<Vault, Artifacts>

  // ---------------------------------------------------------------- publications

  predicate Projected(snapshot: Block, block: Block) {
    (block.number > snapshot.number || block == snapshot) && block.timestamp >= snapshot.timestamp
  }

  /** The only way to make a publication. */
  function FromValidatedProjection(snapshot: Snapshot, rates: Rates, block: Block): Option<Publication> {
    if Projected(snapshot.context.block, block) && rates.block == block then Some(Publication(snapshot, rates, block)) else None
  }

  /** A publication made that way. */
  predicate Made(p: Publication) { FromValidatedProjection(p.snapshot, p.rates, p.block) == Some(p) }

  // ---------------------------------------------------------------- operations

  datatype Op =
    | StateEpoch(chain: U64, vault: Vault)
    | RewindVault(chain: U64, vault: Vault)
    | RecordState(token: Token, publication: Publication)
    | RecordPlan(plan: Plan)
    | ClearPlanIf(vault: Vault, id: Hash)
    | ClearPlanThrough(vault: Vault, number: U64, generation: U64)
    | RecordEpisode(vault: Vault, episode: Hash)

  datatype Answer = Issued(token: Option<Token>) | Flag(accepted: bool)

  datatype Step = Step(next: Store, answer: Answer)

  function Get(s: Store, v: Vault): Artifacts { if v in s then s[v] else EMPTY }

  predicate ForeignChain(a: Artifacts, chain: U64) { a.chain.Some? && a.chain.value != chain }

  /** A newer block, or another block at the same height, is already there. */
  predicate Conflicts(current: Block, block: Block) {
    current.number > block.number || (current.number == block.number && current.hash != block.hash)
  }

  predicate Matches(plan: Plan, context: Context) {
    plan.snapshot == context && plan.configRevision == context.configRevision && plan.topologyRevision == context.topologyRevision
  }

  predicate Bound(token: Token, p: Publication) {
    && p.snapshot.context.chain == token.chain && p.snapshot.vault == token.vault
    && p.rates.vault == p.snapshot.vault && p.rates.snapshotHash == p.snapshot.hash && p.rates.block == p.block
  }

  predicate Publishable(a: Artifacts, token: Token, p: Publication) {
    && a.chain == Some(token.chain) && a.epoch == token.generation
    && (a.snapshot.Some? ==> !Conflicts(a.snapshot.value.context.block, p.snapshot.context.block))
    && (a.rates.Some? ==> !Conflicts(a.rates.value.block, p.block))
  }

  function Published(a: Artifacts, p: Publication): Artifacts {
    var plan := if a.plan.Some? && !Matches(a.plan.value, p.snapshot.context) then None else a.plan;
    a.(plan := plan, snapshot := Some(p.snapshot), rates := Some(p.rates))
  }

  predicate PlanIsCurrent(a: Artifacts, plan: Plan) {
    a.plan.Some? ==>
      var current := a.plan.value;
      || current.snapshot.block.number < plan.snapshot.block.number
      || (current.snapshot.block.number == plan.snapshot.block.number &&
          (current.generation < plan.generation || (current.generation == plan.generation && current.id == plan.id)))
  }

  function Apply(s: Store, op: Op): Step {
    match op
    case StateEpoch(chain, v) =>
      var a := Get(s, v);
      if ForeignChain(a, chain) then Step(s[v := a], Issued(None))
      else Step(s[v := a.(chain := Some(chain))], Issued(Some(Token(chain, v, a.epoch))))
    case RewindVault(chain, v) =>
      var a := Get(s, v);
      if ForeignChain(a, chain) || a.epoch == MAX_U64 then Step(s[v := a], Issued(None))
      else Step(s[v := Artifacts(Some(chain), a.epoch + 1, None, None, None, None)], Issued(Some(Token(chain, v, a.epoch + 1))))
    case RecordState(token, p) =>
      var v := p.snapshot.vault;
      if !Bound(token, p) then Step(s, Flag(false))
      else if !Publishable(Get(s, v), token, p) then Step(s[v := Get(s, v)], Flag(false))
      else Step(s[v := Published(Get(s, v), p)], Flag(true))
    case RecordPlan(plan) =>
      var a := Get(s, plan.vault);
      if a.snapshot.None? || !Matches(plan, a.snapshot.value.context) || !PlanIsCurrent(a, plan)
      then Step(s[plan.vault := a], Flag(false))
      else Step(s[plan.vault := a.(plan := Some(plan))], Flag(true))
    case ClearPlanIf(v, id) =>
      if v in s && s[v].plan.Some? && s[v].plan.value.id == id then Step(s[v := s[v].(plan := None)], Flag(true))
      else Step(s, Flag(false))
    case ClearPlanThrough(v, number, generation) =>
      if v in s && s[v].plan.Some? && s[v].plan.value.snapshot.block.number <= number && s[v].plan.value.generation <= generation
      then Step(s[v := s[v].(plan := None)], Flag(true))
      else Step(s, Flag(false))
    case RecordEpisode(v, episode) => Step(s[v := Get(s, v).(episode := Some(episode))], Flag(true))
  }

  /** `validated_state`. */
  function ValidatedState(s: Store, v: Vault): Option<Publication> {
    if v !in s || s[v].chain.None? || s[v].snapshot.None? || s[v].rates.None? then None
    else
      var snapshot, rates := s[v].snapshot.value, s[v].rates.value;
      if snapshot.context.chain != s[v].chain.value || snapshot.vault != v || rates.vault != v || rates.snapshotHash != snapshot.hash
      then None
      else FromValidatedProjection(snapshot, rates, rates.block)
  }

  // ---------------------------------------------------------------- what every operation keeps

  /** Snapshot and rates come together and belong together; a plan belongs to the snapshot. */
  predicate Coherent(v: Vault, a: Artifacts) {
    && (a.snapshot.Some? <==> a.rates.Some?)
    && (a.snapshot.Some? ==>
          && a.chain == Some(a.snapshot.value.context.chain)
          && a.snapshot.value.vault == v && a.rates.value.vault == v
          && a.rates.value.snapshotHash == a.snapshot.value.hash
          && Projected(a.snapshot.value.context.block, a.rates.value.block))
    && (a.plan.Some? ==> a.snapshot.Some? && Matches(a.plan.value, a.snapshot.value.context) && a.plan.value.vault == v)
  }

  predicate Valid(s: Store) { forall v | v in s :: Coherent(v, s[v]) }

  /** Operations carry only publications that could be made. */
  predicate Proper(op: Op) { op.RecordState? ==> Made(op.publication) }

  lemma StepKeepsValid(s: Store, op: Op)
    requires Valid(s) && Proper(op)
    ensures Valid(Apply(s, op).next)
  {
  }

  function Run(s: Store, ops: seq<Op>): Store
    decreases |ops|
  {
    if ops == [] then s else Run(Apply(s, ops[0]).next, ops[1..])
  }

  /** Over every interleaving, snapshot, rates and plan of every vault belong together. */
  lemma {:induction false} RunKeepsValid(s: Store, ops: seq<Op>)
    requires Valid(s) && forall op | op in ops :: Proper(op)
    ensures Valid(Run(s, ops))
    decreases |ops|
  {
    hide Valid, Apply;
    if ops != [] {
      StepKeepsValid(s, ops[0]);
      RunKeepsValid(Apply(s, ops[0]).next, ops[1..]);
    }
  }

  // ---------------------------------------------------------------- epochs and tokens

  /** A rewind of the vault that took effect. */
  predicate Rewinds(s: Store, op: Op, v: Vault) {
    op.RewindVault? && op.vault == v && Apply(s, op).answer.token.Some?
  }

  predicate Publishes(s: Store, op: Op, v: Vault) {
    op.RecordState? && op.publication.snapshot.vault == v && Apply(s, op).answer == Flag(true)
  }

  lemma StepEpoch(s: Store, op: Op, v: Vault)
    ensures Get(Apply(s, op).next, v).epoch == Get(s, v).epoch + if Rewinds(s, op, v) then 1 else 0
  {
  }

  predicate RewindsIn(s: Store, ops: seq<Op>, v: Vault)
    decreases |ops|
  {
    ops != [] && (Rewinds(s, ops[0], v) || RewindsIn(Apply(s, ops[0]).next, ops[1..], v))
  }

  lemma {:induction false} RunEpoch(s: Store, ops: seq<Op>, v: Vault)
    ensures Get(Run(s, ops), v).epoch >= Get(s, v).epoch
    ensures RewindsIn(s, ops, v) <==> Get(Run(s, ops), v).epoch > Get(s, v).epoch
    decreases |ops|
  {
    hide Apply, Rewinds;
    if ops != [] {
      StepEpoch(s, ops[0], v);
      RunEpoch(Apply(s, ops[0]).next, ops[1..], v);
    }
  }

  /** A token names the epoch at which it was issued. */
  lemma TokenNamesEpoch(s: Store, op: Op)
    requires Apply(s, op).answer.Issued? && Apply(s, op).answer.token.Some?
    ensures var t := Apply(s, op).answer.token.value; t.generation == Get(Apply(s, op).next, t.vault).epoch
  {
  }

  /** Once its vault has been rewound, a token issued before is never accepted again. */
  lemma StaleTokenRefused(s: Store, issue: Op, ops: seq<Op>, publication: Publication)
    requires Apply(s, issue).answer.Issued? && Apply(s, issue).answer.token.Some?
    requires RewindsIn(Apply(s, issue).next, ops, Apply(s, issue).answer.token.value.vault)
    ensures var t := Apply(s, issue).answer.token.value;
            Apply(Run(Apply(s, issue).next, ops), RecordState(t, publication)).answer == Flag(false)
  {
    hide RewindsIn, Run;
    TokenNamesEpoch(s, issue);
    RunEpoch(Apply(s, issue).next, ops, Apply(s, issue).answer.token.value.vault);
  }

  // ---------------------------------------------------------------- monotone heights

  /** Neither height regresses and an equal height keeps its hash. */
  predicate Advances(a: Block, b: Block) { a.number < b.number || (a.number == b.number && a.hash == b.hash) }

  ghost predicate HeightsAdvance(a: Artifacts, b: Artifacts) {
    a.snapshot.Some? && a.rates.Some? ==>
      && b.snapshot.Some? && Advances(a.snapshot.value.context.block, b.snapshot.value.context.block)
      && b.rates.Some? && Advances(a.rates.value.block, b.rates.value.block)
  }

  lemma StepAdvances(s: Store, op: Op, v: Vault)
    requires Valid(s) && Proper(op) && !Rewinds(s, op, v)
    ensures HeightsAdvance(Get(s, v), Get(Apply(s, op).next, v))
  {
  }

  /** Within one epoch published heights never regress and never change hash. */
  lemma {:induction false} RunAdvances(s: Store, ops: seq<Op>, v: Vault)
    requires Valid(s) && (forall op | op in ops :: Proper(op)) && !RewindsIn(s, ops, v)
    ensures HeightsAdvance(Get(s, v), Get(Run(s, ops), v))
    decreases |ops|
  {
    if ops != [] {
      StepAdvances(s, ops[0], v);
      StepKeepsValid(s, ops[0]);
      hide Apply, Rewinds, Valid;
      RunAdvances(Apply(s, ops[0]).next, ops[1..], v);
    }
  }

  // ---------------------------------------------------------------- validated state

  /** Whether a snapshot of the vault was published after its last rewind. */
  predicate PublishedSinceRewind(s: Store, ops: seq<Op>, v: Vault, published: bool)
    decreases |ops|
  {
    if ops == [] then published
    else PublishedSinceRewind(Apply(s, ops[0]).next, ops[1..], v,
                              if Rewinds(s, ops[0], v) then false else if Publishes(s, ops[0], v) then true else published)
  }

  lemma StepPublishes(s: Store, op: Op, v: Vault)
    ensures Get(Apply(s, op).next, v).snapshot.Some? ==
            if Rewinds(s, op, v) then false else if Publishes(s, op, v) then true else Get(s, v).snapshot.Some?
  {
  }

  lemma {:induction false} SnapshotIffPublished(s: Store, ops: seq<Op>, v: Vault, published: bool)
    requires Get(s, v).snapshot.Some? == published
    ensures Get(Run(s, ops), v).snapshot.Some? <==> PublishedSinceRewind(s, ops, v, published)
    decreases |ops|
  {
    hide Apply, Rewinds, Publishes, Get;
    if ops != [] {
      StepPublishes(s, ops[0], v);
      SnapshotIffPublished(Apply(s, ops[0]).next, ops[1..], v,
                           if Rewinds(s, ops[0], v) then false else if Publishes(s, ops[0], v) then true else published);
    }
  }

  /** From an empty store, a validated state exists exactly when a snapshot was published since the last rewind,
      and it is the cached pair. */
  lemma ValidatedIffPublished(ops: seq<Op>, v: Vault)
    requires forall op | op in ops :: Proper(op)
    ensures var s := Run(map[], ops);
            && (ValidatedState(s, v).Some? <==> PublishedSinceRewind(map[], ops, v, false))
            && (ValidatedState(s, v).Some? ==>
                  ValidatedState(s, v).value.snapshot == s[v].snapshot.value && ValidatedState(s, v).value.rates == s[v].rates.value)
  {
    hide Run, PublishedSinceRewind;
    RunKeepsValid(map[], ops);
    SnapshotIffPublished(map[], ops, v, false);
  }

  // ---------------------------------------------------------------- plans

  predicate PlanAdvances(a: Plan, b: Plan) {
    || a.snapshot.block.number < b.snapshot.block.number
    || (a.snapshot.block.number == b.snapshot.block.number && a.generation <= b.generation)
  }

  /** A cached plan is only ever replaced by one of a later snapshot or generation, or removed. */
  lemma StepAdvancesPlan(s: Store, op: Op, v: Vault)
    requires Get(s, v).plan.Some? && Get(Apply(s, op).next, v).plan.Some?
    ensures PlanAdvances(Get(s, v).plan.value, Get(Apply(s, op).next, v).plan.value)
  {
  }

  predicate Within(plan: Plan, number: U64, generation: U64) { plan.snapshot.block.number <= number && plan.generation <= generation }

  /** Clearing removes the named plan, or every plan up to a generation, and nothing else. */
  lemma ClearsExactly(s: Store, v: Vault, id: Hash, number: U64, generation: U64)
    ensures var a, b := Get(s, v), Get(Apply(s, ClearPlanIf(v, id)).next, v);
            && b == a.(plan := b.plan) && (b.plan.Some? ==> b.plan.value.id != id)
            && (b.plan != a.plan ==> a.plan.Some? && a.plan.value.id == id && b.plan.None?)
    ensures var a, b := Get(s, v), Get(Apply(s, ClearPlanThrough(v, number, generation)).next, v);
            && b == a.(plan := b.plan) && (b.plan.Some? ==> !Within(b.plan.value, number, generation))
            && (b.plan != a.plan ==> a.plan.Some? && Within(a.plan.value, number, generation) && b.plan.None?)
  {
  }

  /** An operation touches only the vault it names. */
  function VaultOf(op: Op): Vault {
    match op
    case RecordState(_, p) => p.snapshot.vault
    case RecordPlan(plan) => plan.vault
    case _ => op.vault
  }

  lemma StepIsLocal(s: Store, op: Op, v: Vault)
    requires v != VaultOf(op)
    ensures Get(Apply(s, op).next, v) == Get(s, v) && (v in Apply(s, op).next <==> v in s)
  {
  }

  // ---------------------------------------------------------------- the mutable store

  class ApiDataStore {
    var vaults: Store

    constructor ()
      ensures vaults == map[]
    {
      vaults := map[];
    }

    /** `entry(vault).or_default()`. */
    method Entry(v: Vault) returns (a: Artifacts)
      modifies this
      ensures a == Get(old(vaults), v) && vaults == old(vaults)[v := a]
    {
      a := Get(vaults, v);
      vaults := vaults[v := a];
    }

    method CaptureEpoch(chain: U64, v: Vault) returns (r: Option<Token>)
      modifies this
      ensures Step(vaults, Issued(r)) == Apply(old(vaults), StateEpoch(chain, v))
    {
      var a := Entry(v);
      if a.chain.Some? && a.chain.value != chain { return None; }
      vaults := vaults[v := a.(chain := Some(chain))];
      return Some(Token(chain, v, a.epoch));
    }

    method Rewind(chain: U64, v: Vault) returns (r: Option<Token>)
      modifies this
      ensures Step(vaults, Issued(r)) == Apply(old(vaults), RewindVault(chain, v))
    {
      var a := Entry(v);
      if a.chain.Some? && a.chain.value != chain { return None; }
      if a.epoch == MAX_U64 { return None; }
      vaults := vaults[v := a.(chain := Some(chain), epoch := a.epoch + 1, snapshot := None, rates := None, plan := None, episode := None)];
      return Some(Token(chain, v, a.epoch + 1));
    }

    method Record(token: Token, p: Publication) returns (accepted: bool)
      modifies this
      ensures Step(vaults, Flag(accepted)) == Apply(old(vaults), RecordState(token, p))
    {
      if !Bound(token, p) { return false; }
      var v := p.snapshot.vault;
      var a := Entry(v);
      if !Publishable(a, token, p) { return false; }
      if a.plan.Some? && !Matches(a.plan.value, p.snapshot.context) { a := a.(plan := None); }
      vaults := vaults[v := a.(snapshot := Some(p.snapshot), rates := Some(p.rates))];
      return true;
    }

    method CachePlan(plan: Plan) returns (accepted: bool)
      modifies this
      ensures Step(vaults, Flag(accepted)) == Apply(old(vaults), RecordPlan(plan))
    {
      var a := Entry(plan.vault);
      var matches := a.snapshot.Some? && Matches(plan, a.snapshot.value.context);
      if !matches || !PlanIsCurrent(a, plan) { return false; }
      vaults := vaults[plan.vault := a.(plan := Some(plan))];
      return true;
    }

    method ClearIf(v: Vault, id: Hash) returns (cleared: bool)
      modifies this
      ensures Step(vaults, Flag(cleared)) == Apply(old(vaults), ClearPlanIf(v, id))
    {
      if v !in vaults { return false; }
      if vaults[v].plan.None? || vaults[v].plan.value.id != id { return false; }
      vaults := vaults[v := vaults[v].(plan := None)];
      return true;
    }

    method ClearThrough(v: Vault, number: U64, generation: U64) returns (cleared: bool)
      modifies this
      ensures Step(vaults, Flag(cleared)) == Apply(old(vaults), ClearPlanThrough(v, number, generation))
    {
      if v !in vaults { return false; }
      var plan := vaults[v].plan;
      if plan.None? || plan.value.snapshot.block.number > number || plan.value.generation > generation { return false; }
      vaults := vaults[v := vaults[v].(plan := None)];
      return true;
    }

    method ReplaceEpisode(v: Vault, episode: Hash)
      modifies this
      ensures Step(vaults, Flag(true)) == Apply(old(vaults), RecordEpisode(v, episode))
    {
      var a := Entry(v);
      vaults := vaults[v := a.(episode := Some(episode))];
    }
  }
}
