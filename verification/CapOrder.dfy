/**
 The depth-first search over allocation orders.

 A visit works on one shared prefix and one shared remaining set, which it must hand back as it found them.
 Prefixes are remembered as vectors instead of as digests of their encodings.
 */
module CapOrder {
  import opened Checked
  import opened Ordering
  import opened Simulation
  import SharePool

  // ---------------------------------------------------------------- canonical order of the inputs

  datatype Key = Key(token: nat, market: nat, adapter: nat)

  predicate KeyLess(a: Key, b: Key) {
    a.token < b.token || (a.token == b.token && (a.market < b.market || (a.market == b.market && a.adapter < b.adapter)))
  }

  /** Sort key of an action; an unknown position sorts as the zero token and market. */
  function KeyOf(env: Env, inputs: Inputs, action: Action): Key {
    if action.position !in inputs.positions then Key(0, 0, action.adapter)
    else
      var market := inputs.positions[action.position].market;
      Key(if market in env.markets then env.markets[market].loanToken else 0, market, action.adapter)
  }

  function Insert(env: Env, inputs: Inputs, sorted: seq<Action>, action: Action): seq<Action> {
    if sorted == [] || KeyLess(KeyOf(env, inputs, action), KeyOf(env, inputs, sorted[0])) then [action] + sorted
    else [sorted[0]] + Insert(env, inputs, sorted[1..], action)
  }

  /** The stable sort by key. */
  function Canonical(env: Env, inputs: Inputs, actions: seq<Action>): seq<Action> {
    if actions == [] then []
    else Insert(env, inputs, Canonical(env, inputs, actions[..|actions| - 1]), actions[|actions| - 1])
  }

  predicate KeySorted(env: Env, inputs: Inputs, actions: seq<Action>) {
    forall i, j | 0 <= i < j < |actions| :: !KeyLess(KeyOf(env, inputs, actions[j]), KeyOf(env, inputs, actions[i]))
  }

  /** The actions with one key, in order. */
  function WithKey(env: Env, inputs: Inputs, actions: seq<Action>, key: Key): seq<Action> {
    if actions == [] then []
    else
      var last := actions[|actions| - 1];
      WithKey(env, inputs, actions[..|actions| - 1], key) + if KeyOf(env, inputs, last) == key then [last] else []
  }

  lemma {:induction false} WithKeySplits(env: Env, inputs: Inputs, a: seq<Action>, b: seq<Action>, key: Key)
    ensures WithKey(env, inputs, a + b, key) == WithKey(env, inputs, a, key) + WithKey(env, inputs, b, key)
    decreases |b|
  {
    hide KeyOf;
    if b == [] {
      assert a + b == a;
    } else {
      WithKeySplits(env, inputs, a, b[..|b| - 1], key);
      assert (a + b)[..|a + b| - 1] == a + b[..|b| - 1];
    }
  }

  lemma {:induction false} InsertMembers(env: Env, inputs: Inputs, sorted: seq<Action>, action: Action)
    ensures multiset(Insert(env, inputs, sorted, action)) == multiset(sorted) + multiset{action}
    decreases |sorted|
  {
    hide KeyOf, KeyLess;
    if sorted == [] || KeyLess(KeyOf(env, inputs, action), KeyOf(env, inputs, sorted[0])) {
    } else {
      InsertMembers(env, inputs, sorted[1..], action);
      assert sorted == [sorted[0]] + sorted[1..];
    }
  }

  lemma {:induction false} InsertSorts(env: Env, inputs: Inputs, sorted: seq<Action>, action: Action)
    requires KeySorted(env, inputs, sorted)
    ensures KeySorted(env, inputs, Insert(env, inputs, sorted, action))
    decreases |sorted|
  {
    hide KeyOf;
    if sorted == [] {
    } else if KeyLess(KeyOf(env, inputs, action), KeyOf(env, inputs, sorted[0])) {
      forall j | 0 <= j < |sorted|
        ensures !KeyLess(KeyOf(env, inputs, sorted[j]), KeyOf(env, inputs, action))
      {
        HeadIsLeast(env, inputs, sorted, sorted[j]);
      }
      SortedFromHead(env, inputs, [action] + sorted);
    } else {
      InsertSorts(env, inputs, sorted[1..], action);
      InsertMembers(env, inputs, sorted[1..], action);
      var rest := Insert(env, inputs, sorted[1..], action);
      forall j | 0 <= j < |rest|
        ensures !KeyLess(KeyOf(env, inputs, rest[j]), KeyOf(env, inputs, sorted[0]))
      {
        assert rest[j] in multiset(rest);
        assert rest[j] in sorted[1..] || rest[j] == action;
        if rest[j] in sorted[1..] { HeadIsLeast(env, inputs, sorted, rest[j]); }
      }
      SortedFromHead(env, inputs, [sorted[0]] + rest);
    }
  }

  lemma SortedFromHead(env: Env, inputs: Inputs, actions: seq<Action>)
    requires actions != [] && KeySorted(env, inputs, actions[1..])
    requires forall j | 0 <= j < |actions[1..]| :: !KeyLess(KeyOf(env, inputs, actions[1..][j]), KeyOf(env, inputs, actions[0]))
    ensures KeySorted(env, inputs, actions)
  {
    hide KeyOf, KeyLess;
    forall i, j | 0 <= i < j < |actions|
      ensures !KeyLess(KeyOf(env, inputs, actions[j]), KeyOf(env, inputs, actions[i]))
    {
      assert actions[j] == actions[1..][j - 1];
      if i > 0 { assert actions[i] == actions[1..][i - 1]; }
    }
  }

  lemma HeadIsLeast(env: Env, inputs: Inputs, sorted: seq<Action>, action: Action)
    requires KeySorted(env, inputs, sorted) && action in sorted
    ensures !KeyLess(KeyOf(env, inputs, action), KeyOf(env, inputs, sorted[0]))
  {
    hide KeyOf;
  }

  lemma {:induction false} InsertIsStable(env: Env, inputs: Inputs, sorted: seq<Action>, action: Action, key: Key)
    requires KeySorted(env, inputs, sorted)
    ensures WithKey(env, inputs, Insert(env, inputs, sorted, action), key) == WithKey(env, inputs, sorted + [action], key)
    decreases |sorted|
  {
    hide KeyOf, KeyLess, KeySorted, WithKey;
    if sorted == [] {
      assert [action] + sorted == sorted + [action];
    } else if KeyLess(KeyOf(env, inputs, action), KeyOf(env, inputs, sorted[0])) {
      InsertFirstIsStable(env, inputs, sorted, action, key);
    } else {
      TailKeepsOrder(env, inputs, sorted);
      InsertIsStable(env, inputs, sorted[1..], action, key);
      WithKeySplits(env, inputs, [sorted[0]], Insert(env, inputs, sorted[1..], action), key);
      WithKeySplits(env, inputs, [sorted[0]], sorted[1..] + [action], key);
      assert [sorted[0]] + (sorted[1..] + [action]) == sorted + [action];
    }
  }

  lemma InsertFirstIsStable(env: Env, inputs: Inputs, sorted: seq<Action>, action: Action, key: Key)
    requires sorted != [] && KeySorted(env, inputs, sorted)
    requires KeyLess(KeyOf(env, inputs, action), KeyOf(env, inputs, sorted[0]))
    ensures WithKey(env, inputs, [action] + sorted, key) == WithKey(env, inputs, sorted + [action], key)
  {
    hide KeyOf, KeySorted;
    WithKeySplits(env, inputs, [action], sorted, key);
    WithKeySplits(env, inputs, sorted, [action], key);
    if KeyOf(env, inputs, action) == key {
      forall a | a in sorted
        ensures KeyOf(env, inputs, a) != key
      {
        HeadIsLeast(env, inputs, sorted, a);
      }
      NoneWithKey(env, inputs, sorted, key);
    }
  }

  lemma {:induction false} NoneWithKey(env: Env, inputs: Inputs, actions: seq<Action>, key: Key)
    requires forall a | a in actions :: KeyOf(env, inputs, a) != key
    ensures WithKey(env, inputs, actions, key) == []
    decreases |actions|
  {
    hide KeyOf;
    if actions != [] { NoneWithKey(env, inputs, actions[..|actions| - 1], key); }
  }

  /** The canonical order is a permutation of the input, ordered by key, keeping the input order within a key. */
  lemma {:induction false} CanonicalSorts(env: Env, inputs: Inputs, actions: seq<Action>, key: Key)
    ensures KeySorted(env, inputs, Canonical(env, inputs, actions))
    ensures multiset(Canonical(env, inputs, actions)) == multiset(actions)
    ensures WithKey(env, inputs, Canonical(env, inputs, actions), key) == WithKey(env, inputs, actions, key)
    decreases |actions|
  {
    if actions != [] {
      var front, last := actions[..|actions| - 1], actions[|actions| - 1];
      assert actions == front + [last];
      CanonicalSorts(env, inputs, front, key);
      InsertSorts(env, inputs, Canonical(env, inputs, front), last);
      InsertMembers(env, inputs, Canonical(env, inputs, front), last);
      InsertIsStable(env, inputs, Canonical(env, inputs, front), last, key);
      WithKeySplits(env, inputs, Canonical(env, inputs, front), [last], key);
      WithKeySplits(env, inputs, front, [last], key);
    }
  }

  lemma CanonicalMembers(env: Env, inputs: Inputs, actions: seq<Action>)
    ensures |Canonical(env, inputs, actions)| == |actions|
    ensures forall a :: a in Canonical(env, inputs, actions) <==> a in actions
  {
    CanonicalSorts(env, inputs, actions, Key(0, 0, 0));
    var sorted := Canonical(env, inputs, actions);
    assert |multiset(sorted)| == |multiset(actions)|;
    assert forall a :: a in sorted <==> a in multiset(sorted);
    assert forall a :: a in actions <==> a in multiset(actions);
  }

  /** Different actions have different keys. */
  predicate KeysDiffer(env: Env, inputs: Inputs, actions: seq<Action>) {
    forall x, y | x in actions && y in actions && x != y :: KeyOf(env, inputs, x) != KeyOf(env, inputs, y)
  }

  lemma TailKeepsOrder(env: Env, inputs: Inputs, a: seq<Action>)
    requires a != [] && KeySorted(env, inputs, a)
    ensures KeySorted(env, inputs, a[1..])
    ensures KeysDiffer(env, inputs, a) ==> KeysDiffer(env, inputs, a[1..])
  {
    hide KeyOf, KeyLess;
  }

  lemma HeadsAgree(env: Env, inputs: Inputs, a: seq<Action>, b: seq<Action>)
    requires KeySorted(env, inputs, a) && KeySorted(env, inputs, b)
    requires a != [] && b != [] && a[0] in b && b[0] in a
    requires KeysDiffer(env, inputs, a)
    ensures a[0] == b[0]
  {
    hide KeyOf, KeySorted;
    HeadIsLeast(env, inputs, a, b[0]);
    HeadIsLeast(env, inputs, b, a[0]);
  }

  lemma TailBag(a: seq<Action>)
    requires a != []
    ensures multiset(a[1..]) == multiset(a) - multiset{a[0]}
    ensures a[0] in multiset(a)
  {
    assert a == [a[0]] + a[1..];
  }

  lemma {:induction false} SortedIsUnique(env: Env, inputs: Inputs, a: seq<Action>, b: seq<Action>)
    requires KeySorted(env, inputs, a) && KeySorted(env, inputs, b) && multiset(a) == multiset(b)
    requires KeysDiffer(env, inputs, a)
    ensures a == b
    decreases |a|
  {
    hide KeyOf, KeyLess, KeySorted, KeysDiffer;
    assert |a| == |multiset(a)| == |multiset(b)| == |b|;
    if a != [] {
      TailKeepsOrder(env, inputs, a);
      TailKeepsOrder(env, inputs, b);
      TailBag(a);
      TailBag(b);
      HeadsAgree(env, inputs, a, b);
      SortedIsUnique(env, inputs, a[1..], b[1..]);
      assert a == [a[0]] + a[1..] && b == [b[0]] + b[1..];
    }
  }

  /** When different actions have different keys, the order in which a caller lists them does not matter. */
  lemma CanonicalForgetsOrder(env: Env, inputs: Inputs, a: seq<Action>, b: seq<Action>)
    requires multiset(a) == multiset(b)
    requires KeysDiffer(env, inputs, a)
    ensures Canonical(env, inputs, a) == Canonical(env, inputs, b)
  {
    CanonicalSorts(env, inputs, a, Key(0, 0, 0));
    CanonicalSorts(env, inputs, b, Key(0, 0, 0));
    CanonicalMembers(env, inputs, a);
    SortedIsUnique(env, inputs, Canonical(env, inputs, a), Canonical(env, inputs, b));
  }

  // ---------------------------------------------------------------- all orders

  /** Nodes of the search tree under a node with `n` remaining indices. */
  function TreeSize(n: nat): (r: nat)
    ensures r >= 1
  {
    if n == 0 then 1 else 1 + n * TreeSize(n - 1)
  }

  /** n! / (n-k)!, the number of prefixes of length k. */
  function Falling(n: nat, k: nat): nat
    requires k <= n
  {
    if k == 0 then 1 else n * Falling(n - 1, k - 1)
  }

  function PrefixCount(n: nat, upTo: nat): nat
    requires upTo <= n
  {
    if upTo == 0 then 1 else PrefixCount(n, upTo - 1) + Falling(n, upTo)
  }

  lemma Distributes(n: nat, a: nat, b: nat)
    ensures n * (a + b) == n * a + n * b
  {
  }

  lemma {:induction false} PrefixCountUnfolds(n: nat, upTo: nat)
    requires 1 <= upTo <= n
    ensures PrefixCount(n, upTo) == 1 + n * PrefixCount(n - 1, upTo - 1)
    decreases upTo
  {
    if upTo == 1 {
      assert Falling(n, 1) == n * Falling(n - 1, 0);
    } else {
      PrefixCountUnfolds(n, upTo - 1);
      Distributes(n, PrefixCount(n - 1, upTo - 2), Falling(n - 1, upTo - 1));
    }
  }

  /** The tree has one node per prefix: the sum over k of n!/(n-k)!. */
  lemma {:induction false} TreeCountsPrefixes(n: nat)
    ensures TreeSize(n) == PrefixCount(n, n)
  {
    if n > 0 {
      TreeCountsPrefixes(n - 1);
      PrefixCountUnfolds(n, n);
    }
  }

  /** Every completion of a prefix, in the order the search reaches them. */
  function Completions(prefix: seq<nat>, remaining: set<nat>): seq<seq<nat>>
    decreases |remaining|, 0
  {
    if remaining == {} then [prefix] else Branches(prefix, remaining, Elements(remaining))
  }

  function Branches(prefix: seq<nat>, remaining: set<nat>, choices: seq<nat>): seq<seq<nat>>
    requires forall i | i in choices :: i in remaining
    requires remaining != {}
    decreases |remaining| - 1, 1, |choices|
  {
    if choices == [] then []
    else Completions(prefix + [choices[0]], remaining - {choices[0]}) + Branches(prefix, remaining, choices[1..])
  }

  /** Prefix, then each remaining index exactly once. */
  ghost predicate IsCompletion(prefix: seq<nat>, remaining: set<nat>, v: seq<nat>) {
    prefix <= v && multiset(v[|prefix|..]) == multiset(remaining)
  }

  lemma CompletionStep(prefix: seq<nat>, remaining: set<nat>, i: nat, v: seq<nat>)
    requires i in remaining
    ensures IsCompletion(prefix + [i], remaining - {i}, v) <==>
            IsCompletion(prefix, remaining, v) && |v| > |prefix| && v[|prefix|] == i
  {
    if IsCompletion(prefix + [i], remaining - {i}, v) {
      ExtensionContinues(prefix, i, v);
      TailOf(prefix, i, v);
      assert multiset(remaining) == multiset{i} + multiset(remaining - {i});
    }
    if IsCompletion(prefix, remaining, v) && |v| > |prefix| && v[|prefix|] == i {
      TailOf(prefix, i, v);
      assert multiset(remaining - {i}) == multiset(remaining) - multiset{i};
    }
  }

  lemma TailOf(prefix: seq<nat>, i: nat, v: seq<nat>)
    requires prefix <= v && |v| > |prefix| && v[|prefix|] == i
    ensures prefix + [i] <= v
    ensures multiset(v[|prefix|..]) == multiset{i} + multiset(v[|prefix| + 1..])
    ensures multiset(v[|prefix| + 1..]) == multiset(v[|prefix|..]) - multiset{i}
  {
    assert v[|prefix|..] == [i] + v[|prefix| + 1..];
  }

  /** The completions are exactly the permutations, in strictly ascending lexicographic order. */
  lemma {:induction false} CompletionsArePermutations(prefix: seq<nat>, remaining: set<nat>)
    ensures forall v :: v in Completions(prefix, remaining) <==> IsCompletion(prefix, remaining, v)
    ensures LexAscending(Completions(prefix, remaining))
    decreases |remaining|, 0
  {
    if remaining == {} {
      forall v: seq<nat>
        ensures v in Completions(prefix, remaining) <==> IsCompletion(prefix, remaining, v)
      {
        if IsCompletion(prefix, remaining, v) {
          assert |v[|prefix|..]| == |multiset(v[|prefix|..])|;
          assert v == prefix;
        }
      }
    } else {
      BranchesArePermutations(prefix, remaining, Elements(remaining));
      forall v: seq<nat>
        ensures v in Completions(prefix, remaining) <==> IsCompletion(prefix, remaining, v)
      {
        if IsCompletion(prefix, remaining, v) { CompletionIsLonger(prefix, remaining, v); }
      }
    }
  }

  lemma CompletionIsLonger(prefix: seq<nat>, remaining: set<nat>, v: seq<nat>)
    requires remaining != {} && IsCompletion(prefix, remaining, v)
    ensures |v| > |prefix| && v[|prefix|] in remaining
  {
    var i :| i in remaining;
    assert i in multiset(v[|prefix|..]);
    assert v[|prefix|] in multiset(v[|prefix|..]);
  }

  lemma {:induction false} BranchesArePermutations(prefix: seq<nat>, remaining: set<nat>, choices: seq<nat>)
    requires remaining != {} && Ascending(choices) && forall i | i in choices :: i in remaining
    ensures forall v :: v in Branches(prefix, remaining, choices) <==>
                          IsCompletion(prefix, remaining, v) && |v| > |prefix| && v[|prefix|] in choices
    ensures LexAscending(Branches(prefix, remaining, choices))
    decreases |remaining| - 1, 1, |choices|
  {
    hide Completions, IsCompletion, LexLess;
    if choices != [] {
      var i := choices[0];
      var first := Completions(prefix + [i], remaining - {i});
      var rest := Branches(prefix, remaining, choices[1..]);
      CompletionsArePermutations(prefix + [i], remaining - {i});
      BranchesArePermutations(prefix, remaining, choices[1..]);
      forall v: seq<nat>
        ensures v in first + rest <==> IsCompletion(prefix, remaining, v) && |v| > |prefix| && v[|prefix|] in choices
      {
        CompletionStep(prefix, remaining, i, v);
        assert choices == [i] + choices[1..];
      }
      forall a, b | a in first && b in rest
        ensures LexLess(a, b)
      {
        CompletionStep(prefix, remaining, i, a);
        BranchesDiffer(prefix, remaining, choices, a, b);
      }
      LexConcat(first, rest);
    }
  }

  lemma BranchesDiffer(prefix: seq<nat>, remaining: set<nat>, choices: seq<nat>, a: seq<nat>, b: seq<nat>)
    requires choices != [] && Ascending(choices)
    requires IsCompletion(prefix, remaining, a) && |a| > |prefix| && a[|prefix|] == choices[0]
    requires IsCompletion(prefix, remaining, b) && |b| > |prefix| && b[|prefix|] in choices[1..]
    ensures LexLess(a, b)
  {
    var k :| 0 <= k < |choices[1..]| && choices[1..][k] == b[|prefix|];
    assert choices[0] < choices[k + 1];
    LexByDigit(a, b, |prefix|);
  }

  lemma {:induction false} LexByDigit(a: seq<int>, b: seq<int>, k: nat)
    requires k < |a| && k < |b| && a[..k] == b[..k] && a[k] < b[k]
    ensures LexLess(a, b)
    decreases k
  {
    if k > 0 {
      assert a[0] == a[..k][0] == b[..k][0] == b[0];
      assert a[1..][..k - 1] == a[..k][1..] == b[..k][1..] == b[1..][..k - 1];
      LexByDigit(a[1..], b[1..], k - 1);
    }
  }

  lemma LexConcat(xs: seq<seq<int>>, ys: seq<seq<int>>)
    requires LexAscending(xs) && LexAscending(ys)
    requires forall a, b | a in xs && b in ys :: LexLess(a, b)
    ensures LexAscending(xs + ys)
  {
  }

  // ---------------------------------------------------------------- outcomes

  datatype Outcome = Outcome(actions: seq<Action>, state: State)

  function Pick(allocations: seq<Action>, order: seq<nat>): (r: seq<Action>)
    requires forall i | i in order :: i < |allocations|
    ensures |r| == |order|
  {
    seq(|order|, k requires 0 <= k < |order| => assert order[k] in order; allocations[order[k]])
  }

  predicate Indexes(orders: seq<seq<nat>>, n: nat) {
    forall order | order in orders :: forall i | i in order :: i < n
  }

  /** The orders whose simulation succeeds, each with the action list and final state. */
  function Feasible(env: Env, inputs: Inputs, deallocations: seq<Action>, allocations: seq<Action>, orders: seq<seq<nat>>): seq<Outcome>
    requires Indexes(orders, |allocations|)
    decreases |orders|
  {
    if orders == [] then []
    else
      assert orders[0] in orders && forall order | order in orders[1..] :: order in orders;
      var actions := deallocations + Pick(allocations, orders[0]);
      var state := SimulateActions(env, inputs, actions);
      (if state.Ok? then [Outcome(actions, state.value)] else []) +
      Feasible(env, inputs, deallocations, allocations, orders[1..])
  }

  lemma {:induction false} FeasibleSplits(env: Env, inputs: Inputs, deallocations: seq<Action>, allocations: seq<Action>,
                                          a: seq<seq<nat>>, b: seq<seq<nat>>)
    requires Indexes(a, |allocations|) && Indexes(b, |allocations|)
    ensures Indexes(a + b, |allocations|)
    ensures Feasible(env, inputs, deallocations, allocations, a + b) ==
            Feasible(env, inputs, deallocations, allocations, a) + Feasible(env, inputs, deallocations, allocations, b)
    decreases |a|
  {
    hide SimulateActions;
    if a == [] {
      assert a + b == b;
    } else {
      assert forall order | order in a[1..] :: order in a;
      FeasibleSplits(env, inputs, deallocations, allocations, a[1..], b);
      assert (a + b)[1..] == a[1..] + b;
      assert (a + b)[0] == a[0];
    }
  }

  lemma CompletionIndex(prefix: seq<nat>, remaining: set<nat>, v: seq<nat>, i: nat)
    requires IsCompletion(prefix, remaining, v) && i in v
    ensures i in prefix || i in remaining
  {
    assert v == prefix + v[|prefix|..];
    assert i in v[|prefix|..] ==> i in multiset(v[|prefix|..]);
  }

  lemma CompletionsIndex(prefix: seq<nat>, remaining: set<nat>, n: nat)
    requires (forall i | i in prefix :: i < n) && forall i | i in remaining :: i < n
    ensures Indexes(Completions(prefix, remaining), n)
  {
    CompletionsArePermutations(prefix, remaining);
    forall v, i | v in Completions(prefix, remaining) && i in v
      ensures i < n
    {
      CompletionIndex(prefix, remaining, v, i);
    }
  }

  lemma BranchesIndex(prefix: seq<nat>, remaining: set<nat>, choices: seq<nat>, n: nat)
    requires remaining != {} && Ascending(choices) && forall i | i in choices :: i in remaining
    requires (forall i | i in prefix :: i < n) && forall i | i in remaining :: i < n
    ensures Indexes(Branches(prefix, remaining, choices), n)
  {
    BranchesArePermutations(prefix, remaining, choices);
    forall v, i | v in Branches(prefix, remaining, choices) && i in v
      ensures i < n
    {
      CompletionIndex(prefix, remaining, v, i);
    }
  }

  lemma {:induction false} BranchesSplit(prefix: seq<nat>, remaining: set<nat>, a: seq<nat>, b: seq<nat>)
    requires remaining != {} && (forall i | i in a :: i in remaining) && forall i | i in b :: i in remaining
    ensures Branches(prefix, remaining, a + b) == Branches(prefix, remaining, a) + Branches(prefix, remaining, b)
    decreases |a|
  {
    hide Completions;
    if a == [] {
      assert a + b == b;
    } else {
      BranchesSplit(prefix, remaining, a[1..], b);
      assert (a + b)[1..] == a[1..] + b;
    }
  }

  predicate InRange(prefix: seq<nat>, remaining: set<nat>, n: nat) {
    (forall i | i in prefix :: i < n) && forall i | i in remaining :: i < n
  }

  /** The feasible orders below a node. */
  function Below(env: Env, inputs: Inputs, deallocations: seq<Action>, allocations: seq<Action>, prefix: seq<nat>, remaining: set<nat>): seq<Outcome>
    requires InRange(prefix, remaining, |allocations|)
  {
    CompletionsIndex(prefix, remaining, |allocations|);
    Feasible(env, inputs, deallocations, allocations, Completions(prefix, remaining))
  }

  /** The feasible orders below a node that continue with one of the given choices. */
  function Along(env: Env, inputs: Inputs, deallocations: seq<Action>, allocations: seq<Action>, prefix: seq<nat>, remaining: set<nat>,
                 choices: seq<nat>): seq<Outcome>
    requires InRange(prefix, remaining, |allocations|)
    requires remaining != {} && Ascending(choices) && forall i | i in choices :: i in remaining
  {
    BranchesIndex(prefix, remaining, choices, |allocations|);
    Feasible(env, inputs, deallocations, allocations, Branches(prefix, remaining, choices))
  }

  lemma AlongSplits(env: Env, inputs: Inputs, deallocations: seq<Action>, allocations: seq<Action>, prefix: seq<nat>, remaining: set<nat>,
                    choices: seq<nat>, k: nat)
    requires InRange(prefix, remaining, |allocations|)
    requires remaining != {} && Ascending(choices) && forall i | i in choices :: i in remaining
    requires k <= |choices|
    ensures Along(env, inputs, deallocations, allocations, prefix, remaining, choices) ==
            Along(env, inputs, deallocations, allocations, prefix, remaining, choices[..k]) +
            Along(env, inputs, deallocations, allocations, prefix, remaining, choices[k..])
  {
    hide Feasible, Branches;
    assert choices == choices[..k] + choices[k..];
    BranchesSplit(prefix, remaining, choices[..k], choices[k..]);
    BranchesIndex(prefix, remaining, choices[..k], |allocations|);
    BranchesIndex(prefix, remaining, choices[k..], |allocations|);
    FeasibleSplits(env, inputs, deallocations, allocations,
                   Branches(prefix, remaining, choices[..k]), Branches(prefix, remaining, choices[k..]));
  }

  lemma AlongOne(env: Env, inputs: Inputs, deallocations: seq<Action>, allocations: seq<Action>, prefix: seq<nat>, remaining: set<nat>, c: nat)
    requires InRange(prefix, remaining, |allocations|) && c in remaining
    ensures Along(env, inputs, deallocations, allocations, prefix, remaining, [c]) ==
            Below(env, inputs, deallocations, allocations, prefix + [c], remaining - {c})
  {
    assert [c][1..] == [];
    assert Branches(prefix, remaining, [c]) == Completions(prefix + [c], remaining - {c});
  }

  /** One more choice adds the outcomes below it, and stays within the outcomes of all choices. */
  lemma AlongStep(env: Env, inputs: Inputs, deallocations: seq<Action>, allocations: seq<Action>, prefix: seq<nat>, remaining: set<nat>,
                  choices: seq<nat>, k: nat)
    requires InRange(prefix, remaining, |allocations|)
    requires remaining != {} && Ascending(choices) && forall i | i in choices :: i in remaining
    requires k < |choices|
    ensures InRange(prefix + [choices[k]], remaining - {choices[k]}, |allocations|)
    ensures Along(env, inputs, deallocations, allocations, prefix, remaining, choices[..k + 1]) ==
            Along(env, inputs, deallocations, allocations, prefix, remaining, choices[..k]) +
            Below(env, inputs, deallocations, allocations, prefix + [choices[k]], remaining - {choices[k]})
    ensures Along(env, inputs, deallocations, allocations, prefix, remaining, choices[..k + 1]) <=
            Along(env, inputs, deallocations, allocations, prefix, remaining, choices)
  {
    hide Along, Below;
    assert choices[k] in choices;
    AlongSplits(env, inputs, deallocations, allocations, prefix, remaining, choices, k + 1);
    AlongSplits(env, inputs, deallocations, allocations, prefix, remaining, choices[..k + 1], k);
    assert choices[..k + 1][..k] == choices[..k] && choices[..k + 1][k..] == [choices[k]];
    AlongOne(env, inputs, deallocations, allocations, prefix, remaining, choices[k]);
  }

  lemma AlongEnds(env: Env, inputs: Inputs, deallocations: seq<Action>, allocations: seq<Action>, prefix: seq<nat>, remaining: set<nat>)
    requires InRange(prefix, remaining, |allocations|) && remaining != {}
    ensures Along(env, inputs, deallocations, allocations, prefix, remaining, []) == []
    ensures Along(env, inputs, deallocations, allocations, prefix, remaining, Elements(remaining)) ==
            Below(env, inputs, deallocations, allocations, prefix, remaining)
  {
  }

  lemma BelowLeaf(env: Env, inputs: Inputs, deallocations: seq<Action>, allocations: seq<Action>, prefix: seq<nat>)
    requires InRange(prefix, {}, |allocations|)
    ensures var actions := deallocations + Pick(allocations, prefix);
            var state := SimulateActions(env, inputs, actions);
            Below(env, inputs, deallocations, allocations, prefix, {}) ==
            if state.Ok? then [Outcome(actions, state.value)] else []
  {
    hide SimulateActions, Pick;
    assert Completions(prefix, {}) == [prefix] && [prefix][1..] == [];
    assert Feasible(env, inputs, deallocations, allocations, []) == [];
  }

  // ---------------------------------------------------------------- the search

  /** Nodes below the first k of n choices. */
  function ChildNodes(n: nat, k: nat): nat
    requires n >= 1
  {
    k * TreeSize(n - 1)
  }

  lemma ChildNodesStep(n: nat, k: nat)
    requires 1 <= n && k < n
    ensures ChildNodes(n, 0) == 0 && TreeSize(n) == 1 + ChildNodes(n, n)
    ensures ChildNodes(n, k + 1) == ChildNodes(n, k) + TreeSize(n - 1)
    ensures ChildNodes(n, k + 1) <= ChildNodes(n, n)
  {
    SharePool.MulMonotone(k + 1, n, TreeSize(n - 1));
  }

  class Search {
    const env: Env
    const inputs: Inputs
    const deallocations: seq<Action>
    const allocations: seq<Action>
    const nodeLimit: U64
    var nodes: U64
    var complete: bool
    var seen: set<seq<nat>>
    var feasible: seq<Outcome>
    var prefix: seq<nat>
    var remaining: set<nat>

    constructor (env: Env, inputs: Inputs, deallocations: seq<Action>, allocations: seq<Action>, nodeLimit: U64)
      ensures this.env == env && this.inputs == inputs
      ensures this.deallocations == deallocations && this.allocations == allocations && this.nodeLimit == nodeLimit
      ensures nodes == 0 && complete && seen == {} && feasible == [] && prefix == []
      ensures remaining == Numbers(|allocations|)
    {
      this.env, this.inputs, this.deallocations, this.allocations := env, inputs, deallocations, allocations;
      this.nodeLimit := nodeLimit;
      nodes, complete, seen, feasible, prefix := 0, true, {}, [], [];
      remaining := Numbers(|allocations|);
    }

    /** At a node about to be visited: nothing at or below it has been visited. */
    predicate Ready()
      reads this
    {
      && nodes <= nodeLimit && complete
      && InRange(prefix, remaining, |allocations|)
      && (forall p | p in seen :: !(prefix <= p))
    }

    /** The outcomes the search should reach from the current node. */
    ghost function Reachable(): seq<Outcome>
      requires InRange(prefix, remaining, |allocations|)
      reads this
    {
      Below(env, inputs, deallocations, allocations, prefix, remaining)
    }

    /** Explores everything below the current prefix, unless the node limit comes first, and hands the prefix
        and the remaining set back unchanged.  Every node it counts is a prefix not seen before. */
    method Visit()
      requires Ready()
      modifies `nodes, `complete, `seen, `feasible, `prefix, `remaining
      ensures prefix == old(prefix) && remaining == old(remaining)
      ensures complete <==> old(nodes) + TreeSize(|remaining|) <= nodeLimit
      ensures nodes == if complete then old(nodes) + TreeSize(|remaining|) else nodeLimit
      ensures complete ==> feasible == old(feasible) + Reachable()
      ensures old(feasible) <= feasible <= old(feasible) + Reachable()
      ensures old(seen) <= seen && |seen| - |old(seen)| == nodes - old(nodes)
      ensures forall p | p in seen :: p in old(seen) || prefix <= p
      decreases |remaining|, 2
    {
      hide Below, Along, SimulateActions, Pick, TreeSize;
      if nodes >= nodeLimit {
        complete := false;
        return;
      }
      nodes := nodes + 1;
      if prefix in seen { return; }
      seen := seen + {prefix};
      if remaining == {} {
        BelowLeaf(env, inputs, deallocations, allocations, prefix);
        LeafSize();
        var actions := deallocations + Pick(allocations, prefix);
        var state := SimulateActions(env, inputs, actions);
        if state.Ok? { feasible := feasible + [Outcome(actions, state.value)]; }
        return;
      }
      ChildNodesStep(|remaining|, 0);
      VisitChildren();
    }

    /** Visits the children of the current node in index order, stopping when the node limit is reached. */
    method VisitChildren()
      requires nodes <= nodeLimit && complete && InRange(prefix, remaining, |allocations|) && remaining != {}
      requires forall p | p in seen :: prefix <= p ==> p == prefix
      modifies `nodes, `complete, `seen, `feasible, `prefix, `remaining
      ensures prefix == old(prefix) && remaining == old(remaining)
      ensures complete <==> old(nodes) + ChildNodes(|remaining|, |remaining|) <= nodeLimit
      ensures nodes == if complete then old(nodes) + ChildNodes(|remaining|, |remaining|) else nodeLimit
      ensures complete ==> feasible == old(feasible) + Reachable()
      ensures old(feasible) <= feasible <= old(feasible) + Reachable()
      ensures old(seen) <= seen && |seen| - |old(seen)| == nodes - old(nodes)
      ensures forall p | p in seen :: p in old(seen) || prefix <= p
      decreases |remaining|, 1
    {
      hide Below, Along, TreeSize, ChildNodes, InRange, Tried, Elements;
      TriedExtends(prefix);
      AlongEnds(env, inputs, deallocations, allocations, prefix, remaining);
      var choices := Elements(remaining);
      ElementsCount(remaining);
      ChildNodesStep(|remaining|, 0);
      var k := 0;
      while k < |choices|
        invariant k <= |choices| && complete
        invariant prefix == old(prefix) && remaining == old(remaining)
        invariant nodes == old(nodes) + ChildNodes(|remaining|, k) <= nodeLimit
        invariant feasible == old(feasible) + Along(env, inputs, deallocations, allocations, prefix, remaining, choices[..k])
        invariant old(seen) <= seen && |seen| - |old(seen)| == nodes - old(nodes)
        invariant forall p | p in seen :: p in old(seen) || Tried(prefix, choices[..k], p)
      {
        ChildNodesStep(|remaining|, k);
        AlongStep(env, inputs, deallocations, allocations, prefix, remaining, choices, k);
        NotTried(prefix, choices, k);
        assert choices[k] in choices;
        ghost var earlier := seen;
        Descend(choices[k]);
        if !complete { return; }
        forall p | p in seen
          ensures p in old(seen) || Tried(prefix, choices[..k + 1], p)
        {
          assert p in earlier || prefix + [choices[k]] <= p;
          if p !in old(seen) { TriedNext(prefix, choices, k, p); }
        }
        k := k + 1;
      }
      assert choices[..k] == choices;
    }

    /** Visits one child and backtracks. */
    method Descend(index: nat)
      requires nodes <= nodeLimit && complete && InRange(prefix, remaining, |allocations|) && index in remaining
      requires forall p | p in seen :: !(prefix + [index] <= p)
      modifies `nodes, `complete, `seen, `feasible, `prefix, `remaining
      ensures prefix == old(prefix) && remaining == old(remaining)
      ensures complete <==> old(nodes) + TreeSize(|remaining| - 1) <= nodeLimit
      ensures nodes == if complete then old(nodes) + TreeSize(|remaining| - 1) else nodeLimit
      ensures InRange(prefix + [index], remaining - {index}, |allocations|)
      ensures complete ==> feasible == old(feasible) +
                           Below(env, inputs, deallocations, allocations, prefix + [index], remaining - {index})
      ensures old(feasible) <= feasible <=
              old(feasible) + Below(env, inputs, deallocations, allocations, prefix + [index], remaining - {index})
      ensures old(seen) <= seen && |seen| - |old(seen)| == nodes - old(nodes)
      ensures forall p | p in seen :: p in old(seen) || prefix + [index] <= p
      decreases |remaining|, 0
    {
      hide Below, TreeSize;
      remaining := remaining - {index};
      prefix := prefix + [index];
      Visit();
      prefix := prefix[..|prefix| - 1];
      remaining := remaining + {index};
    }
  }

  /** A strict extension of the prefix that continues with one of the choices. */
  predicate Tried(prefix: seq<nat>, choices: seq<nat>, p: seq<nat>) {
    prefix < p && p[|prefix|] in choices
  }

  lemma TriedExtends(prefix: seq<nat>)
    ensures forall choices: seq<nat>, p | Tried(prefix, choices, p) :: prefix <= p
    ensures forall p :: !Tried(prefix, [], p)
  {
  }

  lemma NotTried(prefix: seq<nat>, choices: seq<nat>, k: nat)
    requires Ascending(choices) && k < |choices|
    ensures forall p | prefix + [choices[k]] <= p :: prefix <= p && p != prefix && !Tried(prefix, choices[..k], p)
  {
    forall p: seq<nat> | prefix + [choices[k]] <= p
      ensures prefix < p && p[|prefix|] == choices[k]
    {
      ExtensionContinues(prefix, choices[k], p);
    }
  }

  lemma TriedNext(prefix: seq<nat>, choices: seq<nat>, k: nat, p: seq<nat>)
    requires k < |choices| && (Tried(prefix, choices[..k], p) || prefix + [choices[k]] <= p)
    ensures Tried(prefix, choices[..k + 1], p)
  {
    assert choices[..k + 1] == choices[..k] + [choices[k]];
    if prefix + [choices[k]] <= p { ExtensionContinues(prefix, choices[k], p); }
  }

  lemma ExtensionContinues(prefix: seq<nat>, c: nat, p: seq<nat>)
    requires prefix + [c] <= p
    ensures prefix < p && p[|prefix|] == c
  {
    assert p[|prefix|] == (prefix + [c])[|prefix|];
    assert p[..|prefix|] == (prefix + [c])[..|prefix|] == prefix;
  }

  lemma LeafSize()
    ensures TreeSize(0) == 1
  {
  }

  function Numbers(n: nat): (r: set<nat>)
    ensures forall i: nat :: i in r <==> i < n
    ensures |r| == n
  {
    if n == 0 then {} else Numbers(n - 1) + {n - 1}
  }

  // ---------------------------------------------------------------- search_allocation_orders

  datatype AllocationOrders = AllocationOrders(feasible: seq<Outcome>, nodesEvaluated: U64, complete: bool)

  /** All orders of n indices, as the search reaches them. */
  function Orders(n: nat): seq<seq<nat>> { Completions([], Numbers(n)) }

  lemma OrdersArePermutations(n: nat)
    ensures forall v: seq<nat> :: v in Orders(n) <==> multiset(v) == multiset(Numbers(n))
    ensures LexAscending(Orders(n)) && Indexes(Orders(n), n)
  {
    CompletionsArePermutations([], Numbers(n));
    CompletionsIndex([], Numbers(n), n);
    forall v: seq<nat>
      ensures v in Orders(n) <==> multiset(v) == multiset(Numbers(n))
    {
      assert v[0..] == v;
    }
  }

  predicate Accepts(env: Env, inputs: Inputs, deallocations: seq<Action>, allocations: seq<Action>, order: seq<nat>, o: Outcome)
    requires forall i | i in order :: i < |allocations|
  {
    && o.actions == deallocations + Pick(allocations, order)
    && SimulateActions(env, inputs, o.actions) == Ok(o.state)
  }

  /** The result list holds an outcome exactly when some listed order simulates to it. */
  lemma {:induction false} FeasibleMembers(env: Env, inputs: Inputs, deallocations: seq<Action>, allocations: seq<Action>,
                                           orders: seq<seq<nat>>, o: Outcome)
    requires Indexes(orders, |allocations|)
    ensures o in Feasible(env, inputs, deallocations, allocations, orders) <==>
            exists order | order in orders :: Accepts(env, inputs, deallocations, allocations, order, o)
    decreases |orders|
  {
    hide SimulateActions, Pick;
    if orders != [] {
      assert forall order | order in orders[1..] :: order in orders;
      FeasibleMembers(env, inputs, deallocations, allocations, orders[1..], o);
      assert orders == [orders[0]] + orders[1..] && orders[0] in orders;
      var rest := Feasible(env, inputs, deallocations, allocations, orders[1..]);
      assert o in Feasible(env, inputs, deallocations, allocations, orders) <==>
             Accepts(env, inputs, deallocations, allocations, orders[0], o) || o in rest;
    }
  }

  lemma BelowRoot(env: Env, inputs: Inputs, deallocations: seq<Action>, allocations: seq<Action>)
    ensures InRange([], Numbers(|allocations|), |allocations|) && Indexes(Orders(|allocations|), |allocations|)
    ensures Below(env, inputs, deallocations, allocations, [], Numbers(|allocations|)) ==
            Feasible(env, inputs, deallocations, allocations, Orders(|allocations|))
  {
    hide Feasible;
    OrdersArePermutations(|allocations|);
  }

  /** A complete search returns every feasible order once, in lexicographic order of canonical indices; it is
      complete exactly when the limit admits every prefix. */
  method SearchAllocationOrders(env: Env, inputs: Inputs, deallocations: seq<Action>, allocations: seq<Action>, nodeLimit: U64)
    returns (r: Result<AllocationOrders>)
    ensures r.Ok? <==> (forall a | a in deallocations :: a.Deallocation?) && forall a | a in allocations :: a.Allocation?
    ensures r.Err? ==> r.error == InvalidAction
    ensures r.Ok? ==> (r.value.complete <==> PrefixCount(|allocations|, |allocations|) <= nodeLimit)
    ensures r.Ok? ==> r.value.nodesEvaluated == Min(PrefixCount(|allocations|, |allocations|), nodeLimit)
    ensures Indexes(Orders(|allocations|), |Canonical(env, inputs, allocations)|)
    ensures r.Ok? ==>
              var all := Feasible(env, inputs, Canonical(env, inputs, deallocations), Canonical(env, inputs, allocations), Orders(|allocations|));
              r.value.feasible <= all && (r.value.complete ==> r.value.feasible == all)
  {
    hide Canonical, Below, Feasible, Orders, Completions, Indexes, TreeSize, PrefixCount;
    TreeCountsPrefixes(|allocations|);
    CanonicalMembers(env, inputs, deallocations);
    CanonicalMembers(env, inputs, allocations);
    var ds, bs := Canonical(env, inputs, deallocations), Canonical(env, inputs, allocations);
    BelowRoot(env, inputs, ds, bs);
    var i := 0;
    while i < |ds|
      invariant i <= |ds| && forall k | 0 <= k < i :: ds[k].Deallocation?
    {
      if !ds[i].Deallocation? {
        assert ds[i] in deallocations;
        return Err(InvalidAction);
      }
      i := i + 1;
    }
    if exists a | a in bs :: !a.Allocation? { return Err(InvalidAction); }
    var search := new Search(env, inputs, ds, bs, nodeLimit);
    search.Visit();
    r := Ok(AllocationOrders(search.feasible, search.nodes, search.complete));
  }
}
