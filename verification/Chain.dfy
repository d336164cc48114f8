/**
 Dense block ingestion against an unreliable provider.

 Every request takes a fresh tick, so a provider may answer the same question differently each time, and
 every fetch, durable write and publication may fail at its tick.  Heights are unbounded.
 */
module Chain {
  import opened Checked

  type Hash = nat

  datatype Block = Block(number: nat, hash: Hash, parent: Hash)

  /** Durable canonical blocks and the cursor. */
  datatype Store = Store(blocks: map<nat, Block>, cursor: Option<Block>)

  /** What one poll meets: the latest header, the answer at each tick for each height, and the failing ticks. */
  datatype Feed = Feed(latest: Option<Block>, header: (nat, nat) -> Option<Block>, fault: nat -> bool)

  datatype Config = Config(eventStart: nat, maximumRewind: nat)

  const MAX_PUBLISHED_CATCH_UP_BLOCKS: nat := 8

  datatype Progress = Progress(store: Store, tick: nat, ok: bool)

  // ---------------------------------------------------------------- storage

  function Apply(s: Store, block: Block): Store { Store(s.blocks[block.number := block], Some(block)) }

  function RewindTo(s: Store, ancestor: Block): Store {
    Store(map n | n in s.blocks && n <= ancestor.number :: s.blocks[n], Some(ancestor))
  }

  /** Stored blocks are consecutive up to the cursor and linked by parent hash. */
  ghost predicate Valid(s: Store) {
    if s.cursor.None? then s.blocks == map[]
    else
      var top := s.cursor.value.number;
      && top in s.blocks && s.blocks[top].hash == s.cursor.value.hash
      && forall n | n in s.blocks :: Fits(s, top, n)
  }

  ghost predicate Fits(s: Store, top: nat, n: nat)
    requires n in s.blocks
  {
    && s.blocks[n].number == n && n <= top
    && (n < top ==> n + 1 in s.blocks && s.blocks[n + 1].parent == s.blocks[n].hash)
  }

  lemma ValidFits(s: Store, n: nat)
    requires Valid(s) && n in s.blocks
    ensures s.cursor.Some? && Fits(s, s.cursor.value.number, n)
    ensures n == s.cursor.value.number ==> s.blocks[n].hash == s.cursor.value.hash
  {
  }

  /** A block extends the store. */
  predicate Extends(s: Store, block: Block) {
    s.cursor.Some? ==> block.number == s.cursor.value.number + 1 && block.parent == s.cursor.value.hash
  }

  lemma ApplyKeepsValid(s: Store, block: Block)
    requires Valid(s) && Extends(s, block)
    ensures Valid(Apply(s, block))
    ensures forall n | n in s.blocks :: n in Apply(s, block).blocks && Apply(s, block).blocks[n] == s.blocks[n]
  {
    var t := Apply(s, block);
    forall n | n in t.blocks
      ensures Fits(t, block.number, n)
    {
      if n in s.blocks { assert Fits(s, s.cursor.value.number, n); }
    }
    forall n | n in s.blocks
      ensures n != block.number
    {
      assert Fits(s, s.cursor.value.number, n);
    }
  }

  /** A rewind keeps the store valid exactly when the ancestor's own height holds a block with its hash. */
  lemma RewindValidIff(s: Store, ancestor: Block)
    requires Valid(s)
    ensures Valid(RewindTo(s, ancestor)) <==> ancestor.number in s.blocks && s.blocks[ancestor.number].hash == ancestor.hash
  {
    var t := RewindTo(s, ancestor);
    if ancestor.number in s.blocks && s.blocks[ancestor.number].hash == ancestor.hash {
      forall n | n in t.blocks
        ensures Fits(t, ancestor.number, n)
      {
        assert Fits(s, s.cursor.value.number, n) && Fits(s, s.cursor.value.number, ancestor.number);
      }
    }
  }

  // ---------------------------------------------------------------- catching up

  /** Appends the blocks from `number` to `latest`, each checked against the one before it. */
  function CatchUp(feed: Feed, s: Store, tick: nat, number: nat, latest: Block, previous: Option<Block>, publish: bool): Progress
    decreases latest.number + 1 - number
  {
    if number > latest.number then Progress(s, tick, true)
    else
      var answer := if number == latest.number then Some(latest) else feed.header(tick, number);
      if answer.None? || feed.fault(tick) then Progress(s, tick + 1, false)
      else
        var block := answer.value;
        if previous.Some? && (block.number != previous.value.number + 1 || block.parent != previous.value.hash)
        then Progress(s, tick + 1, false)
        else if feed.fault(tick + 1) then Progress(s, tick + 2, false)
        else if publish && feed.fault(tick + 2) then Progress(Apply(s, block), tick + 3, false)
        else CatchUp(feed, Apply(s, block), tick + 3, number + 1, latest, Some(block), publish)
  }

  lemma CaughtUp(feed: Feed, s: Store, tick: nat, number: nat, latest: Block, previous: Option<Block>, publish: bool)
    requires number > latest.number
    ensures CatchUp(feed, s, tick, number, latest, previous, publish) == Progress(s, tick, true)
  {
  }

  function Before(config: Config, s: Store, start: nat): Option<Block> {
    if start == config.eventStart then s.cursor
    else if start > 0 && start - 1 in s.blocks then Some(s.blocks[start - 1])
    else None
  }

  function CatchUpFrom(feed: Feed, config: Config, s: Store, tick: nat, start: nat, latest: Block, publish: bool): Progress {
    if start > latest.number then Progress(s, tick, true)
    else CatchUp(feed, s, tick, start, latest, Before(config, s, start), publish)
  }

  /** The block the next one is checked against is the top of the store. */
  ghost predicate Continues(s: Store, previous: Option<Block>) {
    if s.cursor.None? then previous.None?
    else previous.Some? && previous.value.number == s.cursor.value.number && previous.value.hash == s.cursor.value.hash
  }

  /** Whatever the provider answers and wherever it fails, catching up only appends and keeps the store valid;
      when it succeeds the cursor is the requested head. */
  lemma {:induction false} CatchUpKeepsValid(feed: Feed, s: Store, tick: nat, number: nat, latest: Block, previous: Option<Block>, publish: bool)
    requires Valid(s) && Continues(s, previous)
    ensures var r := CatchUp(feed, s, tick, number, latest, previous, publish);
            && Valid(r.store)
            && (forall n | n in s.blocks :: n in r.store.blocks && r.store.blocks[n] == s.blocks[n])
            && (r.ok && number <= latest.number ==> r.store.cursor == Some(latest))
    decreases latest.number + 1 - number
  {
    hide Valid;
    if number <= latest.number {
      var answer := if number == latest.number then Some(latest) else feed.header(tick, number);
      if answer.Some? && !feed.fault(tick) {
        var block := answer.value;
        if Extends(s, block) {
          ApplyKeepsValid(s, block);
          CatchUpKeepsValid(feed, Apply(s, block), tick + 3, number + 1, latest, Some(block), publish);
        }
      }
    }
  }

  lemma BeforeContinues(config: Config, s: Store, start: nat)
    requires Valid(s)
    requires s.cursor.Some? ==> start == s.cursor.value.number + 1
    ensures Continues(s, Before(config, s, start))
  {
    if s.cursor.Some? { assert Fits(s, s.cursor.value.number, s.cursor.value.number); }
  }

  // ---------------------------------------------------------------- common ancestor

  datatype Search = Found(ancestor: Block, height: nat, tick: nat) | Deep(tick: nat) | Broken(tick: nat)

  /** Walks down from `height`, comparing stored hashes with the provider's. */
  function Descend(feed: Feed, s: Store, tick: nat, height: nat, attempts: nat): Search
    decreases attempts
  {
    if attempts == 0 then Deep(tick)
    else if height !in s.blocks then if height == 0 then Deep(tick) else Descend(feed, s, tick, height - 1, attempts - 1)
    else
      var remote := feed.header(tick, height);
      if remote.None? then Broken(tick + 1)
      else if remote.value.hash == s.blocks[height].hash then Found(remote.value, height, tick + 1)
      else if height == 0 then Deep(tick + 1)
      else Descend(feed, s, tick + 1, height - 1, attempts - 1)
  }

  function FindCommonAncestor(feed: Feed, config: Config, s: Store, tick: nat, oldHead: Block, newHead: Block): Search {
    var height := Min(oldHead.number, newHead.number);
    Descend(feed, s, tick, height, Min(config.maximumRewind + 1, height + 1))
  }

  lemma {:induction false} FoundMatches(feed: Feed, s: Store, tick: nat, height: nat, attempts: nat)
    ensures var r := Descend(feed, s, tick, height, attempts);
            r.Found? ==> && r.height in s.blocks && s.blocks[r.height].hash == r.ancestor.hash && r.height <= height
                         && exists i :: feed.header(i, r.height) == Some(r.ancestor)
    decreases attempts
  {
    if attempts > 0 && height > 0 {
      FoundMatches(feed, s, tick, height - 1, attempts - 1);
      FoundMatches(feed, s, tick + 1, height - 1, attempts - 1);
    }
  }

  /** The highest stored height of the window whose hash agrees with the view, or none. */
  ghost predicate HighestAgreeing(view: nat -> Block, s: Store, height: nat, attempts: nat, r: Search) {
    && !r.Broken?
    && (r.Found? ==> && r.height in s.blocks && height - attempts < r.height <= height && r.ancestor == view(r.height)
                     && s.blocks[r.height].hash == view(r.height).hash
                     && forall n: nat | r.height < n <= height && n in s.blocks :: s.blocks[n].hash != view(n).hash)
    && (r.Deep? ==> forall n: nat | height - attempts < n <= height && n in s.blocks :: s.blocks[n].hash != view(n).hash)
  }

  /** Against one fixed view, the search returns the highest stored height in its window whose hash agrees, and
      reports a deep reorganisation only when no stored height in the window agrees. */
  lemma {:induction false} AncestorIsHighest(feed: Feed, view: nat -> Block, s: Store, tick: nat, height: nat, attempts: nat)
    requires attempts <= height + 1 && forall i, n :: feed.header(i, n) == Some(view(n))
    ensures HighestAgreeing(view, s, height, attempts, Descend(feed, s, tick, height, attempts))
    decreases attempts
  {
    if attempts > 0 {
      assert feed.header(tick, height) == Some(view(height));
      if height > 0 {
        AncestorIsHighest(feed, view, s, tick, height - 1, attempts - 1);
        AncestorIsHighest(feed, view, s, tick + 1, height - 1, attempts - 1);
      }
    }
  }

  // ---------------------------------------------------------------- one poll

  function RewindAndReplay(feed: Feed, config: Config, s: Store, tick: nat, oldHead: Block, newHead: Block): Progress {
    match FindCommonAncestor(feed, config, s, tick, oldHead, newHead)
    case Deep(t) => Progress(s, t, false)
    case Broken(t) => Progress(s, t, false)
    case Found(ancestor, _, t) =>
      if feed.fault(t) then Progress(s, t + 1, false)
      else if feed.fault(t + 1) then Progress(RewindTo(s, ancestor), t + 2, false)
      else CatchUpFrom(feed, config, RewindTo(s, ancestor), t + 2, ancestor.number + 1, newHead, false)
  }

  /** Whether the stored cursor is still on the provider's chain; `None` when the provider fails. */
  function StillCanonical(feed: Feed, tick: nat, oldHead: Block, latest: Block): Option<bool> {
    if latest.number == oldHead.number + 1 then Some(latest.parent == oldHead.hash)
    else if latest.number < oldHead.number then Some(false)
    else
      var h := feed.header(tick, oldHead.number);
      if h.None? then None else Some(h.value.hash == oldHead.hash)
  }

  function Ingest(feed: Feed, config: Config, s: Store, tick: nat, latest: Block): Progress {
    if s.cursor.None? then
      CatchUpFrom(feed, config, s, tick, config.eventStart, latest, latest.number + 1 <= config.eventStart + MAX_PUBLISHED_CATCH_UP_BLOCKS)
    else
      var oldHead := s.cursor.value;
      var canonical := StillCanonical(feed, tick, oldHead, latest);
      if canonical.None? then Progress(s, tick + 1, false)
      else if !canonical.value || (latest.number == oldHead.number && latest.hash != oldHead.hash) then
        RewindAndReplay(feed, config, s, tick + 1, oldHead, latest)
      else if latest.number > oldHead.number then
        CatchUpFrom(feed, config, s, tick + 1, oldHead.number + 1, latest, latest.number <= oldHead.number + MAX_PUBLISHED_CATCH_UP_BLOCKS)
      else Progress(s, tick + 1, true)
  }

  /** `poll_once_inner` on the dense path: latest header, checkpoint, ingestion, publication. */
  function Poll(feed: Feed, config: Config, s: Store): Progress {
    if feed.latest.None? || feed.fault(0) then Progress(s, 1, false)
    else
      var r := Ingest(feed, config, s, 1, feed.latest.value);
      if r.ok && feed.fault(r.tick) then Progress(r.store, r.tick + 1, false) else r
  }

  /** A header answered for a height carries that height. */
  ghost predicate Numbered(feed: Feed) {
    forall i, n :: feed.header(i, n).Some? ==> feed.header(i, n).value.number == n
  }

  /** The common ancestor that a poll would rewind to, if any, is a block it has stored: the guard of the rewind. */
  ghost predicate AncestorStored(feed: Feed, config: Config, s: Store) {
    feed.latest.Some? && s.cursor.Some? ==>
      var r := FindCommonAncestor(feed, config, s, 2, s.cursor.value, feed.latest.value);
      r.Found? ==> r.ancestor.number in s.blocks && s.blocks[r.ancestor.number].hash == r.ancestor.hash
  }

  /** That ancestor carries the height at which it was found. */
  ghost predicate AncestorNumbered(feed: Feed, config: Config, s: Store) {
    feed.latest.Some? && s.cursor.Some? ==>
      var r := FindCommonAncestor(feed, config, s, 2, s.cursor.value, feed.latest.value);
      r.Found? ==> r.ancestor.number == r.height
  }

  /** A provider that numbers its headers by the requested height gives such ancestors, and they are stored. */
  lemma NumberedAncestor(feed: Feed, config: Config, s: Store)
    ensures Numbered(feed) ==> AncestorNumbered(feed, config, s)
    ensures AncestorNumbered(feed, config, s) ==> AncestorStored(feed, config, s)
  {
    hide Descend;
    if feed.latest.Some? && s.cursor.Some? {
      var height := Min(s.cursor.value.number, feed.latest.value.number);
      FoundMatches(feed, s, 2, height, Min(config.maximumRewind + 1, height + 1));
    }
  }

  lemma ReplayKeepsValid(feed: Feed, config: Config, s: Store, tick: nat, oldHead: Block, newHead: Block)
    requires Valid(s)
    requires var r := FindCommonAncestor(feed, config, s, tick, oldHead, newHead);
             r.Found? ==> r.ancestor.number in s.blocks && s.blocks[r.ancestor.number].hash == r.ancestor.hash
    ensures Valid(RewindAndReplay(feed, config, s, tick, oldHead, newHead).store)
  {
    hide Valid, CatchUp, FindCommonAncestor;
    var found := FindCommonAncestor(feed, config, s, tick, oldHead, newHead);
    if found.Found? {
      RewindValidIff(s, found.ancestor);
      var t := RewindTo(s, found.ancestor);
      var start := found.ancestor.number + 1;
      BeforeContinues(config, t, start);
      CatchUpKeepsValid(feed, t, found.tick + 2, start, newHead, Before(config, t, start), false);
    }
  }

  /** One poll keeps the store valid, wherever it fails and whatever it is answered, as long as the ancestor it
      rewinds to is stored. */
  lemma PollKeepsValid(feed: Feed, config: Config, s: Store)
    requires Valid(s) && AncestorStored(feed, config, s)
    ensures Valid(Poll(feed, config, s).store)
  {
    hide Valid, CatchUp, RewindAndReplay, FindCommonAncestor;
    if feed.latest.Some? {
      var latest := feed.latest.value;
      if s.cursor.None? {
        var publish := latest.number + 1 <= config.eventStart + MAX_PUBLISHED_CATCH_UP_BLOCKS;
        BeforeContinues(config, s, config.eventStart);
        CatchUpKeepsValid(feed, s, 1, config.eventStart, latest, Before(config, s, config.eventStart), publish);
      } else {
        var oldHead := s.cursor.value;
        var publish := latest.number <= oldHead.number + MAX_PUBLISHED_CATCH_UP_BLOCKS;
        ReplayKeepsValid(feed, config, s, 2, oldHead, latest);
        BeforeContinues(config, s, oldHead.number + 1);
        CatchUpKeepsValid(feed, s, 2, oldHead.number + 1, latest, Before(config, s, oldHead.number + 1), publish);
      }
    }
  }

  /** The provider answers its own head's height with another hash. */
  ghost predicate ContradictsHead(feed: Feed, i: nat)
    requires feed.latest.Some?
  {
    var h := feed.header(i, feed.latest.value.number);
    h.Some? && h.value.hash != feed.latest.value.hash
  }

  /** A successful poll ends at the height of the latest header, and with its hash unless the provider contradicted
      that header; only a head below the first wanted height leaves an empty store. */
  lemma PollReachesHead(feed: Feed, config: Config, s: Store)
    requires Valid(s) && AncestorNumbered(feed, config, s) && Poll(feed, config, s).ok
    ensures var latest, t := feed.latest.value, Poll(feed, config, s).store;
            if s.cursor.None? && latest.number < config.eventStart then t == s
            else t.cursor.Some? && t.cursor.value.number == latest.number
                 && (t.cursor.value.hash == latest.hash || exists i :: ContradictsHead(feed, i))
  {
    hide Valid, CatchUp, Descend;
    var latest := feed.latest.value;
    if s.cursor.None? {
      var publish := latest.number + 1 <= config.eventStart + MAX_PUBLISHED_CATCH_UP_BLOCKS;
      BeforeContinues(config, s, config.eventStart);
      CatchUpKeepsValid(feed, s, 1, config.eventStart, latest, Before(config, s, config.eventStart), publish);
    } else {
      var oldHead := s.cursor.value;
      var publish := latest.number <= oldHead.number + MAX_PUBLISHED_CATCH_UP_BLOCKS;
      ReplayReachesHead(feed, config, s, 2, oldHead, latest);
      BeforeContinues(config, s, oldHead.number + 1);
      CatchUpKeepsValid(feed, s, 2, oldHead.number + 1, latest, Before(config, s, oldHead.number + 1), publish);
    }
  }

  lemma ReplayReachesHead(feed: Feed, config: Config, s: Store, tick: nat, oldHead: Block, newHead: Block)
    requires Valid(s) && feed.latest == Some(newHead)
    requires var r := FindCommonAncestor(feed, config, s, tick, oldHead, newHead); r.Found? ==> r.ancestor.number == r.height
    ensures var r := RewindAndReplay(feed, config, s, tick, oldHead, newHead);
            r.ok ==> r.store.cursor.Some? && r.store.cursor.value.number == newHead.number
                     && (r.store.cursor.value.hash == newHead.hash || exists i :: ContradictsHead(feed, i))
  {
    hide Valid, CatchUp, Descend;
    var height := Min(oldHead.number, newHead.number);
    var attempts := Min(config.maximumRewind + 1, height + 1);
    FoundMatches(feed, s, tick, height, attempts);
    var found := Descend(feed, s, tick, height, attempts);
    if found.Found? {
      var i: nat :| feed.header(i, found.height) == Some(found.ancestor);
      RewindValidIff(s, found.ancestor);
      var t := RewindTo(s, found.ancestor);
      var start := found.ancestor.number + 1;
      BeforeContinues(config, t, start);
      CatchUpKeepsValid(feed, t, found.tick + 2, start, newHead, Before(config, t, start), false);
      if start > newHead.number && found.ancestor.hash != newHead.hash { assert ContradictsHead(feed, i); }
    }
  }

  function Run(config: Config, s: Store, feeds: seq<Feed>): Store
    decreases |feeds|
  {
    if feeds == [] then s else Run(config, Poll(feeds[0], config, s).store, feeds[1..])
  }

  /** Every poll of the run meets a stored ancestor, if it rewinds. */
  ghost predicate AncestorsStored(config: Config, s: Store, feeds: seq<Feed>)
    decreases |feeds|
  {
    feeds == [] || (AncestorStored(feeds[0], config, s) && AncestorsStored(config, Poll(feeds[0], config, s).store, feeds[1..]))
  }

  /** Over every run of polls, with any other answers and any failures, stored blocks stay consecutive and linked. */
  lemma {:induction false} RunKeepsValid(config: Config, s: Store, feeds: seq<Feed>)
    requires Valid(s) && AncestorsStored(config, s, feeds)
    ensures Valid(Run(config, s, feeds))
    decreases |feeds|
  {
    hide Valid, Poll, AncestorStored;
    if feeds != [] {
      PollKeepsValid(feeds[0], config, s);
      RunKeepsValid(config, Poll(feeds[0], config, s).store, feeds[1..]);
    }
  }

  /** In particular, against providers that number their headers by the requested height. */
  lemma {:induction false} NumberedRun(config: Config, s: Store, feeds: seq<Feed>)
    requires forall i | 0 <= i < |feeds| :: Numbered(feeds[i])
    ensures AncestorsStored(config, s, feeds)
    decreases |feeds|
  {
    hide Poll, AncestorStored, AncestorNumbered, Numbered;
    if feeds != [] {
      NumberedAncestor(feeds[0], config, s);
      NumberedRun(config, Poll(feeds[0], config, s).store, feeds[1..]);
    }
  }

  /** The guard is needed: a header answered for height 1 that carries height 5 and the stored hash is taken as
      the common ancestor, and the poll succeeds with a cursor above every stored block. */
  lemma MisnumberedAncestor()
    ensures exists feed: Feed, config: Config, s: Store ::
              Valid(s) && Poll(feed, config, s).ok && !Valid(Poll(feed, config, s).store)
  {
    var one, two, fork := Block(1, 11, 10), Block(2, 12, 11), Block(2, 99, 98);
    var s := Store(map[1 := one, 2 := two], Some(two));
    var feed := Feed(Some(fork), (i, n) => if n == 1 then Some(Block(5, 11, 10)) else Some(fork), i => false);
    var config := Config(0, 10);
    assert Fits(s, 2, 1) && Fits(s, 2, 2);
    assert Valid(s);
    assert Descend(feed, s, 3, 1, 2) == Found(Block(5, 11, 10), 1, 4);
    assert Descend(feed, s, 2, 2, 3) == Found(Block(5, 11, 10), 1, 4);
    var r := Poll(feed, config, s);
    assert r.ok && r.store.cursor == Some(Block(5, 11, 10)) && 5 !in r.store.blocks;
  }

  // ---------------------------------------------------------------- a fixed, linked view

  /** The provider answers every request from one parent-linked chain. */
  ghost predicate FixedView(feed: Feed, view: nat -> Block) {
    && (forall i, n :: feed.header(i, n) == Some(view(n)))
    && (forall n :: view(n).number == n)
    && (forall n: nat :: view(n + 1).parent == view(n).hash)
    && feed.latest.Some? && feed.latest.value == view(feed.latest.value.number)
  }

  /** A hash determines its header. */
  ghost predicate HashBinds(s: Store, view: nat -> Block) {
    forall n, m | n in s.blocks && s.blocks[n].hash == view(m).hash :: s.blocks[n] == view(m)
  }

  ghost predicate Agrees(s: Store, view: nat -> Block) {
    forall n | n in s.blocks :: s.blocks[n].hash == view(n).hash
  }

  /** If the top block is the view's, so is everything below it. */
  lemma {:induction false} AgreesDown(s: Store, feed: Feed, view: nat -> Block, n: nat)
    requires Valid(s) && FixedView(feed, view) && HashBinds(s, view) && s.cursor.Some?
    requires s.cursor.value.hash == view(s.cursor.value.number).hash && n in s.blocks
    ensures n <= s.cursor.value.number && s.blocks[n].hash == view(n).hash
    decreases s.cursor.value.number - n
  {
    hide FixedView, HashBinds, Valid;
    ValidFits(s, n);
    if n < s.cursor.value.number {
      AgreesDown(s, feed, view, n + 1);
      ParentAgrees(s, feed, view, n);
    }
  }

  lemma ParentAgrees(s: Store, feed: Feed, view: nat -> Block, n: nat)
    requires FixedView(feed, view) && HashBinds(s, view)
    requires n in s.blocks && n + 1 in s.blocks && s.blocks[n + 1].parent == s.blocks[n].hash
    requires s.blocks[n + 1].hash == view(n + 1).hash
    ensures s.blocks[n].hash == view(n).hash
  {
    assert s.blocks[n + 1] == view(n + 1);
  }

  lemma TopAgrees(s: Store, feed: Feed, view: nat -> Block)
    requires Valid(s) && FixedView(feed, view) && HashBinds(s, view) && s.cursor.Some?
    requires s.cursor.value.hash == view(s.cursor.value.number).hash
    ensures Agrees(s, view)
  {
    hide Valid, FixedView, HashBinds;
    forall n | n in s.blocks
      ensures s.blocks[n].hash == view(n).hash
    {
      AgreesDown(s, feed, view, n);
    }
  }

  /** Catching up from an agreeing store stays on the view, and fails only where the feed does. */
  lemma {:induction false} CatchUpAgrees(feed: Feed, view: nat -> Block, s: Store, tick: nat, number: nat, latest: Block,
                                         previous: Option<Block>, publish: bool)
    requires FixedView(feed, view) && Agrees(s, view) && latest == view(latest.number)
    requires previous.Some? ==> previous.value.number + 1 == number && previous.value.hash == view(number - 1).hash
    ensures var r := CatchUp(feed, s, tick, number, latest, previous, publish);
            Agrees(r.store, view) && ((forall i :: !feed.fault(i)) ==> r.ok)
    decreases latest.number + 1 - number
  {
    hide FixedView, Agrees;
    if number <= latest.number {
      var block := view(number);
      ViewAnswers(feed, view, tick, number);
      ApplyAgrees(s, view, block);
      CatchUpAgrees(feed, view, Apply(s, block), tick + 3, number + 1, latest, Some(block), publish);
    }
  }

  lemma ViewAnswers(feed: Feed, view: nat -> Block, tick: nat, n: nat)
    requires FixedView(feed, view)
    ensures feed.header(tick, n) == Some(view(n)) && view(n).number == n
    ensures n > 0 ==> view(n).parent == view(n - 1).hash
  {
    if n > 0 { assert view(n - 1 + 1).parent == view(n - 1).hash; }
  }

  lemma ApplyAgrees(s: Store, view: nat -> Block, block: Block)
    requires Agrees(s, view) && block == view(block.number)
    ensures Agrees(Apply(s, block), view)
  {
  }

  ghost predicate Synchronised(s: Store, view: nat -> Block, latest: Block) {
    && s.cursor.Some? && s.cursor.value.number == latest.number && s.cursor.value.hash == latest.hash
    && Agrees(s, view)
  }

  lemma ReplaySynchronises(feed: Feed, view: nat -> Block, config: Config, s: Store, tick: nat, oldHead: Block, newHead: Block)
    requires Valid(s) && FixedView(feed, view) && HashBinds(s, view) && newHead == view(newHead.number)
    ensures var r := RewindAndReplay(feed, config, s, tick, oldHead, newHead);
            && (r.ok ==> Synchronised(r.store, view, newHead))
            && ((forall i :: !feed.fault(i)) && !r.ok ==> NothingAgrees(config, s, view, oldHead, newHead))
  {
    hide Valid, CatchUp, Descend, FixedView, HashBinds, Synchronised, HighestAgreeing, NothingAgrees;
    var height := Min(oldHead.number, newHead.number);
    var attempts := Min(config.maximumRewind + 1, height + 1);
    SearchInView(feed, view, s, tick, height, attempts);
    var found := Descend(feed, s, tick, height, attempts);
    if found.Found? {
      FoundInView(view, s, height, attempts, found);
      ViewAnswers(feed, view, 0, found.height);
      ReplayFromAgrees(feed, view, config, s, found.tick + 2, found.ancestor, newHead);
      if feed.fault(found.tick) || feed.fault(found.tick + 1) {
        assert !forall i :: !feed.fault(i);
      }
    } else {
      assert NothingAgrees(config, s, view, oldHead, newHead) by { DeepMeansNothing(config, s, view, oldHead, newHead, found); }
    }
  }

  lemma SearchInView(feed: Feed, view: nat -> Block, s: Store, tick: nat, height: nat, attempts: nat)
    requires FixedView(feed, view) && attempts <= height + 1
    ensures HighestAgreeing(view, s, height, attempts, Descend(feed, s, tick, height, attempts))
  {
    hide HighestAgreeing, Descend;
    AncestorIsHighest(feed, view, s, tick, height, attempts);
  }

  lemma FoundInView(view: nat -> Block, s: Store, height: nat, attempts: nat, r: Search)
    requires r.Found? && HighestAgreeing(view, s, height, attempts, r)
    ensures r.height in s.blocks && r.height <= height && r.ancestor == view(r.height) && s.blocks[r.height].hash == view(r.height).hash
  {
  }

  lemma DeepMeansNothing(config: Config, s: Store, view: nat -> Block, oldHead: Block, newHead: Block, r: Search)
    requires var height := Min(oldHead.number, newHead.number);
             !r.Found? && HighestAgreeing(view, s, height, Min(config.maximumRewind + 1, height + 1), r)
    ensures NothingAgrees(config, s, view, oldHead, newHead)
  {
  }

  lemma RewindBinds(s: Store, view: nat -> Block, a: Block)
    requires HashBinds(s, view)
    ensures HashBinds(RewindTo(s, a), view)
  {
    var t := RewindTo(s, a);
    forall n, m | n in t.blocks && t.blocks[n].hash == view(m).hash
      ensures t.blocks[n] == view(m)
    {
      assert s.blocks[n] == t.blocks[n];
    }
  }

  /** Rewinding to an agreeing ancestor and catching up synchronises the store. */
  lemma ReplayFromAgrees(feed: Feed, view: nat -> Block, config: Config, s: Store, tick: nat, a: Block, newHead: Block)
    requires Valid(s) && FixedView(feed, view) && HashBinds(s, view) && newHead == view(newHead.number)
    requires a.number in s.blocks && a == view(a.number) && s.blocks[a.number].hash == a.hash && a.number <= newHead.number
    ensures var r := CatchUpFrom(feed, config, RewindTo(s, a), tick, a.number + 1, newHead, false);
            (r.ok ==> Synchronised(r.store, view, newHead)) && ((forall i :: !feed.fault(i)) ==> r.ok)
  {
    hide Valid, CatchUp, FixedView, HashBinds;
    var t := RewindTo(s, a);
    RewindValidIff(s, a);
    RewindBinds(s, view, a);
    TopAgrees(t, feed, view);
    BeforeContinues(config, t, a.number + 1);
    var previous := Before(config, t, a.number + 1);
    CatchUpKeepsValid(feed, t, tick, a.number + 1, newHead, previous, false);
    CatchUpAgrees(feed, view, t, tick, a.number + 1, newHead, previous, false);
  }

  /** No stored height in the rewind window has the view's hash. */
  ghost predicate NothingAgrees(config: Config, s: Store, view: nat -> Block, oldHead: Block, newHead: Block) {
    var height := Min(oldHead.number, newHead.number);
    forall n: nat | height - Min(config.maximumRewind + 1, height + 1) < n <= height && n in s.blocks ::
      s.blocks[n].hash != view(n).hash
  }

  /** Against one linked view, a successful poll leaves the cursor at the view's head and every stored block equal
      to the view's, unless the head is still below the first wanted height; without faults it fails only when no stored height in the rewind window agrees. */
  lemma PollSynchronises(feed: Feed, view: nat -> Block, config: Config, s: Store)
    requires Valid(s) && FixedView(feed, view) && HashBinds(s, view)
    ensures var r := Poll(feed, config, s);
            && (r.ok ==> if s.cursor.None? && feed.latest.value.number < config.eventStart then r.store == s
                         else Synchronised(r.store, view, feed.latest.value))
            && ((forall i :: !feed.fault(i)) && !r.ok ==>
                  s.cursor.Some? && NothingAgrees(config, s, view, s.cursor.value, feed.latest.value))
  {
    hide Valid, CatchUp, RewindAndReplay, NothingAgrees;
    var latest := feed.latest.value;
    if s.cursor.None? {
      var publish := latest.number + 1 <= config.eventStart + MAX_PUBLISHED_CATCH_UP_BLOCKS;
      NothingStored(s, view);
      BeforeContinues(config, s, config.eventStart);
      CatchUpKeepsValid(feed, s, 1, config.eventStart, latest, Before(config, s, config.eventStart), publish);
      CatchUpAgrees(feed, view, s, 1, config.eventStart, latest, Before(config, s, config.eventStart), publish);
    } else {
      var oldHead := s.cursor.value;
      assert feed.header(1, oldHead.number) == Some(view(oldHead.number));
      assert view(oldHead.number + 1).parent == view(oldHead.number).hash;
      ReplaySynchronises(feed, view, config, s, 2, oldHead, latest);
      if oldHead.hash == view(oldHead.number).hash {
        var publish := latest.number <= oldHead.number + MAX_PUBLISHED_CATCH_UP_BLOCKS;
        TopAgrees(s, feed, view);
        BeforeContinues(config, s, oldHead.number + 1);
        var previous := Before(config, s, oldHead.number + 1);
        CatchUpKeepsValid(feed, s, 2, oldHead.number + 1, latest, previous, publish);
        CatchUpAgrees(feed, view, s, 2, oldHead.number + 1, latest, previous, publish);
      }
    }
  }

  lemma NothingStored(s: Store, view: nat -> Block)
    requires Valid(s) && s.cursor.None?
    ensures Agrees(s, view)
  {
  }

  // ---------------------------------------------------------------- the mutable ingestion owner

  class Ingestion {
    const config: Config
    var blocks: map<nat, Block>
    var cursor: Option<Block>
    var tick: nat

    function Value(): Store
      reads this
    {
      Store(blocks, cursor)
    }

    constructor (config: Config)
      ensures this.config == config && Value() == Store(map[], None) && Valid(Value())
    {
      this.config, blocks, cursor, tick := config, map[], None, 0;
    }

    method ApplyBlock(block: Block)
      modifies `blocks, `cursor
      ensures Value() == Apply(old(Value()), block)
    {
      blocks := blocks[block.number := block];
      cursor := Some(block);
    }

    method RewindToAncestor(ancestor: Block)
      modifies `blocks, `cursor
      ensures Value() == RewindTo(old(Value()), ancestor)
    {
      blocks := map n | n in blocks && n <= ancestor.number :: blocks[n];
      cursor := Some(ancestor);
    }

    /** Fetches, checks, stores and announces one block; `None` when a step fails. */
    method IngestBlock(feed: Feed, number: nat, latest: Block, previous: Option<Block>, publish: bool) returns (stored: Option<Block>)
      requires number <= latest.number
      modifies this
      ensures CatchUp(feed, old(Value()), old(tick), number, latest, previous, publish) ==
              if stored.None? then Progress(Value(), tick, false)
              else CatchUp(feed, Value(), tick, number + 1, latest, stored, publish)
    {
      var answer := if number == latest.number then Some(latest) else feed.header(tick, number);
      tick := tick + 1;
      if answer.None? || feed.fault(tick - 1) { return None; }
      var block := answer.value;
      if previous.Some? && (block.number != previous.value.number + 1 || block.parent != previous.value.hash) { return None; }
      tick := tick + 1;
      if feed.fault(tick - 1) { return None; }
      ApplyBlock(block);
      tick := tick + 1;
      if publish && feed.fault(tick - 1) { return None; }
      return Some(block);
    }

    /** The catch-up loop carries the previous block. */
    method CatchUpBlocks(feed: Feed, start: nat, latest: Block, publish: bool) returns (ok: bool)
      modifies this
      ensures Progress(Value(), tick, ok) == CatchUpFrom(feed, config, old(Value()), old(tick), start, latest, publish)
    {
      hide CatchUp;
      if start > latest.number { return true; }
      var previous := Before(config, Value(), start);
      var number := start;
      while number <= latest.number
        invariant CatchUp(feed, Value(), tick, number, latest, previous, publish) ==
                  CatchUpFrom(feed, config, old(Value()), old(tick), start, latest, publish)
        decreases latest.number + 1 - number
      {
        var stored := IngestBlock(feed, number, latest, previous, publish);
        if stored.None? { return false; }
        previous, number := stored, number + 1;
      }
      CaughtUp(feed, Value(), tick, number, latest, previous, publish);
      return true;
    }

    /** The bounded descending search. */
    method FindAncestor(feed: Feed, oldHead: Block, newHead: Block) returns (r: Search)
      modifies `tick
      ensures r == FindCommonAncestor(feed, config, Value(), old(tick), oldHead, newHead) && r.tick == tick
    {
      var highest := Min(oldHead.number, newHead.number);
      var attempts := Min(config.maximumRewind + 1, highest + 1);
      var distance := 0;
      while distance < attempts
        invariant 0 <= distance <= attempts <= highest + 1
        invariant FindCommonAncestor(feed, config, Value(), old(tick), oldHead, newHead) ==
                  if distance == attempts then Deep(tick) else Descend(feed, Value(), tick, highest - distance, attempts - distance)
      {
        var number := highest - distance;
        if number in blocks {
          var remote := feed.header(tick, number);
          tick := tick + 1;
          if remote.None? { return Broken(tick); }
          if remote.value.hash == blocks[number].hash { return Found(remote.value, number, tick); }
        }
        distance := distance + 1;
      }
      return Deep(tick);
    }

    method RewindAndReplayFrom(feed: Feed, oldHead: Block, newHead: Block) returns (ok: bool)
      modifies this
      ensures Progress(Value(), tick, ok) == RewindAndReplay(feed, config, old(Value()), old(tick), oldHead, newHead)
    {
      hide CatchUp, Descend;
      var found := FindAncestor(feed, oldHead, newHead);
      if !found.Found? { return false; }
      tick := tick + 1;
      if feed.fault(tick - 1) { return false; }
      RewindToAncestor(found.ancestor);
      tick := tick + 1;
      if feed.fault(tick - 1) { return false; }
      ok := CatchUpBlocks(feed, found.ancestor.number + 1, newHead, false);
    }

    /** One poll; every poll numbers its requests afresh. */
    method PollOnce(feed: Feed) returns (ok: bool)
      modifies this
      ensures Progress(Value(), tick, ok) == Poll(feed, config, old(Value()))
    {
      hide CatchUp, Descend;
      tick := 1;
      if feed.latest.None? || feed.fault(0) { return false; }
      var latest := feed.latest.value;
      if cursor.None? {
        ok := CatchUpBlocks(feed, config.eventStart, latest, latest.number + 1 <= config.eventStart + MAX_PUBLISHED_CATCH_UP_BLOCKS);
      } else {
        var oldHead := cursor.value;
        var canonical := StillCanonical(feed, tick, oldHead, latest);
        tick := tick + 1;
        if canonical.None? { return false; }
        if !canonical.value || (latest.number == oldHead.number && latest.hash != oldHead.hash) {
          ok := RewindAndReplayFrom(feed, oldHead, latest);
        } else if latest.number > oldHead.number {
          ok := CatchUpBlocks(feed, oldHead.number + 1, latest, latest.number <= oldHead.number + MAX_PUBLISHED_CATCH_UP_BLOCKS);
        } else {
          ok := true;
        }
      }
      if ok && feed.fault(tick) {
        tick := tick + 1;
        ok := false;
      }
    }
  }
}
