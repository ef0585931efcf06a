/**
 Executed-block markers and the garbage collection of states (core/blockchain.go: writeBlockWithState,
 writeKnownBlock, adoptHead, HasExecutedBlock).
 */
module Execution {
  import opened Options

  type Hash = nat
  type Root = nat

  /** The root of the empty state, which always opens. */
  const EMPTY_ROOT: Root := 0

  /** core/blockchain.go: how many recent states stay in memory. */
  const TRIES_IN_MEMORY := 1024

  datatype Block = Block(number: nat, root: Root, parent: Hash)

  datatype Entry = Entry(root: Root, hash: Hash, number: nat)

  /** States in memory with the number of references to them, and states on disk. */
  datatype Tries = Tries(dirty: map<Root, nat>, disk: set<Root>)

  /** HasState. */
  predicate Readable(t: Tries, r: Root) { r == EMPTY_ROOT || r in t.dirty || r in t.disk }

  function Insert(t: Tries, r: Root): Tries {
    if Readable(t, r) then t else t.(dirty := t.dirty[r := 0])
  }

  function Reference(t: Tries, r: Root): Tries {
    if r in t.dirty then t.(dirty := t.dirty[r := t.dirty[r] + 1]) else t
  }

  function Dereference(t: Tries, r: Root): Tries {
    if r !in t.dirty then t
    else if t.dirty[r] <= 1 then t.(dirty := t.dirty - {r})
    else t.(dirty := t.dirty[r := t.dirty[r] - 1])
  }

  /** Commit of the trie database, and what Cap does to some states: they move to disk. */
  function Flush(t: Tries, rs: set<Root>): Tries {
    Tries(t.dirty - rs, t.disk + (t.dirty.Keys * rs))
  }

  /**
   The blocks, the markers, the states, the queue of states to collect ordered by height, the head, and which blocks
   were ever executed with every commit successful.
   */
  datatype Store = Store(
    blocks: map<Hash, Block>,
    markers: set<Hash>,
    tries: Tries,
    queue: seq<Entry>,
    head: Hash,
    executed: set<Hash>)

  /** HasExecutedBlock; the trading and lending states of a block are told by whoever asks. */
  predicate HasExecuted(s: Store, h: Hash, auxiliary: bool) {
    h in s.markers && h in s.blocks && Readable(s.tries, s.blocks[h].root) && auxiliary
  }

  // ----- writing a block

  /** Which commit of a write fails, if any. */
  datatype Fault = NoFault | StateCommit | TradingCommit | LendingCommit | ArchiveCommit | MarkerWrite

  /** How a node keeps states: it flushes all, or collects them and flushes some. */
  datatype Keeping = Archive | Full(capped: set<Root>, flushed: set<Root>)

  /** The queue is ordered by height; an entry goes behind those of its own height. */
  function Enqueue(queue: seq<Entry>, e: Entry): seq<Entry> {
    if queue == [] || queue[|queue| - 1].number <= e.number then queue + [e]
    else Enqueue(queue[..|queue| - 1], e) + [queue[|queue| - 1]]
  }

  /**
   The collection loop: states below the retained height lose a reference, and with an unreadable state goes the
   marker.
   */
  function Collect(s: Store, chosen: nat): Store
    decreases |s.queue|
  {
    if s.queue == [] || s.queue[0].number > chosen then s
    else Collect(CollectOne(s), chosen)
  }

  function CollectOne(s: Store): Store
    requires s.queue != []
  {
    var e := s.queue[0];
    var tries := Dereference(s.tries, e.root);
    s.(queue := s.queue[1..], tries := tries, markers := if Readable(tries, e.root) then s.markers
        else s.markers - {e.hash})
  }

  function KeepState(s: Store, h: Hash, b: Block, keeping: Keeping): Store {
    match keeping
    case Archive => s.(tries := Flush(s.tries, {b.root}))
    case Full(capped, flushed) =>
      var referenced := s.(tries := Reference(s.tries, b.root), queue := Enqueue(s.queue, Entry(b.root, h, b.number)));
      if b.number <= TRIES_IN_MEMORY then referenced
      else Collect(referenced.(tries := Flush(referenced.tries, capped + flushed)), b.number - TRIES_IN_MEMORY)
  }

  /** writeBlockWithState up to the marker, which is written last. */
  function WriteBlock(s: Store, h: Hash, b: Block, keeping: Keeping, fault: Fault): Store {
    var stored := s.(blocks := s.blocks[h := b]);
    if fault == StateCommit then stored
    else
      var committed := stored.(tries := Insert(stored.tries, b.root));
      if fault == TradingCommit || fault == LendingCommit || (fault == ArchiveCommit && keeping.Archive?) then committed
      else
        var kept := KeepState(committed, h, b, keeping);
        if fault == MarkerWrite then kept
        else kept.(markers := kept.markers + {h}, executed := kept.executed + {h})
  }

  /** Whether a write gets through all its commits. */
  predicate Succeeds(keeping: Keeping, fault: Fault) {
    fault == NoFault || (fault == ArchiveCommit && keeping.Full?)
  }

  // ----- the head

  /** Whether p is a proper ancestor of h, by parents that are stored. */
  predicate Ancestor(blocks: map<Hash, Block>, p: Hash, h: Hash)
    decreases if h in blocks then blocks[h].number else 0
  {
    && h in blocks && blocks[h].parent in blocks && blocks[blocks[h].parent].number < blocks[h].number
    && (blocks[h].parent == p || Ancestor(blocks, p, blocks[h].parent))
  }

  /** A block that a reorganisation to h promotes on its way: it is on the new chain and not on the current one. */
  predicate Promotable(s: Store, p: Hash, h: Hash) {
    Ancestor(s.blocks, p, h) && p != s.head && !Ancestor(s.blocks, p, s.head)
  }

  /**
   What becomes of a block that may win the fork choice: it loses; it becomes the head; adoptHead returns an error
   before anything moves; or the reorganisation stops with an error after it promoted an ancestor, because the body
   of the next block is missing (HeadStops.StopIsPromotable).
   */
  datatype Adoption = Lost | Adopted | Refused | StoppedAt(promoted: Hash)

  function AdoptHead(s: Store, h: Hash, adoption: Adoption): Store {
    match adoption
    case Lost => s
    case Refused => s
    case Adopted => s.(head := h)
    case StoppedAt(p) => if Promotable(s, p, h) then s.(head := p) else s
  }

  /** writeKnownBlock. */
  function AdoptKnown(s: Store, h: Hash, auxiliary: bool, adoption: Adoption): Store {
    if HasExecuted(s, h, auxiliary) then AdoptHead(s, h, adoption) else s
  }

  // ----- the invariant

  function Count(queue: seq<Entry>, r: Root): nat {
    if queue == [] then 0 else (if queue[0].root == r then 1 else 0) + Count(queue[1..], r)
  }

  /**
   Every reference to a state in memory is a queued block, queued states are readable, and queued blocks stored with
   their roots.
   */
  predicate StoredAs(s: Store, e: Entry) {
    e.hash in s.blocks && s.blocks[e.hash].number == e.number && s.blocks[e.hash].root == e.root
  }

  ghost predicate Counted(s: Store) {
    && (forall r | r in s.tries.dirty :: s.tries.dirty[r] == Count(s.queue, r))
    && (forall i | 0 <= i < |s.queue| :: Readable(s.tries, s.queue[i].root))
    && (forall i | 0 <= i < |s.queue| :: StoredAs(s, s.queue[i]))
  }

  /** Every marked block is stored and was executed with all its commits successful. */
  ghost predicate Marked(s: Store) {
    forall h | h in s.markers :: h in s.blocks && h in s.executed
  }

  ghost predicate Valid(s: Store) { Counted(s) && Marked(s) }

  /** A hash names one block. */
  predicate Agrees(s: Store, h: Hash, b: Block) { h in s.blocks ==> s.blocks[h] == b }

  lemma {:induction false} CountAppend(a: seq<Entry>, b: seq<Entry>, r: Root)
    ensures Count(a + b, r) == Count(a, r) + Count(b, r)
    decreases |a|
  {
    if a == [] {
      assert a + b == b;
    } else {
      assert (a + b)[1..] == a[1..] + b;
      CountAppend(a[1..], b, r);
    }
  }

  lemma {:induction false} EnqueueCounts(queue: seq<Entry>, e: Entry, r: Root)
    ensures Count(Enqueue(queue, e), r) == Count(queue, r) + if e.root == r then 1 else 0
    decreases |queue|
  {
    CountAppend(queue, [e], r);
    if queue != [] {
      var n := |queue| - 1;
      assert queue == queue[..n] + [queue[n]];
      EnqueueCounts(queue[..n], e, r);
      CountAppend(Enqueue(queue[..n], e), [queue[n]], r);
      CountAppend(queue[..n], [queue[n]], r);
    }
  }

  lemma {:induction false} EnqueueMembers(queue: seq<Entry>, e: Entry)
    ensures forall x | x in Enqueue(queue, e) :: x == e || x in queue
    decreases |queue|
  {
    if queue != [] && queue[|queue| - 1].number > e.number {
      EnqueueMembers(queue[..|queue| - 1], e);
    }
  }

  lemma CollectOneKeeps(s: Store)
    requires Valid(s) && s.queue != []
    ensures Valid(CollectOne(s))
    ensures var r := CollectOne(s); forall h | h in s.markers && h !in r.markers ::
      h in s.blocks && !Readable(r.tries, s.blocks[h].root)
  {
    var r := CollectOne(s);
    forall x | x in r.tries.dirty ensures r.tries.dirty[x] == Count(r.queue, x) {
      assert Count(s.queue, x) == (if s.queue[0].root == x then 1 else 0) + Count(s.queue[1..], x);
    }
    assert s.queue[0].hash in s.blocks;
    forall i | 0 <= i < |r.queue| ensures Readable(r.tries, r.queue[i].root) {
      assert r.queue[i] == s.queue[i + 1];
      CountMember(r.queue, i);
    }
  }

  lemma {:induction false} CountMember(queue: seq<Entry>, i: nat)
    requires i < |queue|
    ensures Count(queue, queue[i].root) > 0
    decreases i
  {
    if i > 0 {
      CountMember(queue[1..], i - 1);
    }
  }

  lemma {:induction false} CountNone(queue: seq<Entry>, r: Root)
    requires forall i | 0 <= i < |queue| :: queue[i].root != r
    ensures Count(queue, r) == 0
    decreases |queue|
  {
    if queue != [] {
      CountNone(queue[1..], r);
    }
  }

  /** Nothing becomes readable again, and no state on disk is lost, by collecting. */
  ghost predicate Fades(a: Tries, b: Tries) {
    b.disk == a.disk && b.dirty.Keys <= a.dirty.Keys
  }

  /** Garbage collection never drops the marker of a block whose state is still readable, in any order of heights. */
  lemma {:induction false} CollectKeeps(s: Store, chosen: nat)
    requires Valid(s)
    ensures var r := Collect(s, chosen);
      && Valid(r) && r.blocks == s.blocks && r.head == s.head && r.executed == s.executed && r.markers <= s.markers
      && Fades(s.tries, r.tries)
      && (forall h | h in s.markers && h !in r.markers :: h in s.blocks && !Readable(r.tries, s.blocks[h].root))
    decreases |s.queue|
  {
    if s.queue != [] && s.queue[0].number <= chosen {
      CollectOneKeeps(s);
      hide Valid, CollectOne;
      CollectedFields(s);
      CollectKeeps(CollectOne(s), chosen);
    }
  }

  lemma CollectedFields(s: Store)
    requires s.queue != []
    ensures var r := CollectOne(s);
      && r.blocks == s.blocks && r.head == s.head && r.executed == s.executed && r.markers <= s.markers
      && Fades(s.tries, r.tries)
      && r.queue == s.queue[1..]
  {
  }

  lemma ReferencedKeeps(s: Store, h: Hash, b: Block)
    requires Valid(s) && h in s.blocks && s.blocks[h] == b && Readable(s.tries, b.root)
    ensures Valid(s.(tries := Reference(s.tries, b.root), queue := Enqueue(s.queue, Entry(b.root, h, b.number))))
  {
    var e := Entry(b.root, h, b.number);
    var r := s.(tries := Reference(s.tries, b.root), queue := Enqueue(s.queue, e));
    forall x | x in r.tries.dirty ensures r.tries.dirty[x] == Count(r.queue, x) {
      EnqueueCounts(s.queue, e, x);
    }
    EnqueueMembers(s.queue, e);
    forall i | 0 <= i < |r.queue| ensures StoredAs(r, r.queue[i]) {
      assert r.queue[i] in r.queue;
    }
    forall i | 0 <= i < |r.queue| ensures Readable(r.tries, r.queue[i].root) {
      assert r.queue[i] in r.queue;
    }
  }

  lemma KeepStateKeeps(s: Store, h: Hash, b: Block, keeping: Keeping)
    requires Valid(s) && h in s.blocks && s.blocks[h] == b && Readable(s.tries, b.root)
    ensures var r := KeepState(s, h, b, keeping);
      && Valid(r) && r.blocks == s.blocks && r.executed == s.executed && r.head == s.head && r.markers <= s.markers
      && (forall x | x in s.markers && x !in r.markers :: !Readable(r.tries, s.blocks[x].root))
  {
    hide Enqueue, Collect;
    if keeping.Full? {
      ReferencedKeeps(s, h, b);
      var referenced := s.(tries := Reference(s.tries, b.root), queue := Enqueue(s.queue, Entry(b.root, h, b.number)));
      if b.number > TRIES_IN_MEMORY {
        CollectKeeps(referenced.(tries := Flush(referenced.tries, keeping.capped + keeping.flushed)),
                     b.number - TRIES_IN_MEMORY);
      }
    }
  }

  /**
   Writing a block, with any commit failing: markers stand for executions with every commit successful, a block is
   marked by a write exactly when the write gets through or it was marked before and its state is still readable.
   */
  lemma WriteKeeps(s: Store, h: Hash, b: Block, keeping: Keeping, fault: Fault)
    requires Valid(s) && Agrees(s, h, b)
    ensures var r := WriteBlock(s, h, b, keeping, fault);
      && Valid(r) && r.head == s.head && h in r.blocks
      && (forall x | x in s.blocks :: x in r.blocks && r.blocks[x] == s.blocks[x])
      && (Succeeds(keeping, fault) ==> h in r.markers)
      && (forall x | x in r.markers && x !in s.markers :: x == h && Succeeds(keeping, fault))
      && (forall x | x in s.markers && x !in r.markers :: !Readable(r.tries, r.blocks[x].root))
  {
    var stored := s.(blocks := s.blocks[h := b]);
    assert Valid(stored);
    var committed := stored.(tries := Insert(stored.tries, b.root));
    assert Valid(committed) by { InsertKeeps(stored, b.root); }
    KeepStateKeeps(committed, h, b, keeping);
    hide KeepState, Counted;
    var kept := KeepState(committed, h, b, keeping);
    if fault != StateCommit && Succeeds(keeping, fault) {
      MarkKeeps(kept, h);
    }
  }

  lemma InsertKeeps(s: Store, r: Root)
    requires Valid(s)
    ensures Valid(s.(tries := Insert(s.tries, r)))
  {
    if !Readable(s.tries, r) {
      CountNone(s.queue, r);
    }
  }

  lemma MarkKeeps(s: Store, h: Hash)
    requires Valid(s) && h in s.blocks
    ensures Valid(s.(markers := s.markers + {h}, executed := s.executed + {h}))
  {
  }

  lemma {:induction false} Enqueued(queue: seq<Entry>, e: Entry) returns (i: nat)
    ensures i < |Enqueue(queue, e)| && Enqueue(queue, e)[i] == e
    decreases |queue|
  {
    i := |queue|;
    if queue != [] && queue[|queue| - 1].number > e.number {
      i := Enqueued(queue[..|queue| - 1], e);
    }
  }

  lemma {:induction false} CollectLeaves(s: Store, chosen: nat, i: nat) returns (j: nat)
    requires i < |s.queue| && s.queue[i].number > chosen
    ensures var r := Collect(s, chosen); j < |r.queue| && r.queue[j] == s.queue[i]
    decreases |s.queue|
  {
    j := i;
    if s.queue[0].number <= chosen {
      hide Dereference, Readable;
      j := CollectLeaves(CollectOne(s), chosen, i - 1);
    }
  }

  lemma KeptReadable(s: Store, h: Hash, b: Block, keeping: Keeping)
    requires Valid(s) && h in s.blocks && s.blocks[h] == b && Readable(s.tries, b.root)
    ensures Readable(KeepState(s, h, b, keeping).tries, b.root)
  {
    hide Valid, Collect, Enqueue, Reference;
    KeepStateKeeps(s, h, b, keeping);
    var r := KeepState(s, h, b, keeping);
    if keeping.Full? {
      var e := Entry(b.root, h, b.number);
      var i := Enqueued(s.queue, e);
      if b.number > TRIES_IN_MEMORY {
        var flushed := Flush(Reference(s.tries, b.root), keeping.capped + keeping.flushed);
        var referenced := s.(tries := flushed, queue := Enqueue(s.queue, e));
        i := CollectLeaves(referenced, b.number - TRIES_IN_MEMORY, i);
      }
      QueuedReadable(r, i);
    }
  }

  /** The state of a block that was just written is readable: its own reference is not collected with the old ones. */
  lemma WrittenReadable(s: Store, h: Hash, b: Block, keeping: Keeping, fault: Fault)
    requires Valid(s) && Agrees(s, h, b) && Succeeds(keeping, fault)
    ensures var r := WriteBlock(s, h, b, keeping, fault); HasExecuted(r, h, true)
  {
    WriteKeeps(s, h, b, keeping, fault);
    var stored := s.(blocks := s.blocks[h := b]);
    assert Valid(stored);
    InsertKeeps(stored, b.root);
    InsertReads(stored.tries, b.root);
    KeptReadable(stored.(tries := Insert(stored.tries, b.root)), h, b, keeping);
    hide Valid, KeepState, Insert, Readable;
    KeepStateBlocks(stored.(tries := Insert(stored.tries, b.root)), h, b, keeping);
  }

  lemma KeepStateBlocks(s: Store, h: Hash, b: Block, keeping: Keeping)
    requires Valid(s) && h in s.blocks && s.blocks[h] == b && Readable(s.tries, b.root)
    ensures KeepState(s, h, b, keeping).blocks == s.blocks
  {
    KeepStateKeeps(s, h, b, keeping);
  }

  lemma InsertReads(t: Tries, r: Root)
    ensures Readable(Insert(t, r), r)
  {
  }

  lemma QueuedReadable(s: Store, i: nat)
    requires Valid(s)
    ensures i < |s.queue| ==> Readable(s.tries, s.queue[i].root)
  {
  }

  // ----- runs

  datatype Event =
    | Write(hash: Hash, block: Block, keeping: Keeping, fault: Fault, adoption: Adoption)
    | Known(hash: Hash, auxiliary: bool, adoption: Adoption)

  /** A block is written on top of a stored one, and a hash that names another block is not written. */
  predicate Writable(s: Store, h: Hash, b: Block) {
    b.parent in s.blocks && b.number == s.blocks[b.parent].number + 1 && Agrees(s, h, b)
  }

  function Step(s: Store, e: Event): Store {
    match e
    case Known(h, auxiliary, adoption) => AdoptKnown(s, h, auxiliary, adoption)
    case Write(h, b, keeping, fault, adoption) =>
      if !Writable(s, h, b) then s
      else
        var r := WriteBlock(s, h, b, keeping, fault);
        if Succeeds(keeping, fault) then AdoptHead(r, h, adoption) else r
  }

  function Run(s: Store, events: seq<Event>): Store
    decreases |events|
  {
    if events == [] then s else Run(Step(s, events[0]), events[1..])
  }

  lemma HeadAside(s: Store, h: Hash, adoption: Adoption)
    ensures Valid(s) ==> Valid(AdoptHead(s, h, adoption))
  {
  }

  /**
   One step: a completed adoption moves the head only to a marked block with a readable state, a stopped one only to
   an ancestor on the new chain, and a marker goes only with its state.
   */
  lemma StepSafe(s: Store, e: Event)
    requires Valid(s)
    ensures var r := Step(s, e);
      && Valid(r)
      && (r.head != s.head ==>
            if e.adoption.Adopted? then r.head == e.hash && HasExecuted(r, r.head, true) && r.head in r.executed
            else e.adoption.StoppedAt? && r.head == e.adoption.promoted && Ancestor(r.blocks, r.head, e.hash))
      && (forall h | h in r.markers && h !in s.markers :: e.Write? && e.hash == h && Succeeds(e.keeping, e.fault))
      && (forall h | h in s.markers && h !in r.markers :: h in r.blocks && !Readable(r.tries, r.blocks[h].root))
  {
    HeadAside(s, e.hash, e.adoption);
    HeadAside(if e.Write? then WriteBlock(s, e.hash, e.block, e.keeping, e.fault) else s, e.hash, e.adoption);
    hide WriteBlock, Counted, Ancestor;
    if e.Write? && Writable(s, e.hash, e.block) {
      WriteKeeps(s, e.hash, e.block, e.keeping, e.fault);
      if Succeeds(e.keeping, e.fault) {
        WrittenReadable(s, e.hash, e.block, e.keeping, e.fault);
      }
    }
  }

  /**
   An executed block can be adopted safely however the adoption ends exactly if every ancestor it would promote was
   executed.
   */
  lemma StopIsSafe(s: Store, h: Hash)
    requires HasExecuted(s, h, true)
    ensures (forall p | Promotable(s, p, h) :: HasExecuted(s, p, true)) <==>
      forall adoption: Adoption :: var r := AdoptHead(s, h, adoption); r.head == s.head || HasExecuted(r, r.head, true)
  {
    hide Ancestor;
    forall p | Promotable(s, p, h) && !HasExecuted(s, p, true)
      ensures var r := AdoptHead(s, h, StoppedAt(p)); r.head != s.head && !HasExecuted(r, r.head, true)
    {
    }
  }

  /**
   In every run, with any commit failing at any point, every marked block was written by an event whose commits all
   succeeded.
   */
  lemma {:induction false} RunSafe(s: Store, events: seq<Event>, h: Hash)
    requires Valid(s)
    ensures Valid(Run(s, events))
    ensures h in Run(s, events).markers ==>
      h in s.markers ||
      exists i ::
        0 <= i < |events| && events[i].Write? && events[i].hash == h && Succeeds(events[i].keeping, events[i].fault)
    decreases |events|
  {
    hide Valid, Step;
    if events != [] {
      StepSafe(s, events[0]);
      var rest := events[1..];
      RunSafe(Step(s, events[0]), rest, h);
      if i :| 0 <= i < |rest| && rest[i].Write? && rest[i].hash == h && Succeeds(rest[i].keeping, rest[i].fault) {
        assert events[i + 1] == rest[i];
      }
    }
  }

  // ----- the lifetime of markers

  /** How many queued entries a collection takes. */
  function Taken(queue: seq<Entry>, chosen: nat): (n: nat)
    ensures n <= |queue|
  {
    if queue == [] || queue[0].number > chosen then 0 else 1 + Taken(queue[1..], chosen)
  }

  lemma {:induction false} UntakenStays(s: Store, chosen: nat, r: Root)
    requires Readable(s.tries, r) && forall i | 0 <= i < Taken(s.queue, chosen) :: s.queue[i].root != r
    ensures Readable(Collect(s, chosen).tries, r)
    decreases |s.queue|
  {
    if s.queue != [] && s.queue[0].number <= chosen {
      var rest := CollectOne(s);
      assert s.queue[0].root != r;
      assert forall i | 0 <= i < Taken(rest.queue, chosen) :: rest.queue[i] == s.queue[i + 1];
      UntakenStays(rest, chosen, r);
    }
  }

  /** The entry is taken, its state is gone afterwards, and no later taken entry has the same state. */
  ghost predicate DropsAt(queue: seq<Entry>, n: nat, after: Tries, h: Hash, i: int) {
    && 0 <= i < n <= |queue| && queue[i].hash == h && !Readable(after, queue[i].root)
    && forall j | i < j < n :: queue[j].root != queue[i].root
  }

  ghost predicate Drops(queue: seq<Entry>, n: nat, after: Tries, h: Hash) {
    exists i :: DropsAt(queue, n, after, h, i)
  }

  lemma DropsShift(queue: seq<Entry>, n: nat, after: Tries, h: Hash)
    requires 0 < n <= |queue|
    ensures Drops(queue, n, after, h) <==> DropsAt(queue, n, after, h, 0) || Drops(queue[1..], n - 1, after, h)
  {
    var rest, m := queue[1..], n - 1;
    if i :| DropsAt(rest, m, after, h, i) {
      assert rest[i] == queue[i + 1];
      forall j | i + 1 < j < n ensures queue[j].root != queue[i + 1].root {
        assert queue[j] == rest[j - 1];
      }
      assert DropsAt(queue, n, after, h, i + 1);
    }
    if i :| DropsAt(queue, n, after, h, i) && i > 0 {
      assert rest[i - 1] == queue[i];
      forall j | i - 1 < j < n - 1 ensures rest[j].root != rest[i - 1].root {
        assert rest[j] == queue[j + 1];
      }
      assert DropsAt(rest, m, after, h, i - 1);
    }
  }

  /**
   Exactly which markers a collection drops: of the blocks that share a state which goes, only the last one taken.
   So marker and state have one lifetime exactly for the blocks that are the last taken of their state.
   */
  lemma {:induction false} DroppedExactly(s: Store, chosen: nat, h: Hash)
    requires Valid(s) && h in s.markers
    ensures h !in Collect(s, chosen).markers <==> Drops(s.queue, Taken(s.queue, chosen), Collect(s, chosen).tries, h)
    decreases |s.queue|
  {
    var n, after := Taken(s.queue, chosen), Collect(s, chosen).tries;
    if n == 0 {
      assert Collect(s, chosen) == s;
    } else {
      var rest := CollectOne(s);
      CollectOneKeeps(s);
      CollectedFields(s);
      CollectKeeps(rest, chosen);
      DropsShift(s.queue, n, after, h);
      FirstDrops(s, chosen, h);
      hide CollectOne, Valid, Drops, DropsAt;
      if h in rest.markers {
        DroppedExactly(rest, chosen, h);
      }
    }
  }

  /** The first entry drops its block's marker exactly if no later one has its state and the state goes. */
  lemma FirstDrops(s: Store, chosen: nat, h: Hash)
    requires Valid(s) && h in s.markers && Taken(s.queue, chosen) > 0
    ensures h !in CollectOne(s).markers <==> DropsAt(s.queue, Taken(s.queue, chosen), Collect(s, chosen).tries, h, 0)
  {
    var e, rest, n := s.queue[0], CollectOne(s), Taken(s.queue, chosen);
    CollectOneKeeps(s);
    CollectKeeps(rest, chosen);
    if Readable(rest.tries, e.root) {
      if forall j | 0 < j < n :: s.queue[j].root != e.root {
        assert forall j | 0 <= j < Taken(rest.queue, chosen) :: rest.queue[j] == s.queue[j + 1];
        UntakenStays(rest, chosen, e.root);
      }
    } else {
      forall j | 0 < j < n ensures s.queue[j].root != e.root {
        assert rest.queue[j - 1] == s.queue[j];
        assert Readable(rest.tries, rest.queue[j - 1].root);
      }
    }
  }

  // ----- an archive node

  /** Every stored block but the first one is marked, and its state is on disk. */
  ghost predicate Archived(s: Store, first: Hash) {
    && first in s.blocks && s.queue == []
    && forall h | h in s.blocks && h != first ::
      h in s.markers && (s.blocks[h].root == EMPTY_ROOT || s.blocks[h].root in s.tries.disk)
  }

  predicate WritesArchive(e: Event) {
    e.Write? ==> e.keeping.Archive? && e.fault == NoFault
  }

  lemma ArchiveStep(s: Store, e: Event, first: Hash)
    requires Archived(s, first) && s.head in s.blocks && WritesArchive(e)
    ensures Archived(Step(s, e), first) && Step(s, e).head in Step(s, e).blocks
  {
    AncestorStored(s.blocks, if e.adoption.StoppedAt? then e.adoption.promoted else 0, e.hash);
    if e.Write? {
      AncestorStored(s.blocks[e.hash := e.block], if e.adoption.StoppedAt? then e.adoption.promoted else 0, e.hash);
    }
    hide Ancestor;
  }

  lemma {:induction false} AncestorStored(blocks: map<Hash, Block>, p: Hash, h: Hash)
    ensures Ancestor(blocks, p, h) ==> p in blocks
    decreases if h in blocks then blocks[h].number else 0
  {
    if Ancestor(blocks, p, h) && blocks[h].parent != p {
      AncestorStored(blocks, p, blocks[h].parent);
    }
  }

  /** On an archive node whose writes all succeed the head is always an executed block, however adoptions end. */
  lemma {:induction false} ArchiveHeadExecuted(s: Store, events: seq<Event>, first: Hash)
    requires Archived(s, first) && s.head in s.blocks && forall i | 0 <= i < |events| :: WritesArchive(events[i])
    ensures var r := Run(s, events); r.head == first || HasExecuted(r, r.head, true)
    decreases |events|
  {
    if events != [] {
      hide Step, Archived;
      ArchiveStep(s, events[0], first);
      ArchiveHeadExecuted(Step(s, events[0]), events[1..], first);
    }
  }

  // ----- runs from the genesis state

  /** A store with the genesis block only. */
  function Genesis(): Store {
    Store(map[0 := Block(0, 9, 0)], {}, Tries(map[], {9}), [], 0, {})
  }

  lemma GenesisValid()
    ensures Valid(Genesis()) && Archived(Genesis(), 0)
  {
  }

  /** Blocks of one difficulty: a written block loses the fork choice exactly if it is not above the head. */
  predicate Fair(s: Store, e: Event) {
    e.Write? && Writable(s, e.hash, e.block) && s.head in s.blocks
      && (e.adoption.Lost? <==> e.block.number <= s.blocks[s.head].number)
  }

  predicate AllFair(s: Store, events: seq<Event>)
    decreases |events|
  {
    events == [] || (Fair(s, events[0]) && AllFair(Step(s, events[0]), events[1..]))
  }

  /**
   The head is block 13. The first block of a side chain fails only at its marker, the next two lose the fork choice,
   and the fourth wins it; the reorganisation stops on the first, as it does where the body of the second is missing.
   */
  function StoppedRun(): seq<Event> {
    [ Write(11, Block(1, 21, 0), Archive, NoFault, Adopted),
      Write(12, Block(2, 22, 11), Archive, NoFault, Adopted),
      Write(13, Block(3, 23, 12), Archive, NoFault, Adopted),
      Write(1, Block(1, 31, 0), Archive, MarkerWrite, Lost),
      Write(2, Block(2, 32, 1), Archive, NoFault, Lost),
      Write(3, Block(3, 33, 2), Archive, NoFault, Lost),
      Write(4, Block(4, 34, 3), Archive, NoFault, StoppedAt(1)) ]
  }

  lemma HeadWithoutMarker()
    ensures Valid(Genesis()) && AllFair(Genesis(), StoppedRun())
    ensures var r := Run(Genesis(), StoppedRun()); r.head == 1 && 1 !in r.markers && !HasExecuted(r, r.head, true)
  {
    GenesisValid();
    hide Valid, Archived, Step, Fair;
    var es := StoppedRun();
    var main := MainChain(es);
    var side := SideChain(es, main);
    FourthStops(es, side);
    hide StoppedRun;
    ThreeEvents(Genesis(), es[0], es[1], es[2], es[3..]);
    ThreeEvents(main, es[3], es[4], es[5], es[6..]);
    assert es[0..3] + es[3..] == es && es[3..] == [es[3], es[4], es[5]] + es[6..];
    assert es == [es[0], es[1], es[2]] + es[3..];
    assert es[6..] == [es[6]] && [es[6]][1..] == [];
    assert Run(Step(side, es[6]), []) == Step(side, es[6]);
    assert AllFair(Step(side, es[6]), []);
  }

  lemma ThreeEvents(s: Store, a: Event, b: Event, c: Event, rest: seq<Event>)
    ensures var end := Step(Step(Step(s, a), b), c);
      && Run(s, [a, b, c] + rest) == Run(end, rest)
      && (AllFair(s, [a, b, c] + rest) <==>
          Fair(s, a) && Fair(Step(s, a), b) && Fair(Step(Step(s, a), b), c) && AllFair(end, rest))
  {
    hide Step, Fair;
    var all := [a, b, c] + rest;
    assert all[1..] == [b, c] + rest && ([b, c] + rest)[1..] == [c] + rest && ([c] + rest)[1..] == rest;
    assert Run(Step(Step(s, a), b), [c] + rest) == Run(Step(Step(Step(s, a), b), c), rest);
    assert Run(Step(s, a), [b, c] + rest) == Run(Step(Step(s, a), b), [c] + rest);
    assert AllFair(Step(s, a), [b, c] + rest) <==> Fair(Step(s, a), b) && AllFair(Step(Step(s, a), b), [c] + rest);
  }

  /** What a write on an archive node does to blocks, markers and head. */
  lemma ArchiveWrites(s: Store, h: Hash, b: Block, fault: Fault, adoption: Adoption)
    requires Writable(s, h, b) && (fault == NoFault || fault == MarkerWrite) && !adoption.StoppedAt?
    ensures var r := Step(s, Write(h, b, Archive, fault, adoption));
      && r.blocks == s.blocks[h := b] && r.markers == (if fault == NoFault then s.markers + {h} else s.markers)
      && r.head == if fault == NoFault && adoption.Adopted? then h else s.head
  {
  }

  lemma MainChain(es: seq<Event>) returns (main: Store)
    requires es == StoppedRun()
    ensures main == Step(Step(Step(Genesis(), es[0]), es[1]), es[2])
    ensures Fair(Genesis(), es[0]) && Fair(Step(Genesis(), es[0]), es[1])
      && Fair(Step(Step(Genesis(), es[0]), es[1]), es[2])
    ensures main.blocks == map[0 := Block(0, 9, 0), 11 := Block(1, 21, 0), 12 := Block(2, 22, 11),
                               13 := Block(3, 23, 12)]
    ensures main.markers == {11, 12, 13} && main.head == 13
  {
    hide Step;
    ArchiveWrites(Genesis(), 11, Block(1, 21, 0), NoFault, Adopted);
    var one := Step(Genesis(), es[0]);
    ArchiveWrites(one, 12, Block(2, 22, 11), NoFault, Adopted);
    var two := Step(one, es[1]);
    ArchiveWrites(two, 13, Block(3, 23, 12), NoFault, Adopted);
    main := Step(two, es[2]);
  }

  lemma SideChain(es: seq<Event>, main: Store) returns (side: Store)
    requires es == StoppedRun() && main.markers == {11, 12, 13} && main.head == 13
    requires main.blocks == map[0 := Block(0, 9, 0), 11 := Block(1, 21, 0), 12 := Block(2, 22, 11),
                                13 := Block(3, 23, 12)]
    ensures side == Step(Step(Step(main, es[3]), es[4]), es[5])
    ensures Fair(main, es[3]) && Fair(Step(main, es[3]), es[4]) && Fair(Step(Step(main, es[3]), es[4]), es[5])
    ensures side.blocks == main.blocks[1 := Block(1, 31, 0)][2 := Block(2, 32, 1)][3 := Block(3, 33, 2)]
    ensures side.markers == {11, 12, 13, 2, 3} && side.head == 13
  {
    hide Step;
    ArchiveWrites(main, 1, Block(1, 31, 0), MarkerWrite, Lost);
    var one := Step(main, es[3]);
    ArchiveWrites(one, 2, Block(2, 32, 1), NoFault, Lost);
    var two := Step(one, es[4]);
    ArchiveWrites(two, 3, Block(3, 33, 2), NoFault, Lost);
    side := Step(two, es[5]);
  }

  lemma FourthStops(es: seq<Event>, side: Store)
    requires es == StoppedRun() && side.markers == {11, 12, 13, 2, 3} && side.head == 13
    requires side.blocks == map[0 := Block(0, 9, 0), 11 := Block(1, 21, 0), 12 := Block(2, 22, 11),
                                13 := Block(3, 23, 12)]
                               [1 := Block(1, 31, 0)][2 := Block(2, 32, 1)][3 := Block(3, 33, 2)]
    ensures Fair(side, es[6]) && Step(side, es[6]).head == 1 && 1 !in Step(side, es[6]).markers
  {
    var b := Block(4, 34, 3);
    var written := WriteBlock(side, 4, b, Archive, NoFault);
    assert written.blocks == side.blocks[4 := b] && written.head == 13 && written.markers == {11, 12, 13, 2, 3, 4};
    hide WriteBlock;
    assert Ancestor(written.blocks, 1, 2);
    assert Ancestor(written.blocks, 1, 3);
    assert Ancestor(written.blocks, 1, 4);
    assert !Ancestor(written.blocks, 1, 0);
    assert !Ancestor(written.blocks, 1, 11);
    assert !Ancestor(written.blocks, 1, 12);
    assert !Ancestor(written.blocks, 1, 13);
  }

  /** A chain of blocks 1 to n: the first two have one state, the others are empty, and nothing is flushed. */
  function SharedState(n: nat): seq<Event> {
    if n == 0 then [] else SharedState(n - 1) + [SharedWrite(n)]
  }

  function SharedWrite(n: nat): Event
    requires n > 0
  {
    Write(n, Block(n, if n <= 2 then 5 else EMPTY_ROOT, n - 1), Full({}, {}), NoFault, Adopted)
  }

  function SharedQueue(n: nat): seq<Entry> {
    seq(n, (i: nat) requires i < n => Entry(if i < 2 then 5 else EMPTY_ROOT, i + 1, i + 1))
  }

  /** What is known of the store after n of these blocks, before anything is collected. */
  ghost predicate Sharing(s: Store, n: nat) {
    && s.queue == SharedQueue(n) && (forall k: nat | k <= n :: k in s.blocks)
      && (forall k: nat | 0 < k <= n :: k in s.markers)
    && (forall h | h in s.blocks :: h <= n && s.blocks[h].number == h && (0 < h <= 2 ==> s.blocks[h].root == 5))
    && s.tries == Tries(if n == 0 then map[] else map[5 := if n == 1 then 1 else 2], {9})
  }

  lemma SharingStep(s: Store, n: nat)
    requires Sharing(s, n) && n < TRIES_IN_MEMORY
    ensures Sharing(Step(s, SharedWrite(n + 1)), n + 1)
  {
    EnqueueLast(SharedQueue(n), Entry(if n < 2 then 5 else EMPTY_ROOT, n + 1, n + 1));
    assert SharedQueue(n + 1) == SharedQueue(n) + [Entry(if n < 2 then 5 else EMPTY_ROOT, n + 1, n + 1)];
  }

  lemma EnqueueLast(queue: seq<Entry>, e: Entry)
    requires queue == [] || queue[|queue| - 1].number <= e.number
    ensures Enqueue(queue, e) == queue + [e]
  {
  }

  lemma {:induction false} RunAppend(s: Store, events: seq<Event>, e: Event)
    ensures Run(s, events + [e]) == Step(Run(s, events), e)
    decreases |events|
  {
    if events == [] {
      assert [] + [e] == [e] && [e][1..] == [];
      assert Run(Step(s, e), []) == Step(s, e);
    } else {
      assert (events + [e])[1..] == events[1..] + [e];
      RunAppend(Step(s, events[0]), events[1..], e);
    }
  }

  lemma {:induction false} SharedRun(n: nat)
    requires n <= TRIES_IN_MEMORY
    ensures Sharing(Run(Genesis(), SharedState(n)), n)
    decreases n
  {
    if n > 0 {
      hide Step, Sharing;
      SharedRun(n - 1);
      RunAppend(Genesis(), SharedState(n - 1), SharedWrite(n));
      SharingStep(Run(Genesis(), SharedState(n - 1)), n - 1);
    } else {
      assert SharedQueue(0) == [];
    }
  }

  /** Collecting exactly the first of the queued entries. */
  lemma CollectFirst(s: Store, chosen: nat)
    requires |s.queue| > 1 && s.queue[0].number <= chosen < s.queue[1].number
    ensures Collect(s, chosen) == CollectOne(s)
  {
    assert CollectOne(s).queue[0] == s.queue[1];
  }

  /** One more block above the retained height takes the oldest entry. */
  lemma SharedCollects(s: Store, n: nat, rest: seq<Entry>)
    requires n > TRIES_IN_MEMORY && s.queue == rest && |rest| > 1 && rest[0].number == n - TRIES_IN_MEMORY
      && rest[1].number > rest[0].number
    requires rest[|rest| - 1].number <= n && n !in s.blocks && n - 1 in s.blocks && s.blocks[n - 1].number == n - 1
    requires EMPTY_ROOT !in s.tries.dirty
    ensures var r, e := Step(s, SharedWrite(n)), rest[0];
      && r.queue == rest[1..] + [Entry(EMPTY_ROOT, n, n)] && r.tries == Dereference(s.tries, e.root)
      && r.markers == (if Readable(r.tries, e.root) then s.markers else s.markers - {e.hash}) + {n}
      && r.blocks == s.blocks[n := SharedWrite(n).block]
  {
    var e := Entry(EMPTY_ROOT, n, n);
    EnqueueLast(rest, e);
    assert s.tries.dirty - {} == s.tries.dirty && s.tries.disk + (s.tries.dirty.Keys * {}) == s.tries.disk;
    var stored := s.(blocks := s.blocks[n := SharedWrite(n).block]);
    var tries := Reference(stored.tries, EMPTY_ROOT);
    var queued := stored.(tries := Flush(tries, {} + {}), queue := rest + [e]);
    CollectFirst(queued, n - TRIES_IN_MEMORY);
    hide Enqueue, Collect;
    assert (rest + [e])[1..] == rest[1..] + [e];
  }

  /**
   Two blocks with one state at the start of a chain that a full node keeps: when their entries are collected the
   state goes, and the marker of the first block stays.
   */
  lemma MarkerOutlivesState()
    ensures Valid(Genesis())
    ensures var r := Run(Genesis(), SharedState(TRIES_IN_MEMORY + 2));
      1 in r.blocks && r.blocks[1].root == 5 && 1 in r.markers && 2 !in r.markers && !Readable(r.tries, 5)
  {
    GenesisValid();
    hide Valid, Archived;
    var n := TRIES_IN_MEMORY;
    SharedRun(n);
    var s := Run(Genesis(), SharedState(n));
    assert Sharing(s, n);
    RunAppend(Genesis(), SharedState(n), SharedWrite(n + 1));
    RunAppend(Genesis(), SharedState(n + 1), SharedWrite(n + 2));
    hide Step, SharedState, Run;
    var one := Step(s, SharedWrite(n + 1));
    SharedCollects(s, n + 1, SharedQueue(n));
    assert one.queue[0] == SharedQueue(n)[1] && one.queue[1] == SharedQueue(n)[2];
    SharedCollects(one, n + 2, one.queue);
    assert Run(Genesis(), SharedState(n + 2)) == Step(one, SharedWrite(n + 2)) by {
      assert SharedState(n + 2) == SharedState(n + 1) + [SharedWrite(n + 2)]
        && SharedState(n + 1) == SharedState(n) + [SharedWrite(n + 1)]
        by { SharedLonger(n + 1); SharedLonger(n); }
    }
  }

  lemma SharedLonger(n: nat)
    ensures SharedState(n + 1) == SharedState(n) + [SharedWrite(n + 1)]
  {
  }

  // ----- the store in place

  class ExecutionStore {
    var blocks: map<Hash, Block>
    var markers: set<Hash>
    var tries: Tries
    var queue: seq<Entry>
    var head: Hash
    ghost var executed: set<Hash>

    ghost function View(): Store
      reads this
    {
      Store(blocks, markers, tries, queue, head, executed)
    }

    constructor (genesis: Hash, root: Root)
      ensures Valid(View()) && head == genesis && Archived(View(), genesis)
    {
      blocks, markers, tries := map[genesis := Block(0, root, genesis)], {}, Tries(map[], {root});
      queue, head, executed := [], genesis, {};
    }

    /** The collection loop. */
    method CollectGarbage(chosen: nat)
      modifies this`queue, this`tries, this`markers
      ensures View() == Collect(old(View()), chosen)
    {
      while queue != []
        invariant Collect(View(), chosen) == Collect(old(View()), chosen)
        decreases |queue|
      {
        var entry := queue[0];
        if entry.number > chosen {
          break;
        }
        queue := queue[1..];
        tries := Dereference(tries, entry.root);
        if !Readable(tries, entry.root) {
          markers := markers - {entry.hash};
        }
      }
    }

    /** An archive node flushes the state; another queues it and collects what is old. */
    method KeepNewState(h: Hash, b: Block, keeping: Keeping)
      modifies this`queue, this`tries, this`markers
      ensures View() == KeepState(old(View()), h, b, keeping)
    {
      hide Collect, Enqueue;
      if keeping.Archive? {
        tries := Flush(tries, {b.root});
      } else {
        tries := Reference(tries, b.root);
        queue := Enqueue(queue, Entry(b.root, h, b.number));
        if b.number > TRIES_IN_MEMORY {
          tries := Flush(tries, keeping.capped + keeping.flushed);
          CollectGarbage(b.number - TRIES_IN_MEMORY);
        }
      }
    }

    /** adoptHead: a reorganisation that stops has already moved the head to the last block it promoted. */
    method MoveHead(h: Hash, adoption: Adoption) returns (ok: bool)
      modifies this`head
      ensures View() == AdoptHead(old(View()), h, adoption)
      ensures ok <==> adoption.Adopted?
    {
      if adoption.StoppedAt? && Promotable(Store(blocks, markers, tries, queue, head, {}), adoption.promoted, h) {
        head := adoption.promoted;
      }
      if adoption.Adopted? {
        head := h;
      }
      return adoption.Adopted?;
    }

    /**
     Writes a block, its state and last its marker; the fault says which commit fails. A block that wins the fork
     choice is adopted after its marker is written, and an adoption that does not complete fails the write.
     */
    method WriteBlockWithState(h: Hash, b: Block, keeping: Keeping, fault: Fault, adoption: Adoption) returns (ok: bool)
      requires Valid(View()) && Writable(View(), h, b)
      modifies this
      ensures View() == Step(old(View()), Write(h, b, keeping, fault, adoption)) && Valid(View())
      ensures ok <==> Succeeds(keeping, fault) && (adoption.Lost? || adoption.Adopted?)
      ensures head != old(head) && adoption.Adopted? ==> head == h && HasExecuted(View(), head, true)
    {
      StepSafe(View(), Write(h, b, keeping, fault, adoption));
      hide Valid, KeepState, Insert, HasExecuted, Ancestor;
      blocks := blocks[h := b];
      if fault == StateCommit {
        return false;
      }
      tries := Insert(tries, b.root);
      if fault == TradingCommit || fault == LendingCommit {
        return false;
      }
      if keeping.Archive? && fault == ArchiveCommit {
        return false;
      }
      KeepNewState(h, b, keeping);
      if fault == MarkerWrite {
        return false;
      }
      markers := markers + {h};
      executed := executed + {h};
      if adoption.Lost? {
        return true;
      }
      ok := MoveHead(h, adoption);
    }

    /** Adopts a stored block only with its marker and its state. */
    method WriteKnownBlock(h: Hash, auxiliary: bool, adoption: Adoption) returns (adopted: bool)
      requires Valid(View())
      modifies this`head
      ensures View() == Step(old(View()), Known(h, auxiliary, adoption)) && Valid(View())
      ensures adopted <==> old(HasExecuted(View(), h, auxiliary)) && adoption.Adopted?
      ensures adopted ==> head == h && HasExecuted(View(), h, auxiliary) && h in executed
      ensures !adopted && !adoption.StoppedAt? ==> head == old(head)
    {
      if h !in markers || h !in blocks || !Readable(tries, blocks[h].root) || !auxiliary {
        return false;
      }
      if adoption.Lost? {
        return false;
      }
      adopted := MoveHead(h, adoption);
    }
  }
}
