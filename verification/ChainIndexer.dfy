/**
 The sections of the chain indexer (core/chain_indexer.go). A section is processed in the background while the
 canonical chain may change under it; every read of the chain is a step of its own.
 */
module ChainIndexer {
  import opened Options
  import Division

  /** Block hashes; zero stands for no hash. */
  type Hash = nat

  datatype Header = Header(number: nat, parent: Hash)

  /** The chain database: headers are stored by their hash and never change, the canonical index does. */
  datatype Chain = Chain(headers: map<Hash, Header>, canonical: map<nat, Hash>)

  /** ReadCanonicalHash. */
  function CanonicalHash(c: Chain, n: nat): Hash { if n in c.canonical then c.canonical[n] else 0 }

  datatype Config = Config(sectionSize: nat, confirmsReq: nat)

  /** The section that is being processed: the head it builds on, and how far it has come. */
  datatype Job = Job(section: nat, oldHead: Hash, number: nat, lastHead: Hash)

  datatype Indexer = Indexer(stored: nat, known: nat, heads: map<nat, Hash>, job: Option<Job>)

  function SectionHead(heads: map<nat, Hash>, section: nat): Hash { if section in heads then heads[section] else 0 }

  // ----- operations

  /** setValidSections: the heads of sections that are no longer valid are removed. */
  function SetValid(i: Indexer, sections: nat): Indexer {
    i.(stored := sections, heads := map k | k in i.heads && !(sections <= k < i.stored) :: i.heads[k])
  }

  /** verifyLastHead. */
  function VerifyLastHead(cfg: Config, i: Indexer, c: Chain): Indexer
    requires cfg.sectionSize > 0
    decreases i.stored
  {
    if i.stored == 0 || SectionHead(i.heads, i.stored - 1) == CanonicalHash(c, EndOf(cfg, i.stored - 1)) then i
    else VerifyLastHead(cfg, SetValid(i, i.stored - 1), c)
  }

  /** The first block of a section. */
  function StartOf(cfg: Config, section: nat): nat { section * cfg.sectionSize }

  lemma NextStart(cfg: Config, section: nat)
    ensures StartOf(cfg, section + 1) == StartOf(cfg, section) + cfg.sectionSize
  {
  }

  /** The last block of a section. */
  function EndOf(cfg: Config, section: nat): nat
    requires cfg.sectionSize > 0
  {
    NextStart(cfg, section);
    StartOf(cfg, section + 1) - 1
  }

  /** newHead, without the indexers that depend on this one. */
  function NewHead(cfg: Config, i: Indexer, head: nat, reorg: bool): Indexer
    requires cfg.sectionSize > 0
  {
    if reorg then
      var changed := (head + 1) / cfg.sectionSize;
      var known := if changed < i.known then changed else i.known;
      if changed < i.stored then SetValid(i.(known := known), changed) else i.(known := known)
    else if head >= cfg.confirmsReq && (head + 1 - cfg.confirmsReq) / cfg.sectionSize > i.known then
      i.(known := (head + 1 - cfg.confirmsReq) / cfg.sectionSize)
    else i
  }

  /** The start of an update: the last section is verified and the next one begins on its head. */
  function Begin(cfg: Config, i: Indexer, c: Chain): Indexer
    requires cfg.sectionSize > 0
  {
    if i.job.Some? || i.known <= i.stored then i
    else
      var v := VerifyLastHead(cfg, i, c);
      var head := if v.stored > 0 then SectionHead(v.heads, v.stored - 1) else 0;
      v.(job := Some(Job(v.stored, head, StartOf(cfg, v.stored), head)))
  }

  /** One read of processSection; a missing block or one that does not follow the last is an error. */
  function ReadBlock(cfg: Config, j: Job, c: Chain): Option<Job> {
    var hash := CanonicalHash(c, j.number);
    if hash == 0 || hash !in c.headers || c.headers[hash].number != j.number
      || c.headers[hash].parent != j.lastHead then None
    else Some(j.(number := j.number + 1, lastHead := hash))
  }

  /** The end of a failed update. */
  function Fail(cfg: Config, i: Indexer, c: Chain): Indexer
    requires cfg.sectionSize > 0
  {
    var v := VerifyLastHead(cfg, i.(job := None), c);
    v.(known := v.stored)
  }

  /** The end of processing: the section counts unless the head it was built on is gone. */
  function Complete(cfg: Config, i: Indexer, c: Chain): Indexer
    requires cfg.sectionSize > 0
  {
    if i.job.None? || i.job.value.number < StartOf(cfg, i.job.value.section + 1) then i
    else
      var j := i.job.value;
      if j.section == 0 || j.oldHead == SectionHead(i.heads, j.section - 1)
      then SetValid(i.(heads := i.heads[j.section := j.lastHead], job := None), j.section + 1)
      else Fail(cfg, i, c)
  }

  // ----- the invariant

  /** Walking n parents back from a block ends at another. */
  ghost predicate Descends(headers: map<Hash, Header>, to: Hash, from: Hash, n: nat)
    decreases n
  {
    if n == 0 then to == from else to != 0 && to in headers && Descends(headers, headers[to].parent, from, n - 1)
  }

  lemma {:induction false} DescendsGrows(a: map<Hash, Header>, b: map<Hash, Header>, to: Hash, from: Hash, n: nat)
    requires (forall h | h in a :: h in b && b[h] == a[h]) && Descends(a, to, from, n)
    ensures Descends(b, to, from, n)
    decreases n
  {
    if n > 0 {
      DescendsGrows(a, b, a[to].parent, from, n - 1);
    }
  }

  /** Every stored head is a whole section above the one before it. */
  ghost predicate Chained(cfg: Config, i: Indexer, headers: map<Hash, Header>) {
    forall k: nat | k < i.stored :: ChainedAt(cfg, i.heads, headers, k)
  }

  ghost predicate ChainedAt(cfg: Config, heads: map<nat, Hash>, headers: map<Hash, Header>, k: nat) {
    k in heads && Descends(headers, heads[k], if k == 0 then 0 else SectionHead(heads, k - 1), cfg.sectionSize)
  }

  /** The job in progress has followed parents from the head it builds on, and nothing is stored beyond it. */
  ghost predicate JobFollows(cfg: Config, i: Indexer, headers: map<Hash, Header>) {
    i.job.Some? ==>
      var j := i.job.value;
      && i.stored <= j.section && (j.section == 0 ==> j.oldHead == 0) && (j.section > 0 ==> j.oldHead != 0)
      && StartOf(cfg, j.section) <= j.number <= StartOf(cfg, j.section + 1)
      && Descends(headers, j.lastHead, j.oldHead, j.number - StartOf(cfg, j.section))
  }

  ghost predicate Valid(cfg: Config, i: Indexer, headers: map<Hash, Header>) {
    && cfg.sectionSize > 0
    && (forall k | k in i.heads :: k < i.stored)
    && Chained(cfg, i, headers) && JobFollows(cfg, i, headers)
  }

  lemma SetValidKeeps(cfg: Config, i: Indexer, headers: map<Hash, Header>, sections: nat)
    requires Valid(cfg, i, headers) && sections <= i.stored
    ensures Valid(cfg, SetValid(i, sections), headers)
    ensures forall k | 0 <= k < sections :: SectionHead(SetValid(i, sections).heads, k) == SectionHead(i.heads, k)
  {
    hide Descends, StartOf;
    var r := SetValid(i, sections);
    forall k: nat | k < sections ensures ChainedAt(cfg, r.heads, headers, k) {
      assert ChainedAt(cfg, i.heads, headers, k);
    }
  }

  /** Verifying keeps the invariant, drops sections from the end only, and stops at a head that is canonical. */
  lemma {:induction false} VerifyKeeps(cfg: Config, i: Indexer, c: Chain)
    requires Valid(cfg, i, c.headers)
    ensures var v := VerifyLastHead(cfg, i, c);
      && Valid(cfg, v, c.headers) && v.stored <= i.stored && v.known == i.known && v.job == i.job
      && (forall k | 0 <= k < v.stored :: SectionHead(v.heads, k) == SectionHead(i.heads, k))
      && (v.stored > 0 ==> SectionHead(v.heads, v.stored - 1) == CanonicalHash(c, EndOf(cfg, v.stored - 1)))
      && (forall k | v.stored <= k < i.stored :: SectionHead(i.heads, k) != CanonicalHash(c, EndOf(cfg, k)))
    decreases i.stored
  {
    ValidSize(cfg, i, c.headers);
    hide Valid, EndOf, SetValid;
    if i.stored > 0 && SectionHead(i.heads, i.stored - 1) != CanonicalHash(c, EndOf(cfg, i.stored - 1)) {
      SetValidKeeps(cfg, i, c.headers, i.stored - 1);
      SetValidFields(i, i.stored - 1);
      VerifyKeeps(cfg, SetValid(i, i.stored - 1), c);
    }
  }

  lemma SetValidFields(i: Indexer, sections: nat)
    ensures var r := SetValid(i, sections); r.stored == sections && r.known == i.known && r.job == i.job
  {
  }

  lemma HeadNonZero(cfg: Config, i: Indexer, headers: map<Hash, Header>, k: nat)
    requires Valid(cfg, i, headers) && k < i.stored
    ensures SectionHead(i.heads, k) != 0 && k in i.heads
  {
    assert ChainedAt(cfg, i.heads, headers, k);
  }

  lemma BeginKeeps(cfg: Config, i: Indexer, c: Chain)
    requires Valid(cfg, i, c.headers)
    ensures Valid(cfg, Begin(cfg, i, c), c.headers)
  {
    hide Chained, VerifyLastHead, StartOf;
    VerifyKeeps(cfg, i, c);
    var v := VerifyLastHead(cfg, i, c);
    if v.stored > 0 {
      HeadNonZero(cfg, v, c.headers, v.stored - 1);
    }
    NextStart(cfg, v.stored);
    ChainedIgnoresJob(cfg, v, Begin(cfg, i, c), c.headers);
  }

  lemma ChainedIgnoresJob(cfg: Config, a: Indexer, b: Indexer, headers: map<Hash, Header>)
    ensures a.stored == b.stored && a.heads == b.heads && Chained(cfg, a, headers) ==> Chained(cfg, b, headers)
  {
  }

  lemma ReadKeeps(cfg: Config, i: Indexer, c: Chain)
    requires Valid(cfg, i, c.headers) && i.job.Some? && i.job.value.number < StartOf(cfg, i.job.value.section + 1)
    ensures var r := ReadBlock(cfg, i.job.value, c); r.Some? ==> Valid(cfg, i.(job := r), c.headers)
  {
    hide StartOf, Chained;
    var r := ReadBlock(cfg, i.job.value, c);
    if r.Some? {
      ChainedIgnoresJob(cfg, i, i.(job := r), c.headers);
    }
  }

  lemma FailKeeps(cfg: Config, i: Indexer, c: Chain)
    requires Valid(cfg, i, c.headers)
    ensures Valid(cfg, Fail(cfg, i, c), c.headers)
  {
    hide Chained, VerifyLastHead, StartOf;
    ChainedIgnoresJob(cfg, i, i.(job := None), c.headers);
    VerifyKeeps(cfg, i.(job := None), c);
    var v := VerifyLastHead(cfg, i.(job := None), c);
    ChainedIgnoresJob(cfg, v, v.(known := v.stored), c.headers);
  }

  lemma CompleteKeeps(cfg: Config, i: Indexer, c: Chain)
    requires Valid(cfg, i, c.headers)
    ensures Valid(cfg, Complete(cfg, i, c), c.headers)
  {
    hide Descends, Fail, StartOf, ChainedAt;
    FailKeeps(cfg, i, c);
    if i.job.Some? && i.job.value.number >= StartOf(cfg, i.job.value.section + 1) {
      var j := i.job.value;
      NextStart(cfg, j.section);
      if j.section == 0 || j.oldHead == SectionHead(i.heads, j.section - 1) {
        assert i.stored == j.section;
        var r := Complete(cfg, i, c);
        assert r.heads == i.heads[j.section := j.lastHead];
        forall k: nat | k < r.stored ensures ChainedAt(cfg, r.heads, c.headers, k) {
          ChainedOnTop(cfg, i, r.heads, c.headers, j, k);
        }
      }
    }
  }

  lemma ChainedOnTop(cfg: Config, i: Indexer, heads: map<nat, Hash>, headers: map<Hash, Header>, j: Job, k: nat)
    requires Chained(cfg, i, headers) && heads == i.heads[j.section := j.lastHead] && i.stored == j.section
      && k <= j.section
    requires Descends(headers, j.lastHead, if j.section == 0 then 0 else SectionHead(i.heads, j.section - 1),
                      cfg.sectionSize)
    ensures ChainedAt(cfg, heads, headers, k)
  {
    hide Descends;
    if k < j.section {
      assert ChainedAt(cfg, i.heads, headers, k);
    }
  }

  // ----- runs

  /** The steps of chain and indexer, in any order. A backend error may find everything stored invalid. */
  datatype Event =
    | ChainChanges(chain: Chain)
    | Head(head: nat, reorg: bool)
    | Update
    | Read
    | BackendFails(reset: bool)
    | Finish
    | Sections

  datatype World = World(chain: Chain, indexer: Indexer)

  /** Headers are added and never replaced. */
  ghost predicate Grows(a: Chain, b: Chain) {
    forall h | h in a.headers :: h in b.headers && b.headers[h] == a.headers[h]
  }

  ghost function Step(cfg: Config, w: World, e: Event): World
    requires cfg.sectionSize > 0
  {
    var i := w.indexer;
    match e
    case ChainChanges(chain) => if Grows(w.chain, chain) then w.(chain := chain) else w
    case Head(head, reorg) => w.(indexer := NewHead(cfg, i, head, reorg))
    case Update => w.(indexer := Begin(cfg, i, w.chain))
    case Read =>
      if i.job.None? || i.job.value.number >= StartOf(cfg, i.job.value.section + 1) then w
      else
        var r := ReadBlock(cfg, i.job.value, w.chain);
        w.(indexer := if r.Some? then i.(job := r) else Fail(cfg, i, w.chain))
    case BackendFails(reset) =>
      if i.job.None? then w else w.(indexer := Fail(cfg, if reset then SetValid(i, 0) else i, w.chain))
    case Finish => w.(indexer := Complete(cfg, i, w.chain))
    case Sections => w.(indexer := VerifyLastHead(cfg, i, w.chain))
  }

  lemma GrownValid(cfg: Config, i: Indexer, a: Chain, b: Chain)
    requires Valid(cfg, i, a.headers) && Grows(a, b)
    ensures Valid(cfg, i, b.headers)
  {
    hide Descends, StartOf;
    forall k: nat | k < i.stored ensures ChainedAt(cfg, i.heads, b.headers, k) {
      assert ChainedAt(cfg, i.heads, a.headers, k);
      DescendsGrows(a.headers, b.headers, i.heads[k], if k == 0 then 0 else SectionHead(i.heads, k - 1),
                    cfg.sectionSize);
    }
    if i.job.Some? {
      var j := i.job.value;
      DescendsGrows(a.headers, b.headers, j.lastHead, j.oldHead, j.number - StartOf(cfg, j.section));
    }
  }

  lemma NewHeadKeeps(cfg: Config, i: Indexer, headers: map<Hash, Header>, head: nat, reorg: bool)
    requires Valid(cfg, i, headers)
    ensures Valid(cfg, NewHead(cfg, i, head, reorg), headers)
  {
    hide SetValid, Descends, StartOf;
    var changed := (head + 1) / cfg.sectionSize;
    var known := if changed < i.known then changed else i.known;
    if changed < i.stored {
      assert Valid(cfg, i.(known := known), headers);
      SetValidKeeps(cfg, i.(known := known), headers, changed);
    }
  }

  /**
   A reorganisation keeps exactly the sections that end at or below the new head; otherwise a section is known once
   its last block has its confirmations.
   */
  lemma NewHeadExact(cfg: Config, i: Indexer, head: nat, reorg: bool, k: nat)
    requires cfg.sectionSize > 0
    ensures var r := NewHead(cfg, i, head, reorg);
      if reorg then (k < r.stored <==> k < i.stored && EndOf(cfg, k) <= head)
        && (k < r.known <==> k < i.known && EndOf(cfg, k) <= head)
      else r.stored == i.stored && (k < r.known <==> k < i.known || EndOf(cfg, k) + cfg.confirmsReq <= head)
  {
    Division.AtLeast(head + 1, cfg.sectionSize, k + 1);
    Division.AtLeast(head + 1 - cfg.confirmsReq, cfg.sectionSize, k + 1);
  }

  lemma StepKeeps(cfg: Config, w: World, e: Event)
    requires Valid(cfg, w.indexer, w.chain.headers)
    ensures var r := Step(cfg, w, e); Valid(cfg, r.indexer, r.chain.headers)
  {
    hide Valid, SetValid, VerifyLastHead, NewHead, Begin, Fail, Complete, ReadBlock;
    var i := w.indexer;
    match e
    case ChainChanges(chain) => if Grows(w.chain, chain) { GrownValid(cfg, i, w.chain, chain); }
    case Head(head, reorg) => NewHeadKeeps(cfg, i, w.chain.headers, head, reorg);
    case Update => BeginKeeps(cfg, i, w.chain);
    case Read =>
      if i.job.Some? && i.job.value.number < StartOf(cfg, i.job.value.section + 1) {
        ReadKeeps(cfg, i, w.chain);
        FailKeeps(cfg, i, w.chain);
      }
    case BackendFails(reset) =>
      SetValidKeeps(cfg, i, w.chain.headers, 0);
      FailKeeps(cfg, if reset then SetValid(i, 0) else i, w.chain);
    case Finish => CompleteKeeps(cfg, i, w.chain);
    case Sections => VerifyKeeps(cfg, i, w.chain);
  }

  ghost function Run(cfg: Config, w: World, events: seq<Event>): World
    requires cfg.sectionSize > 0
    decreases |events|
  {
    if events == [] then w else Run(cfg, Step(cfg, w, events[0]), events[1..])
  }

  /** Under every interleaving the stored heads form a chain of whole sections. */
  lemma {:induction false} RunKeeps(cfg: Config, w: World, events: seq<Event>)
    requires Valid(cfg, w.indexer, w.chain.headers)
    ensures var r := Run(cfg, w, events); Valid(cfg, r.indexer, r.chain.headers)
    decreases |events|
  {
    hide Valid, Step;
    if events != [] {
      assert cfg.sectionSize > 0 by { ValidSize(cfg, w.indexer, w.chain.headers); }
      StepKeeps(cfg, w, events[0]);
      RunKeeps(cfg, Step(cfg, w, events[0]), events[1..]);
    }
  }

  lemma ValidSize(cfg: Config, i: Indexer, headers: map<Hash, Header>)
    requires Valid(cfg, i, headers)
    ensures cfg.sectionSize > 0
  {
  }

  // ----- what verifying the last head proves

  /** The canonical index is a chain of parents from the genesis block up to a number. */
  ghost predicate CanonicalTo(c: Chain, last: nat) {
    forall n: nat | n <= last :: LinkedAt(c, n)
  }

  ghost predicate LinkedAt(c: Chain, n: nat) {
    && CanonicalHash(c, n) != 0 && CanonicalHash(c, n) in c.headers
    && c.headers[CanonicalHash(c, n)].parent == if n == 0 then 0 else CanonicalHash(c, n - 1)
  }

  lemma {:induction false} CanonicalDescends(c: Chain, last: nat, n: nat, from: Hash, steps: nat)
    requires CanonicalTo(c, last) && n <= last && steps <= n + 1
      && Descends(c.headers, CanonicalHash(c, n), from, steps)
    ensures from == if steps == n + 1 then 0 else CanonicalHash(c, n - steps)
    decreases steps
  {
    if steps > 0 {
      assert LinkedAt(c, n);
      if n > 0 {
        CanonicalDescends(c, last, n - 1, from, steps - 1);
      }
    }
  }

  /** If the last stored head is canonical, so is every stored head, where the canonical index is a chain up to it. */
  lemma {:induction false} AllHeadsCanonical(cfg: Config, i: Indexer, c: Chain, k: nat)
    requires Valid(cfg, i, c.headers) && k < i.stored && CanonicalTo(c, EndOf(cfg, i.stored - 1))
    requires SectionHead(i.heads, i.stored - 1) == CanonicalHash(c, EndOf(cfg, i.stored - 1))
    ensures SectionHead(i.heads, k) == CanonicalHash(c, EndOf(cfg, k))
    decreases i.stored - k
  {
    hide CanonicalTo, Descends, EndOf;
    if k < i.stored - 1 {
      AllHeadsCanonical(cfg, i, c, k + 1);
      EndsOrdered(cfg, k, i.stored - 1);
      assert ChainedAt(cfg, i.heads, c.headers, k + 1);
      CanonicalDescends(c, EndOf(cfg, i.stored - 1), EndOf(cfg, k + 1), SectionHead(i.heads, k), cfg.sectionSize);
    }
  }

  lemma EndsOrdered(cfg: Config, k: nat, last: nat)
    requires cfg.sectionSize > 0 && k < last
    ensures EndOf(cfg, k + 1) == EndOf(cfg, k) + cfg.sectionSize && EndOf(cfg, k + 1) <= EndOf(cfg, last)
  {
    NextStart(cfg, k + 1);
    Division.MulOrder(k + 2, last + 1, cfg.sectionSize);
  }

  /**
   After any run, once the last head has been verified all stored heads are the canonical hashes at their section
   ends, provided the canonical index is a chain up to the last of them.
   */
  lemma VerifiedSections(cfg: Config, w: World, events: seq<Event>, k: nat)
    requires Valid(cfg, w.indexer, w.chain.headers)
    ensures var r := Run(cfg, w, events + [Sections]); var i := r.indexer;
      k < i.stored && CanonicalTo(r.chain, EndOf(cfg, i.stored - 1)) ==>
        SectionHead(i.heads, k) == CanonicalHash(r.chain, EndOf(cfg, k))
  {
    hide Valid, CanonicalTo, VerifyLastHead, EndOf;
    assert cfg.sectionSize > 0 by { ValidSize(cfg, w.indexer, w.chain.headers); }
    RunKeeps(cfg, w, events);
    RunAppend(cfg, w, events, Sections);
    var before := Run(cfg, w, events);
    VerifyKeeps(cfg, before.indexer, before.chain);
    var i := VerifyLastHead(cfg, before.indexer, before.chain);
    if k < i.stored && CanonicalTo(before.chain, EndOf(cfg, i.stored - 1)) {
      AllHeadsCanonical(cfg, i, before.chain, k);
    }
  }

  lemma {:induction false} RunAppend(cfg: Config, w: World, events: seq<Event>, e: Event)
    requires cfg.sectionSize > 0
    ensures Run(cfg, w, events + [e]) == Step(cfg, Run(cfg, w, events), e)
    decreases |events|
  {
    hide Step;
    if events == [] {
      assert events + [e] == [e];
      assert Run(cfg, w, [e]) == Run(cfg, Step(cfg, w, e), []);
    } else {
      assert (events + [e])[1..] == events[1..] + [e];
      RunAppend(cfg, Step(cfg, w, events[0]), events[1..], e);
    }
  }

  // ----- exactly when

  lemma {:induction false} DescendsOnce(headers: map<Hash, Header>, to: Hash, a: Hash, b: Hash, n: nat)
    requires Descends(headers, to, a, n) && Descends(headers, to, b, n)
    ensures a == b
    decreases n
  {
    if n > 0 {
      DescendsOnce(headers, headers[to].parent, a, b, n - 1);
    }
  }

  /** The canonical hashes at the ends of the stored sections are whole sections apart. */
  ghost predicate Spaced(cfg: Config, c: Chain, stored: nat)
    requires cfg.sectionSize > 0
  {
    forall k: nat | k + 1 < stored :: SpacedAt(cfg, c, k)
  }

  ghost predicate SpacedAt(cfg: Config, c: Chain, k: nat)
    requires cfg.sectionSize > 0
  {
    Descends(c.headers, CanonicalHash(c, EndOf(cfg, k + 1)), CanonicalHash(c, EndOf(cfg, k)), cfg.sectionSize)
  }

  ghost predicate AllCanonical(cfg: Config, i: Indexer, c: Chain)
    requires cfg.sectionSize > 0
  {
    forall k: nat | k < i.stored :: CanonicalAt(cfg, i.heads, c, k)
  }

  ghost predicate CanonicalAt(cfg: Config, heads: map<nat, Hash>, c: Chain, k: nat)
    requires cfg.sectionSize > 0
  {
    SectionHead(heads, k) == CanonicalHash(c, EndOf(cfg, k))
  }

  /** With the last head canonical, all are exactly when the canonical index itself is spaced by whole sections. */
  lemma AllCanonicalIffSpaced(cfg: Config, i: Indexer, c: Chain)
    requires Valid(cfg, i, c.headers) && (i.stored > 0 ==> CanonicalAt(cfg, i.heads, c, i.stored - 1))
    ensures AllCanonical(cfg, i, c) <==> Spaced(cfg, c, i.stored)
  {
    hide Descends, EndOf;
    if AllCanonical(cfg, i, c) {
      forall k: nat | k + 1 < i.stored ensures SpacedAt(cfg, c, k) {
        assert ChainedAt(cfg, i.heads, c.headers, k + 1);
        assert CanonicalAt(cfg, i.heads, c, k) && CanonicalAt(cfg, i.heads, c, k + 1);
      }
    }
    if Spaced(cfg, c, i.stored) {
      forall k: nat | k < i.stored ensures CanonicalAt(cfg, i.heads, c, k) {
        SpacedHeads(cfg, i, c, k);
      }
    }
  }

  lemma {:induction false} SpacedHeads(cfg: Config, i: Indexer, c: Chain, k: nat)
    requires Valid(cfg, i, c.headers) && k < i.stored && CanonicalAt(cfg, i.heads, c, i.stored - 1)
      && Spaced(cfg, c, i.stored)
    ensures CanonicalAt(cfg, i.heads, c, k)
    decreases i.stored - k
  {
    hide Descends, EndOf;
    if k + 1 < i.stored {
      SpacedHeads(cfg, i, c, k + 1);
      assert SpacedAt(cfg, c, k) && ChainedAt(cfg, i.heads, c.headers, k + 1);
      DescendsOnce(c.headers, i.heads[k + 1], SectionHead(i.heads, k), CanonicalHash(c, EndOf(cfg, k)),
                   cfg.sectionSize);
    }
  }

  const ONE_BLOCK := Config(1, 0)

  function SampleHeaders(): map<Hash, Header> {
    map[10 := Header(0, 0), 11 := Header(1, 10), 12 := Header(2, 11), 21 := Header(1, 10)]
  }

  /**
   Three blocks, and the same with block 1 replaced while the old block 2 is still in the index above the new head.
   */
  function Before(): Chain { Chain(SampleHeaders(), map[0 := 10, 1 := 11, 2 := 12]) }

  function HalfWay(): Chain { Chain(SampleHeaders(), map[0 := 10, 1 := 21, 2 := 12]) }

  function SectionEvents(): seq<Event> { [Update, Read, Finish] }

  lemma OneBlockSections(n: nat)
    ensures StartOf(ONE_BLOCK, n) == n && EndOf(ONE_BLOCK, n) == n
  {
  }

  lemma BeginsSection(i: Indexer, head: Hash)
    requires i.job.None? && i.stored < i.known
    requires if i.stored == 0 then head == 0
             else i.stored - 1 in i.heads && i.heads[i.stored - 1] == head == CanonicalHash(Before(), i.stored - 1)
    ensures Begin(ONE_BLOCK, i, Before()) == i.(job := Some(Job(i.stored, head, i.stored, head)))
  {
    OneBlockSections(i.stored);
    if i.stored > 0 {
      OneBlockSections(i.stored - 1);
    }
    hide StartOf, EndOf, Before;
  }

  lemma ReadsBlock(n: nat, head: Hash, h: Hash)
    requires h == CanonicalHash(Before(), n) && h != 0 && h in SampleHeaders() && SampleHeaders()[h] == Header(n, head)
    ensures ReadBlock(ONE_BLOCK, Job(n, head, n, head), Before()) == Some(Job(n, head, n + 1, h))
  {
  }

  lemma CompletesSection(i: Indexer, head: Hash, h: Hash)
    requires (forall k | k in i.heads :: k < i.stored) && i.job == Some(Job(i.stored, head, i.stored + 1, h))
    requires i.stored > 0 ==> i.stored - 1 in i.heads && i.heads[i.stored - 1] == head
    ensures Complete(ONE_BLOCK, i, Before()) == Indexer(i.stored + 1, i.known, i.heads[i.stored := h], None)
  {
    OneBlockSections(i.stored + 1);
    hide StartOf, Before, VerifyLastHead;
    var r := Complete(ONE_BLOCK, i, Before());
    assert r.heads == i.heads[i.stored := h];
  }

  /** With sections of one block, an update, a read and the end of processing store the next section. */
  lemma StoresSection(i: Indexer, head: Hash, h: Hash)
    requires i.job.None? && i.stored < i.known && forall k | k in i.heads :: k < i.stored
    requires if i.stored == 0 then head == 0
             else i.stored - 1 in i.heads && i.heads[i.stored - 1] == head == CanonicalHash(Before(), i.stored - 1)
    requires h == CanonicalHash(Before(), i.stored) && h != 0 && h in SampleHeaders()
      && SampleHeaders()[h] == Header(i.stored, head)
    ensures Run(ONE_BLOCK, World(Before(), i), SectionEvents()) ==
      World(Before(), Indexer(i.stored + 1, i.known, i.heads[i.stored := h], None))
  {
    hide Begin, ReadBlock, Complete, StartOf, SampleHeaders, CanonicalHash;
    var n := i.stored;
    BeginsSection(i, head);
    ReadsBlock(n, head, h);
    CompletesSection(i.(job := Some(Job(n, head, n + 1, h))), head, h);
    OneBlockSections(n + 1);
    var w0 := World(Before(), i);
    var w1, w2 := w0.(indexer := i.(job := Some(Job(n, head, n, head)))),
        w0.(indexer := i.(job := Some(Job(n, head, n + 1, h))));
    var w3 := w0.(indexer := Indexer(n + 1, i.known, i.heads[n := h], None));
    assert Step(ONE_BLOCK, w0, Update) == w1 && Step(ONE_BLOCK, w1, Read) == w2 && Step(ONE_BLOCK, w2, Finish) == w3;
    ThreeSteps(ONE_BLOCK, w0, w1, w2, w3, Update, Read, Finish);
  }

  lemma ThreeSteps(cfg: Config, w0: World, w1: World, w2: World, w3: World, a: Event, b: Event, c: Event)
    requires cfg.sectionSize > 0 && Step(cfg, w0, a) == w1 && Step(cfg, w1, b) == w2 && Step(cfg, w2, c) == w3
    ensures Run(cfg, w0, [a, b, c]) == w3
  {
    hide Step;
    assert [a, b, c][1..] == [b, c] && [b, c][1..] == [c] && [c][1..] == [];
    assert Run(cfg, w3, []) == w3;
    assert Run(cfg, w2, [c]) == w3;
    assert Run(cfg, w1, [b, c]) == w3;
  }

  lemma {:induction false} RunJoins(cfg: Config, w: World, a: seq<Event>, b: seq<Event>)
    requires cfg.sectionSize > 0
    ensures Run(cfg, w, a + b) == Run(cfg, Run(cfg, w, a), b)
    decreases |a|
  {
    hide Step;
    if a == [] {
      assert a + b == b;
    } else {
      assert (a + b)[1..] == a[1..] + b;
      RunJoins(cfg, Step(cfg, w, a[0]), a[1..], b);
    }
  }

  /** Three sections are stored, the chain is reorganised as far as block 1, and the sections are asked for. */
  function MisleadingRun(): seq<Event> {
    [Head(2, false)] + SectionEvents() + SectionEvents() + SectionEvents() + [ChainChanges(HalfWay())] + [Sections]
  }

  function FreshWorld(): World { World(Before(), Indexer(0, 0, map[], None)) }

  lemma ThreeStored()
    ensures Run(ONE_BLOCK, FreshWorld(), [Head(2, false)] + SectionEvents() + SectionEvents() + SectionEvents()) ==
      World(Before(), Indexer(3, 3, map[0 := 10, 1 := 11, 2 := 12], None))
  {
    var w := World(Before(), Indexer(0, 3, map[], None));
    OneStep(ONE_BLOCK, FreshWorld(), Head(2, false));
    assert NewHead(ONE_BLOCK, FreshWorld().indexer, 2, false) == w.indexer;
    StoresSection(w.indexer, 0, 10);
    StoresSection(Indexer(1, 3, map[0 := 10], None), 10, 11);
    StoresSection(Indexer(2, 3, map[0 := 10, 1 := 11], None), 11, 12);
    var es := [Head(2, false)];
    assert map[][0 := 10] == map[0 := 10] && map[0 := 10][1 := 11] == map[0 := 10, 1 := 11];
    assert map[0 := 10, 1 := 11][2 := 12] == map[0 := 10, 1 := 11, 2 := 12];
    hide Run, Step;
    RunJoins(ONE_BLOCK, FreshWorld(), es, SectionEvents());
    RunJoins(ONE_BLOCK, FreshWorld(), es + SectionEvents(), SectionEvents());
    RunJoins(ONE_BLOCK, FreshWorld(), es + SectionEvents() + SectionEvents(), SectionEvents());
  }

  lemma OneStep(cfg: Config, w: World, e: Event)
    requires cfg.sectionSize > 0
    ensures Run(cfg, w, [e]) == Step(cfg, w, e)
  {
    hide Step;
    assert [e][1..] == [];
    assert Run(cfg, Step(cfg, w, e), []) == Step(cfg, w, e);
  }

  /**
   A run from an empty indexer: in the middle of a reorganisation the index is one chain up to the new head, the last
   section head is verified by a stale entry above it, and section 1 is stored and not canonical.
   */
  lemma StaleEntryMisleads()
    ensures var w := Run(ONE_BLOCK, FreshWorld(), MisleadingRun());
      w.chain == HalfWay() && CanonicalTo(w.chain, 1) && w.indexer.stored == 3
        && !CanonicalAt(ONE_BLOCK, w.indexer.heads, w.chain, 1)
  {
    hide Run, Step, SectionEvents;
    var es := [Head(2, false)] + SectionEvents() + SectionEvents() + SectionEvents();
    var w := World(Before(), Indexer(3, 3, map[0 := 10, 1 := 11, 2 := 12], None));
    ThreeStored();
    RunJoins(ONE_BLOCK, FreshWorld(), es, [ChainChanges(HalfWay())]);
    RunJoins(ONE_BLOCK, FreshWorld(), es + [ChainChanges(HalfWay())], [Sections]);
    OneStep(ONE_BLOCK, w, ChainChanges(HalfWay()));
    OneStep(ONE_BLOCK, w.(chain := HalfWay()), Sections);
    StaleStays(w);
    assert LinkedAt(HalfWay(), 0) && LinkedAt(HalfWay(), 1);
  }

  lemma StaleStays(w: World)
    requires w == World(Before(), Indexer(3, 3, map[0 := 10, 1 := 11, 2 := 12], None))
    ensures Step(ONE_BLOCK, w, ChainChanges(HalfWay())) == w.(chain := HalfWay())
    ensures Step(ONE_BLOCK, w.(chain := HalfWay()), Sections) == w.(chain := HalfWay())
    ensures EndOf(ONE_BLOCK, 1) == 1
  {
    OneBlockSections(1);
    OneBlockSections(2);
    hide StartOf, EndOf;
  }

  // ----- the sections in place

  class SectionIndex {
    const cfg: Config
    var storedSections: nat
    var knownSections: nat
    var heads: map<nat, Hash>

    ghost function View(): Indexer
      reads this
    {
      Indexer(storedSections, knownSections, heads, None)
    }

    constructor (cfg: Config)
      requires cfg.sectionSize > 0
      ensures this.cfg == cfg && Valid(cfg, View(), map[]) && storedSections == 0
    {
      this.cfg := cfg;
      storedSections, knownSections, heads := 0, 0, map[];
    }

    method SetValidSections(sections: nat)
      modifies this`storedSections, this`heads
      ensures View() == SetValid(old(View()), sections)
    {
      while storedSections > sections
        invariant sections <= storedSections <= old(storedSections) || storedSections == old(storedSections)
        invariant heads == map k | k in old(heads) && !(storedSections <= k < old(storedSections)) :: old(heads)[k]
      {
        storedSections := storedSections - 1;
        heads := heads - {storedSections};
      }
      storedSections := sections;
    }

    method VerifyHead(c: Chain)
      requires cfg.sectionSize > 0
      modifies this`storedSections, this`heads
      ensures View() == VerifyLastHead(cfg, old(View()), c)
    {
      hide SetValid;
      while storedSections > 0
        invariant VerifyLastHead(cfg, View(), c) == VerifyLastHead(cfg, old(View()), c)
        decreases storedSections
      {
        NextStart(cfg, storedSections - 1);
        if SectionHead(heads, storedSections - 1) == CanonicalHash(c, storedSections * cfg.sectionSize - 1) {
          return;
        }
        SetValidFields(View(), storedSections - 1);
        SetValidSections(storedSections - 1);
      }
    }

    method OnNewHead(head: nat, reorg: bool)
      requires cfg.sectionSize > 0
      modifies this
      ensures View() == NewHead(cfg, old(View()), head, reorg)
    {
      hide SetValid;
      if reorg {
        var changed := (head + 1) / cfg.sectionSize;
        if changed < knownSections {
          knownSections := changed;
        }
        if changed < storedSections {
          SetValidSections(changed);
        }
        return;
      }
      if head >= cfg.confirmsReq {
        var sections := (head + 1 - cfg.confirmsReq) / cfg.sectionSize;
        if sections > knownSections {
          knownSections := sections;
        }
      }
    }

    /**
     The end of an update, with what processing returned. The chain may have been reorganised and sections may have
     been dropped since the section was begun.
     */
    method FinishSection(c: Chain, section: nat, oldHead: Hash, result: Option<Hash>)
      requires Valid(cfg, View(), c.headers) && storedSections <= section && (section > 0 <==> oldHead != 0)
      requires result.Some? ==> Descends(c.headers, result.value, oldHead, cfg.sectionSize)
      modifies this
      ensures Valid(cfg, View(), c.headers)
      ensures 0 < storedSections != section + 1 ==>
        SectionHead(heads, storedSections - 1) == CanonicalHash(c, EndOf(cfg, storedSections - 1))
      ensures storedSections == section + 1 <==>
        result.Some? && (section == 0 || oldHead == old(SectionHead(heads, section - 1)))
    {
      hide Descends, EndOf, VerifyLastHead, StartOf;
      ghost var before := View();
      if result.Some? && (section == 0 || oldHead == SectionHead(heads, section - 1)) {
        ghost var j := Job(section, oldHead, StartOf(cfg, section + 1), result.value);
        NextStart(cfg, section);
        assert Valid(cfg, before.(job := Some(j)), c.headers) by {
          ChainedIgnoresJob(cfg, before, before.(job := Some(j)), c.headers);
        }
        CompleteKeeps(cfg, before.(job := Some(j)), c);
        heads := heads[section := result.value];
        SetValidSections(section + 1);
      } else {
        VerifyKeeps(cfg, before, c);
        VerifyHead(c);
        ChainedIgnoresJob(cfg, View(), View().(known := storedSections), c.headers);
        knownSections := storedSections;
      }
    }
  }

  /**
   processSection: reads the blocks of a section one by one, each from the chain as it is at that time, and accepts
   them only if each follows the one before. What it returns descends from the head it was given by a whole section.
   */
  method ProcessSection(cfg: Config, section: nat, lastHead: Hash, chainAt: nat -> Chain) returns (result: Option<Hash>)
    requires cfg.sectionSize > 0
    requires forall m: nat, n: nat | m <= n :: Grows(chainAt(m), chainAt(n))
    ensures result.Some? ==>
      Descends(chainAt(StartOf(cfg, section + 1)).headers, result.value, lastHead, cfg.sectionSize)
  {
    hide Descends, StartOf, Grows;
    NextStart(cfg, section);
    var head, number := lastHead, StartOf(cfg, section);
    DescendsNowhere(chainAt(number).headers, lastHead);
    while number < StartOf(cfg, section + 1)
      invariant StartOf(cfg, section) <= number <= StartOf(cfg, section + 1)
      invariant Descends(chainAt(number).headers, head, lastHead, number - StartOf(cfg, section))
    {
      var c := chainAt(number);
      var hash := CanonicalHash(c, number);
      if hash == 0 || hash !in c.headers || c.headers[hash].number != number {
        return None;
      }
      if c.headers[hash].parent != head {
        return None;
      }
      DescendsOneMore(c, chainAt(number + 1), hash, head, lastHead, number - StartOf(cfg, section));
      head, number := hash, number + 1;
    }
    return Some(head);
  }

  lemma DescendsNowhere(headers: map<Hash, Header>, h: Hash)
    ensures Descends(headers, h, h, 0)
  {
  }

  lemma DescendsOneMore(a: Chain, b: Chain, hash: Hash, head: Hash, from: Hash, n: nat)
    requires Grows(a, b) && Descends(a.headers, head, from, n) && hash != 0 && hash in a.headers
      && a.headers[hash].parent == head
    ensures Descends(b.headers, hash, from, n + 1)
  {
    DescendsGrows(a.headers, b.headers, head, from, n);
  }
}
