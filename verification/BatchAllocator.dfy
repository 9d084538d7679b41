/**
 The allocator of the JSON values: pages that are used up from their start, and a list of
 released blocks whose links are stored in the blocks themselves.
 */
module BatchAllocator {
  import opened Basics

  /** A pointer: an offset into the buffer of a page. */
  datatype Block = Block(page: nat, offset: nat)

  // ----- block borders -----

  predicate Aligned(a: nat, size: nat) {
    size > 0 && a % size == 0
  }

  lemma AlignedIsMultiple(a: nat, size: nat)
    requires Aligned(a, size)
    ensures a == (a / size) * size
  {
  }

  lemma LessMultiple(m: nat, n: nat, size: nat)
    requires size > 0 && m * size < n * size
    ensures m * size + size <= n * size
  {
    assert (m + 1) * size == m * size + size;
    if m < n {
      Monotone(m + 1, n, size);
    } else {
      Monotone(n, m, size);
    }
  }

  lemma Monotone(m: nat, n: nat, size: nat)
    requires m <= n
    ensures m * size <= n * size
  {
  }

  lemma QuotientIs(x: nat, q: nat, r: nat, n: nat, size: nat)
    requires x == q * size + r && r < size && x == n * size
    ensures r == 0
  {
    assert (q + 1) * size == q * size + size;
    if q < n {
      Monotone(q + 1, n, size);
    } else if n < q {
      Monotone(n, q, size);
    }
  }

  lemma DivMod(x: nat, size: nat)
    requires size > 0
    ensures x == (x / size) * size + x % size
  {
  }

  lemma MultipleIsAligned(n: nat, size: nat)
    requires size > 0
    ensures Aligned(n * size, size)
  {
    var x := n * size;
    DivMod(x, size);
    QuotientIs(x, x / size, x % size, n, size);
  }

  lemma AlignedGap(a: nat, b: nat, size: nat)
    requires Aligned(a, size) && Aligned(b, size) && a < b
    ensures a + size <= b
  {
    hide Aligned;
    AlignedIsMultiple(a, size);
    AlignedIsMultiple(b, size);
    assert size > 0 by { assert Aligned(a, size); Positive(a, size); }
    LessMultiple(a / size, b / size, size);
  }

  lemma Positive(a: nat, size: nat)
    requires Aligned(a, size)
    ensures size > 0
  {
  }

  lemma AlignedNext(a: nat, size: nat)
    requires Aligned(a, size)
    ensures Aligned(a + size, size)
  {
    var n := a / size;
    AlignedIsMultiple(a, size);
    assert a + size == (n + 1) * size;
    MultipleIsAligned(n + 1, size);
  }

  /** A page hands out its block `k` unless it was full before. */
  ghost predicate HandedOut(perPage: nat, size: nat, k: nat) {
    forall j: nat :: j <= k ==> j * size != perPage
  }

  lemma FitsWhenDivides(perPage: nat, size: nat, k: nat)
    requires size > 0 && Aligned(perPage, size) && HandedOut(perPage, size, k)
    ensures k * size + size <= perPage
  {
    hide Aligned;
    var q := perPage / size;
    AlignedIsMultiple(perPage, size);
    assert (k + 1) * size == k * size + size;
    if k < q { Monotone(k + 1, q, size); }
  }

  lemma NeverFull(perPage: nat, size: nat)
    requires size > 0 && !Aligned(perPage, size)
    ensures HandedOut(perPage, size, perPage) && perPage * size + size > perPage
  {
    forall j: nat | j <= perPage
      ensures j * size != perPage
    {
      MultipleIsAligned(j, size);
    }
    assert perPage * size >= perPage;
  }

  /** Every block of a page lies inside the page exactly when the block size divides the page size. */
  lemma FitsIffDivides(perPage: nat, size: nat)
    requires size > 0
    ensures (forall k: nat :: HandedOut(perPage, size, k) ==> k * size + size <= perPage) <==> perPage % size == 0
  {
    if Aligned(perPage, size) {
      forall k: nat | HandedOut(perPage, size, k)
        ensures k * size + size <= perPage
      {
        FitsWhenDivides(perPage, size, k);
      }
    } else {
      NeverFull(perPage, size);
    }
  }

  predicate Overlap(b: Block, c: Block, size: nat) {
    b.page == c.page && b.offset < c.offset + size && c.offset < b.offset + size
  }

  lemma AlignedDisjoint(b: Block, c: Block, size: nat)
    requires Aligned(b.offset, size) && Aligned(c.offset, size) && b != c
    ensures !Overlap(b, c, size)
  {
    hide Aligned;
    if b.offset < c.offset {
      AlignedGap(b.offset, c.offset, size);
    } else if c.offset < b.offset {
      AlignedGap(c.offset, b.offset, size);
    }
  }

  // ----- the two linked lists -----

  function NextOf<T>(s: seq<T>, i: nat): Option<T> {
    if i + 1 < |s| then Some(s[i + 1]) else None
  }

  /** The released blocks in order: no cycle, and the link of each is stored in it. */
  ghost predicate FreeList(head: Option<Block>, word: map<Block, Option<Block>>, free: seq<Block>) {
    && Distinct(free)
    && head == (if free == [] then None else Some(free[0]))
    && forall i: nat :: i < |free| ==> free[i] in word && word[free[i]] == NextOf(free, i)
  }

  lemma PopFree(head: Option<Block>, word: map<Block, Option<Block>>, free: seq<Block>)
    requires FreeList(head, word, free) && head.Some?
    ensures free != [] && head.value in word && head.value !in free[1..] && free == [head.value] + free[1..]
    ensures FreeList(word[head.value], word, free[1..])
  {
    var rest := free[1..];
    assert word[free[0]] == NextOf(free, 0);
    forall i: nat | i < |rest|
      ensures rest[i] in word && word[rest[i]] == NextOf(rest, i)
    {
      assert rest[i] == free[i + 1] && NextOf(rest, i) == NextOf(free, i + 1);
    }
  }

  lemma PushFree(head: Option<Block>, word: map<Block, Option<Block>>, free: seq<Block>, b: Block)
    requires FreeList(head, word, free) && b !in free
    ensures FreeList(Some(b), word[b := head], [b] + free)
  {
    var more, w := [b] + free, word[b := head];
    forall i: nat | i < |more|
      ensures more[i] in w && w[more[i]] == NextOf(more, i)
    {
      if i > 0 {
        assert more[i] == free[i - 1] && NextOf(more, i) == NextOf(free, i - 1);
        assert free[i - 1] in free;
      }
    }
  }

  /** The pages from the head on. */
  ghost predicate Chain(head: nat, next: seq<Option<nat>>, chain: seq<nat>) {
    && chain != [] && chain[0] == head
    && (forall i: nat :: i < |chain| ==> chain[i] < |next| && next[chain[i]] == NextOf(chain, i))
    && Distinct(chain)
  }

  lemma PushChain(head: nat, next: seq<Option<nat>>, chain: seq<nat>)
    requires Chain(head, next, chain)
    ensures Chain(|next|, next + [Some(head)], [|next|] + chain)
  {
    var more, n := [|next|] + chain, next + [Some(head)];
    forall i: nat | i < |more|
      ensures more[i] < |n| && n[more[i]] == NextOf(more, i)
    {
      if i > 0 { assert more[i] == chain[i - 1] && NextOf(more, i) == NextOf(chain, i - 1); }
    }
  }

  // ----- the pages -----

  ghost predicate PagesOk(used: seq<nat>, end: seq<nat>, perPage: nat, size: nat) {
    && |used| == |end|
    && (forall p :: 0 <= p < |used| ==> used[p] <= end[p] && Aligned(used[p], size) && Aligned(end[p], size))
    && (forall p :: 0 <= p < |end| ==> end[p] == if p == 0 then 0 else perPage)  // the first page is empty
  }

  /** All pages of the chain but the first are exhausted. */
  ghost predicate Exhausted(used: seq<nat>, end: seq<nat>, chain: seq<nat>) {
    forall i :: 0 < i < |chain| && chain[i] < |used| && chain[i] < |end| ==> used[chain[i]] == end[chain[i]]
  }

  /** The chain runs through all pages, the newest first. */
  ghost predicate NewestFirst(chain: seq<nat>, pages: nat) {
    |chain| == pages && forall i :: 0 <= i < |chain| ==> chain[i] == pages - 1 - i
  }

  lemma PushNewest(chain: seq<nat>, pages: nat)
    requires NewestFirst(chain, pages)
    ensures NewestFirst([pages] + chain, pages + 1)
  {
  }

  /** Apart from the head, all pages are exhausted. */
  lemma OthersFull(used: seq<nat>, end: seq<nat>, chain: seq<nat>, p: nat)
    requires NewestFirst(chain, |used|) && |end| == |used| && Exhausted(used, end, chain) && p + 1 < |used|
    ensures used[p] == end[p]
  {
    assert chain[|used| - 1 - p] == p;
  }

  /** A block that was cut from a page. */
  ghost predicate Cut(used: seq<nat>, size: nat, b: Block) {
    b.page < |used| && Aligned(b.offset, size) && b.offset + size <= used[b.page]
  }

  /** Cutting the next block from a page cuts that block and no other. */
  lemma CutNext(used: seq<nat>, size: nat, p: nat, b: Block)
    requires p < |used| && Aligned(used[p], size)
    ensures Cut(used[p := used[p] + size], size, b) <==> Cut(used, size, b) || b == Block(p, used[p])
  {
    hide Aligned;
    if b.page == p && Aligned(b.offset, size) && used[p] < b.offset + size && b.offset != used[p] {
      if b.offset < used[p] { AlignedGap(b.offset, used[p], size); } else { AlignedGap(used[p], b.offset, size); Positive(b.offset, size); }
    }
  }

  /** Cutting a block from the head page keeps the pages in order. */
  lemma GrowHead(used: seq<nat>, end: seq<nat>, chain: seq<nat>, perPage: nat, size: nat, head: nat, next: seq<Option<nat>>)
    requires PagesOk(used, end, perPage, size) && |next| == |used| && Chain(head, next, chain) && Exhausted(used, end, chain)
    requires head < |used| && used[head] != end[head]
    ensures PagesOk(used[head := used[head] + size], end, perPage, size) && Exhausted(used[head := used[head] + size], end, chain)
  {
    hide Aligned, NextOf;
    AlignedGap(used[head], end[head], size);
    AlignedNext(used[head], size);
  }

  lemma GrowBlocks(used: seq<nat>, size: nat, p: nat, live: set<Block>, free: seq<Block>)
    requires p < |used| && Aligned(used[p], size)
    requires forall b :: Cut(used, size, b) <==> b in live || b in free
    ensures var c := Block(p, used[p]);
            && c !in live && c !in free
            && forall b :: Cut(used[p := used[p] + size], size, b) <==> b in live + {c} || b in free
  {
    Positive(used[p], size);
    assert !Cut(used, size, Block(p, used[p]));
    forall b
      ensures Cut(used[p := used[p] + size], size, b) <==> Cut(used, size, b) || b == Block(p, used[p])
    {
      CutNext(used, size, p, b);
    }
  }

  lemma ChainPages(head: nat, next: seq<Option<nat>>, chain: seq<nat>)
    requires Chain(head, next, chain)
    ensures chain != [] && chain[0] == head && forall i :: 0 <= i < |chain| ==> chain[i] < |next|
  {
  }

  lemma SamePages(used: seq<nat>, end: seq<nat>, perPage: nat, size: nat)
    requires PagesOk(used, end, perPage, size)
    ensures |used| == |end|
  {
  }

  /** A new page in front of the chain, when the page that was in front is exhausted. */
  lemma PushPage(used: seq<nat>, end: seq<nat>, chain: seq<nat>, perPage: nat, size: nat)
    requires PagesOk(used, end, perPage, size) && Exhausted(used, end, chain) && Aligned(perPage, size)
    requires forall i :: 0 <= i < |chain| ==> chain[i] < |used|
    requires chain != [] && used[chain[0]] == end[chain[0]]
    ensures PagesOk(used + [0], end + [perPage], perPage, size) && Exhausted(used + [0], end + [perPage], [|used|] + chain)
  {
    MultipleIsAligned(0, size);
  }

  /** Nothing has been cut from a new page. */
  lemma PushCut(used: seq<nat>, size: nat)
    requires size > 0
    ensures forall b :: Cut(used + [0], size, b) <==> Cut(used, size, b)
  {
  }

  class Allocator {
    const size: nat     // objectPerAllocation
    const perPage: nat  // objectsPerPage_
    // the page headers, by page
    var next: seq<Option<nat>>
    var used: seq<nat>
    var end: seq<nat>
    var batches: nat
    var current: nat
    var freeHead: Option<Block>
    var word: map<Block, Option<Block>>  // the links stored in released blocks
    ghost var chain: seq<nat>  // the pages from batches_ on
    ghost var free: seq<Block> // the released blocks from freeHead_ on
    ghost var live: set<Block> // the blocks the clients have

    ghost predicate Pages()
      reads this`next, this`used, this`end, this`batches, this`current, this`chain
    {
      && Aligned(perPage, size) && perPage >= 16
      && PagesOk(used, end, perPage, size) && |next| == |used|
      && Chain(batches, next, chain) && Exhausted(used, end, chain) && current == batches
      && NewestFirst(chain, |used|)
    }

    /** The live and the released blocks are exactly those cut from the pages, and no block is both. */
    ghost predicate Blocks()
      reads this`used, this`live, this`free
    {
      && (forall b :: Cut(used, size, b) <==> b in live || b in free)
      && (forall b :: b in live ==> b !in free)
    }

    ghost predicate Valid()
      reads this
    {
      Pages() && Blocks() && FreeList(freeHead, word, free)
    }

    constructor (size: nat, perPage: nat)
      requires size > 0 && perPage >= 16 && perPage % size == 0
      ensures Valid() && live == {} && free == [] && this.size == size && this.perPage == perPage
    {
      this.size, this.perPage := size, perPage;
      next, used, end := [None], [0], [0];
      batches, current, freeHead, word := 0, 0, None, map[];
      chain, free, live := [0], [], {};
    }

    /** A released block, when there is one. */
    method TakeReleased() returns (b: Block)
      requires Valid() && freeHead.Some?
      modifies this`freeHead, this`free, this`live
      ensures Valid() && old(free) == [b] + free && live == old(live) + {b}
    {
      hide Pages, Cut, FreeList;
      PopFree(freeHead, word, free);
      b := freeHead.value;
      freeHead := word[b];
      free := free[1..];
      live := live + {b};
    }

    /** Past the exhausted pages behind the current one, and then a new page. */
    method FindRoom()
      requires Valid() && used[current] == end[current]
      modifies this`next, this`used, this`end, this`batches, this`current, this`chain
      ensures Valid() && used[current] != end[current]
      ensures |used| == old(|used|) + 1
    {
      hide Blocks, FreeList;
      var page := next[current];
      ghost var i := 1;
      while page.Some? && used[page.value] == end[page.value]
        invariant 0 < i <= |chain|
        invariant page == if i < |chain| then Some(chain[i]) else None
        decreases |chain| - i
      {
        page := next[page.value];
        i := i + 1;
      }
      assert page.None?;  // no page behind the current one has room
      AllocateBatch();
    }

    method AllocateBatch()
      requires Valid() && used[current] == end[current]
      modifies this`next, this`used, this`end, this`batches, this`current, this`chain
      ensures Valid() && used[current] != end[current]
      ensures |used| == old(|used|) + 1
    {
      hide Cut, PagesOk, Aligned, Exhausted, FreeList, Distinct, NextOf, Chain, NewestFirst;
      PushNewest(chain, |used|);
      Positive(perPage, size);
      ChainPages(batches, next, chain);
      SamePages(used, end, perPage, size);
      var batch := |used|;
      PushChain(batches, next, chain);
      PushPage(used, end, chain, perPage, size);
      PushCut(used, size);
      next := next + [Some(batches)];
      used := used + [0];
      end := end + [perPage];
      batches := batch;
      current := batch;
      chain := [batch] + chain;
    }

    /** The next block of the current page. */
    method Carve() returns (b: Block)
      requires Valid() && used[current] != end[current]
      modifies this`used, this`live
      ensures Valid() && b !in old(live) && b !in free && live == old(live) + {b}
      ensures |used| == old(|used|)
    {
      hide Cut, Aligned, Chain, PagesOk, Exhausted, FreeList;
      HeadAligned();
      b := Block(current, used[current]);
      GrowHead(used, end, chain, perPage, size, current, next);
      GrowBlocks(used, size, current, live, free);
      used := used[current := used[current] + size];
      live := live + {b};
    }

    lemma HeadAligned()
      requires Pages()
      ensures current < |used| && Aligned(used[current], size)
    {
    }

    /** Every page has been cut up. */
    ghost predicate AllFull()
      reads this`used, this`end
    {
      |used| <= |end| && forall p :: 0 <= p < |used| ==> used[p] == end[p]
    }

    /** The current page tells whether another one is needed. */
    lemma FullIff()
      requires Pages()
      ensures current < |used| && (AllFull() <==> used[current] == end[current])
    {
      assert chain[0] == |used| - 1;
      if used[current] == end[current] {
        forall p: nat | p < |used|
          ensures used[p] == end[p]
        {
          if p + 1 < |used| { OthersFull(used, end, chain, p); }
        }
      }
    }

    /** A block that no client has; no other block changes hands, and memory is asked for only when none is left. */
    method Allocate() returns (b: Block)
      requires Valid()
      modifies this
      ensures Valid() && b !in old(live) && live == old(live) + {b}
      ensures if old(free) == [] then free == [] else old(free) == [b] + free
      ensures |used| == old(|used|) + if old(free == [] && AllFull()) then 1 else 0
    {
      FullIff();
      if freeHead.Some? {
        b := TakeReleased();
        return;
      }
      if used[current] == end[current] {
        FindRoom();
      }
      b := Carve();
    }

    /** A block goes back; its memory now holds the link to the blocks released before. */
    method Release(b: Block)
      requires Valid() && b in live
      modifies this`word, this`freeHead, this`free, this`live
      ensures Valid() && live == old(live) - {b} && free == [b] + old(free)
    {
      hide Pages, Cut, FreeList;
      PushFree(freeHead, word, free, b);
      word := word[b := freeHead];
      freeHead := Some(b);
      free := [b] + free;
      live := live - {b};
    }

    /** Every page but the first, empty one ends where its memory does. */
    lemma PageEnds(p: nat)
      requires Valid() && p < |end|
      ensures end[p] == if p == 0 then 0 else perPage
    {
    }

    /** The blocks of the clients lie inside the memory of their pages and do not overlap. */
    lemma LiveBlocksApart(b: Block, c: Block)
      requires Valid() && b in live && c in live
      ensures 0 < b.page < |end| && b.offset + size <= perPage
      ensures b != c ==> !Overlap(b, c, size)
    {
      assert Cut(used, size, b) && Cut(used, size, c);
      if b != c { AlignedDisjoint(b, c, size); }
    }

    /** Nor does a released block, whose memory the allocator writes to, overlap one of theirs. */
    lemma ReleasedBlocksApart(b: Block, i: nat)
      requires Valid() && b in live && i < |free|
      ensures !Overlap(b, free[i], size)
    {
      assert free[i] in free;
      assert Cut(used, size, b) && Cut(used, size, free[i]);
      AlignedDisjoint(b, free[i], size);
    }
  }
}
