/** The bounded page cache in front of a compressed track, and the stream the decoder reads through
    it. The medium may deliver any page short at any time. */
module CompressedCache {
  import opened Words
  import opened Memory

  const MAX_PAGES := 8
  const MAX_DECODE_READ := 8192

  datatype Page = Page(valid: bool, offset: nat, bytes: nat, stamp: nat)

  const EMPTY := Page(false, 0, 0, 0)

  function Min(a: nat, b: nat): nat { if a <= b then a else b }

  function Align(at: nat, pageSize: nat): nat
    requires 0 < pageSize
  {
    at / pageSize * pageSize
  }

  lemma AlignBounds(at: nat, pageSize: nat)
    requires 0 < pageSize
    ensures Align(at, pageSize) <= at < Align(at, pageSize) + pageSize
  {
    var q, r := Decompose(at, pageSize);
  }

  lemma QuotientsNear(a: nat, b: nat, m: nat)
    requires 0 < m && a <= b < a + m
    ensures a / m <= b / m <= a / m + 1
  {
    var qa, ra := Decompose(a, m);
    var qb, rb := Decompose(b, m);
    assert (qb - qa) * m == b - a - rb + ra;
    if qb < qa {
      MulAtLeast(qa - qb, m);
    } else if qb > qa + 1 {
      MulAtLeast(qb - qa - 1, m);
    }
  }

  /** A span no longer than a page touches only the pages of its two ends. */
  lemma {:induction false} SpanHasTwoPages(start: nat, last: nat, at: nat, pageSize: nat)
    requires 0 < pageSize && start <= at <= last < start + pageSize
    ensures Align(at, pageSize) == Align(start, pageSize) || Align(at, pageSize) == Align(last, pageSize)
  {
    QuotientsNear(start, at, pageSize);
    QuotientsNear(at, last, pageSize);
    QuotientsNear(start, last, pageSize);
  }

  /** The pages a span touches, in order, each once. */
  ghost function PagesOf(offset: nat, n: nat, pageSize: nat): seq<nat>
    requires 0 < pageSize
    decreases n
  {
    if n == 0 then []
    else
      AlignBounds(offset + n - 1, pageSize);
      var last := Align(offset + n - 1, pageSize);
      PagesOf(offset, if last <= offset then 0 else last - offset, pageSize) + [last]
  }

  lemma AlignIs(at: nat, base: nat, pageSize: nat)
    requires 0 < pageSize && Align(base, pageSize) == base <= at < base + pageSize
    ensures Align(at, pageSize) == base
  {
    var q, r := Decompose(at, pageSize);
    var p, z := Decompose(base, pageSize);
    assert (q - p) * pageSize == at - r - base;
    if q < p { MulAtLeast(p - q, pageSize); } else if q > p { MulAtLeast(q - p, pageSize); }
  }

  lemma AlignTwice(at: nat, pageSize: nat)
    requires 0 < pageSize
    ensures Align(Align(at, pageSize), pageSize) == Align(at, pageSize)
  {
    ModIs(Align(at, pageSize), at / pageSize, 0, pageSize);
    var q, r := Decompose(Align(at, pageSize), pageSize);
  }

  /** They are exactly the pages of its bytes, ascending. */
  lemma {:induction false} PagesOfSpan(offset: nat, n: nat, pageSize: nat)
    requires 0 < pageSize
    ensures forall at :: offset <= at < offset + n ==> Align(at, pageSize) in PagesOf(offset, n, pageSize)
    ensures forall page :: page in PagesOf(offset, n, pageSize) ==> PageOfSome(offset, n, pageSize, page)
    ensures Ascending(PagesOf(offset, n, pageSize))
    decreases n
  {
    hide Align;
    if n > 0 {
      var last := Align(offset + n - 1, pageSize);
      AlignBounds(offset + n - 1, pageSize);
      AlignTwice(offset + n - 1, pageSize);
      var m := if last <= offset then 0 else last - offset;
      PagesOfSpan(offset, m, pageSize);
      forall at | offset <= at < offset + n ensures Align(at, pageSize) in PagesOf(offset, n, pageSize) {
        if at >= offset + m { AlignIs(at, last, pageSize); }
      }
      forall page | page in PagesOf(offset, m, pageSize) ensures page < last && PageOfSome(offset, n, pageSize, page) {
        var at :| offset <= at < offset + m && Align(at, pageSize) == page;
        AlignBounds(at, pageSize);
      }
      assert PageOfSome(offset, n, pageSize, last) by { assert offset <= offset + n - 1 < offset + n; }
      var before, all := PagesOf(offset, m, pageSize), PagesOf(offset, n, pageSize);
      assert all == before + [last];
      forall j, k | 0 <= j < k < |all| ensures all[j] < all[k] {
        if k < |before| { assert before[j] < before[k]; } else { assert before[j] in before; }
      }
    }
  }

  ghost predicate PageOfSome(offset: nat, n: nat, pageSize: nat, page: nat)
    requires 0 < pageSize
  {
    exists at :: offset <= at < offset + n && Align(at, pageSize) == page
  }

  ghost predicate Ascending(pages: seq<nat>) { forall j, k :: 0 <= j < k < |pages| ==> pages[j] < pages[k] }

  /** A piece that begins at the start of the span or of a page, and stays in one page. */
  lemma PagesGrow(offset: nat, n: nat, take: nat, pageSize: nat)
    requires 0 < pageSize && 0 < take
    requires n == 0 || Align(offset + n, pageSize) == offset + n
    requires offset + n + take <= Align(offset + n, pageSize) + pageSize
    ensures PagesOf(offset, n + take, pageSize) == PagesOf(offset, n, pageSize) + [Align(offset + n, pageSize)]
  {
    var a := Align(offset + n, pageSize);
    AlignBounds(offset + n, pageSize);
    AlignTwice(offset + n, pageSize);
    AlignIs(offset + n + take - 1, a, pageSize);
    hide Align;
  }

  /** A piece of a read ends with the read or with its page. */
  lemma PieceOfSpan(offset: nat, n: nat, take: nat, rest: nat, pageSize: nat)
    requires 0 < pageSize && 0 < take == Min(rest, Align(offset + n, pageSize) + pageSize - (offset + n))
    requires n == 0 || Align(offset + n, pageSize) == offset + n
    ensures PagesOf(offset, n + take, pageSize) == PagesOf(offset, n, pageSize) + [Align(offset + n, pageSize)]
    ensures take == rest || Align(offset + n + take, pageSize) == offset + n + take
  {
    PagesGrow(offset, n, take, pageSize);
    if take != rest { NextIsAligned(offset + n, pageSize); }
    hide Align, PagesOf;
  }

  lemma NoPages(offset: nat, pageSize: nat)
    requires 0 < pageSize
    ensures PagesOf(offset, 0, pageSize) == []
  {
  }

  lemma MinBounds(a: nat, b: nat)
    ensures Min(a, b) <= a && Min(a, b) <= b && (a == 0 || b == 0 <==> Min(a, b) == 0)
  {
  }

  lemma NextIsAligned(at: nat, pageSize: nat)
    requires 0 < pageSize
    ensures var next := Align(at, pageSize) + pageSize; Align(next, pageSize) == next
  {
    var q := at / pageSize;
    ModIs((q + 1) * pageSize, q + 1, 0, pageSize);
    var p, r := Decompose(Align(at, pageSize) + pageSize, pageSize);
  }

  // ------------------------------------------------------------------ the page table

  predicate Cached(pages: seq<Page>, offset: nat) {
    exists s :: 0 <= s < |pages| && pages[s].valid && pages[s].offset == offset
  }

  /** No page is cached twice. */
  ghost predicate Distinct(pages: seq<Page>) {
    forall s, t :: 0 <= s < |pages| && 0 <= t < |pages| && s != t && pages[s].valid && pages[t].valid ==>
      pages[s].offset != pages[t].offset
  }

  /** `uses` lists the page offsets read or loaded since the cache was bound, in order. When an
      offset was last used, counted from one; zero if never. */
  ghost function LastUse(uses: seq<nat>, offset: nat): nat {
    if uses == [] then 0
    else if uses[|uses| - 1] == offset then |uses|
    else LastUse(uses[..|uses| - 1], offset)
  }

  /** Every stamp is the time of the page's last use. */
  ghost predicate Stamped(pages: seq<Page>, uses: seq<nat>) {
    forall s :: 0 <= s < |pages| && pages[s].valid ==>
      pages[s].stamp == LastUse(uses, pages[s].offset) && 0 < pages[s].stamp
  }

  lemma {:induction false} LastUseBounds(uses: seq<nat>, offset: nat)
    ensures LastUse(uses, offset) <= |uses|
    ensures LastUse(uses, offset) > 0 ==> uses[LastUse(uses, offset) - 1] == offset
  {
    if uses != [] && uses[|uses| - 1] != offset {
      LastUseBounds(uses[..|uses| - 1], offset);
    }
  }

  lemma UseAgain(uses: seq<nat>, used: nat, offset: nat)
    ensures LastUse(uses + [used], offset) == if offset == used then |uses| + 1 else LastUse(uses, offset)
  {
    assert (uses + [used])[..|uses|] == uses;
  }

  /** Touching a page or publishing a freshly loaded one. */
  lemma UseKeeps(pages: seq<Page>, uses: seq<nat>, slot: nat, page: Page)
    requires Distinct(pages) && Stamped(pages, uses) && slot < |pages|
    requires page.valid && page.stamp == |uses| + 1
    requires forall t :: 0 <= t < |pages| && t != slot && pages[t].valid ==> pages[t].offset != page.offset
    ensures Distinct(pages[slot := page]) && Stamped(pages[slot := page], uses + [page.offset])
  {
    var pages' := pages[slot := page];
    forall s | 0 <= s < |pages'| && pages'[s].valid
      ensures pages'[s].stamp == LastUse(uses + [page.offset], pages'[s].offset)
    {
      UseAgain(uses, page.offset, pages'[s].offset);
    }
  }

  /** Distinct offsets were last used at distinct times. */
  lemma {:induction false} StampsDistinct(pages: seq<Page>, uses: seq<nat>, s: nat, t: nat)
    requires Distinct(pages) && Stamped(pages, uses)
    requires s < |pages| && t < |pages| && s != t && pages[s].valid && pages[t].valid
    ensures pages[s].stamp != pages[t].stamp
  {
    LastUseBounds(uses, pages[s].offset);
    LastUseBounds(uses, pages[t].offset);
  }

  /** The slot to overwrite: the first empty one, else the one with the least stamp. */
  ghost predicate Victim(pages: seq<Page>, v: nat) {
    && v < |pages|
    && if pages[v].valid
       then forall s :: 0 <= s < |pages| ==> pages[s].valid && pages[v].stamp <= pages[s].stamp
       else forall s :: 0 <= s < v ==> pages[s].valid
  }

  /** Eviction takes an empty slot or the page whose last use is strictly the oldest. */
  lemma {:induction false} VictimIsLeastRecent(pages: seq<Page>, uses: seq<nat>, v: nat)
    requires Distinct(pages) && Stamped(pages, uses) && Victim(pages, v)
    ensures pages[v].valid ==> forall s :: 0 <= s < |pages| && s != v ==>
              pages[s].valid && LastUse(uses, pages[v].offset) < LastUse(uses, pages[s].offset)
  {
    if pages[v].valid {
      forall s | 0 <= s < |pages| && s != v
        ensures pages[s].valid && LastUse(uses, pages[v].offset) < LastUse(uses, pages[s].offset)
      {
        StampsDistinct(pages, uses, s, v);
      }
    }
  }

  // ------------------------------------------------------------------ warming the next read

  /** The table before and after a prefetch that succeeded: a hit leaves recency alone. */
  ghost predicate Prefetched(pages: seq<Page>, stamp: nat, offset: nat, pages': seq<Page>, stamp': nat) {
    if Cached(pages, offset) then pages' == pages && stamp' == stamp
    else stamp' == stamp + 1 && exists v: nat :: Loaded(pages, v, offset, stamp', pages')
  }

  ghost predicate Loaded(pages: seq<Page>, v: nat, offset: nat, stamp: nat, pages': seq<Page>) {
    && Victim(pages, v)
    && |pages'| == |pages|
    && pages' == pages[v := Page(true, offset, pages'[v].bytes, stamp)]
  }

  /** The page is cached, every slot is taken, and all the other pages were used later. */
  ghost predicate NextToGo(pages: seq<Page>, uses: seq<nat>, offset: nat) {
    && Cached(pages, offset)
    && (forall s :: 0 <= s < |pages| ==> pages[s].valid && LastUse(uses, offset) <= LastUse(uses, pages[s].offset))
  }

  /** Two successful prefetches leave the second page cached; the first page is still cached
      unless it was a hit on the oldest page of a full cache and the second page was a miss. */
  lemma {:induction false} WarmedExactly(
      pages: seq<Page>, uses: seq<nat>, first: nat, second: nat,
      pages1: seq<Page>, stamp1: nat, pages2: seq<Page>, stamp2: nat)
    requires Distinct(pages) && Stamped(pages, uses) && 2 <= |pages| && first != second
    requires Prefetched(pages, |uses|, first, pages1, stamp1)
    requires Prefetched(pages1, stamp1, second, pages2, stamp2)
    ensures Cached(pages2, second)
    ensures Cached(pages2, first) <==> !(NextToGo(pages, uses, first) && !Cached(pages, second))
  {
    if Cached(pages, first) {
      if !Cached(pages, second) {
        var v: nat :| Loaded(pages, v, second, stamp1 + 1, pages2);
        assert pages2[v].valid && pages2[v].offset == second;
        SecondMiss(pages, uses, first, second, v, pages2);
      }
    } else {
      var v: nat :| Loaded(pages, v, first, |uses| + 1, pages1);
      assert pages1[v].valid && pages1[v].offset == first;
      if !Cached(pages1, second) {
        var w: nat :| Loaded(pages1, w, second, stamp1 + 1, pages2);
        assert pages2[w].valid && pages2[w].offset == second;
        if w == v {
          var other := if v == 0 then 1 else 0;
          assert pages1[other].stamp >= |uses| + 1;
          LastUseBounds(uses, pages[other].offset);
          assert false;
        }
        assert pages2[v] == pages1[v];
      }
    }
  }

  lemma SecondMiss(pages: seq<Page>, uses: seq<nat>, first: nat, second: nat, v: nat, pages2: seq<Page>)
    requires Distinct(pages) && Stamped(pages, uses) && Cached(pages, first) && first != second && Victim(pages, v)
    requires |pages2| == |pages| && pages2[v].offset == second
    requires forall s :: 0 <= s < |pages| && s != v ==> pages2[s] == pages[s]
    ensures Cached(pages2, first) <==> !NextToGo(pages, uses, first)
  {
    var s :| 0 <= s < |pages| && pages[s].valid && pages[s].offset == first;
    if s == v {
      assert forall t :: 0 <= t < |pages| ==> pages[t].valid && LastUse(uses, first) == pages[v].stamp <= pages[t].stamp;
      assert !Cached(pages2, first);
    } else {
      assert pages2[s].valid && pages2[s].offset == first;
      VictimIsLeastRecent(pages, uses, v);
      assert pages[v].valid ==> LastUse(uses, pages[v].offset) < LastUse(uses, first);
    }
  }

  /** A single successful prefetch keeps another page cached exactly unless it had to load and the
      other page was next to go. */
  lemma {:induction false} PrefetchKeepsOther(
      pages: seq<Page>, uses: seq<nat>, first: nat, other: nat, pages1: seq<Page>, stamp1: nat)
    requires Distinct(pages) && Stamped(pages, uses) && first != other
    requires Prefetched(pages, |uses|, first, pages1, stamp1)
    ensures Cached(pages1, other) <==> Cached(pages, other) && !(NextToGo(pages, uses, other) && !Cached(pages, first))
  {
    if !Cached(pages, first) {
      var v: nat :| Loaded(pages, v, first, stamp1, pages1);
      if Cached(pages, other) {
        SecondMiss(pages, uses, other, first, v, pages1);
      }
    }
  }

  /** Near the end of the file the second prefetch is refused: here the read of the last 1100 bytes
      needs the page at 32768, and warming has fetched only the first page. */
  lemma WarmingMissesTheTail()
    ensures var file, start, pageSize := 32868, 31768, 32768;
            var later := [Page(true, 0, 32768, 1), EMPTY];
            && start < file <= start + MAX_DECODE_READ - 1
            && Align(start, pageSize) == 0 && Align(file - 1, pageSize) == 32768
            && Prefetched([EMPTY, EMPTY], 0, Align(start, pageSize), later, 1)
            && !Cached(later, Align(file - 1, pageSize))
  {
    assert Victim([EMPTY, EMPTY], 0);
    assert Loaded([EMPTY, EMPTY], 0, 0, 1, [Page(true, 0, 32768, 1), EMPTY]);
    assert 31768 / 32768 == 0 && 32867 / 32768 == 1;
  }

  /** The comment promises that the read after warming stays off the medium. Here both prefetches
      succeed, and the second has evicted the page the first one found. */
  lemma WarmingCanEvictItsOwnPage()
    ensures var pages := [Page(true, 0, 4, 1), Page(true, 8, 4, 2)];
            var later := [Page(true, 4, 4, 3), Page(true, 8, 4, 2)];
            && Distinct(pages) && Stamped(pages, [0, 8])
            && Prefetched(pages, 2, 0, pages, 2) && Prefetched(pages, 2, 4, later, 3)
            && !Cached(later, 0)
  {
    var pages := [Page(true, 0, 4, 1), Page(true, 8, 4, 2)];
    assert LastUse([0, 8], 8) == 2;
    assert [0, 8][..1] == [0];
    assert LastUse([0, 8], 0) == LastUse([0], 0) == 1;
    assert pages[0].valid && pages[0].offset == 0;
    assert Victim(pages, 0);
    assert Loaded(pages, 0, 4, 3, [Page(true, 4, 4, 3), Page(true, 8, 4, 2)]);
  }

  // ------------------------------------------------------------------ the bytes

  /** A valid page holds its whole extent of the file: never a truncated one. */
  ghost predicate Holds(page: Page, slot: nat, storage: seq<byte>, pageSize: nat, file: seq<byte>) {
    && page.offset < |file|
    && page.bytes == Min(pageSize, |file| - page.offset)
    && slot * pageSize + page.bytes <= |storage|
    && storage[slot * pageSize..slot * pageSize + page.bytes] == file[page.offset..page.offset + page.bytes]
  }

  ghost predicate AllHold(pages: seq<Page>, storage: seq<byte>, pageSize: nat, file: seq<byte>) {
    forall s :: 0 <= s < |pages| && pages[s].valid ==> Holds(pages[s], s, storage, pageSize, file)
  }

  lemma SlotRoom(slot: nat, count: nat, pageSize: nat)
    requires slot < count
    ensures slot * pageSize + pageSize <= count * pageSize
  {
    assert (count - slot - 1) * pageSize >= 0;
    assert count * pageSize == slot * pageSize + pageSize + (count - slot - 1) * pageSize;
  }

  /** Overwriting one slot's extent leaves the other slots' pages alone. */
  lemma StoreKeeps(pages: seq<Page>, storage: seq<byte>, pageSize: nat, file: seq<byte>, slot: nat, storage': seq<byte>)
    requires AllHold(pages, storage, pageSize, file) && slot < |pages| && |storage'| == |storage|
    requires forall i :: 0 <= i < |storage| && !(slot * pageSize <= i < slot * pageSize + pageSize) ==> storage'[i] == storage[i]
    ensures forall s :: 0 <= s < |pages| && s != slot && pages[s].valid ==> Holds(pages[s], s, storage', pageSize, file)
  {
    forall s | 0 <= s < |pages| && s != slot && pages[s].valid ensures Holds(pages[s], s, storage', pageSize, file) {
      if s < slot { SlotRoom(s, slot, pageSize); } else { SlotRoom(slot, s, pageSize); }
      var lo, hi := s * pageSize, s * pageSize + pages[s].bytes;
      assert storage'[lo..hi] == storage[lo..hi];
    }
  }

  /** A page published in the slot its bytes were just stored in. */
  lemma PublishHolds(pages: seq<Page>, storage: seq<byte>, pageSize: nat, file: seq<byte>, slot: nat, page: Page)
    requires slot < |pages| && Holds(page, slot, storage, pageSize, file)
    requires forall s :: 0 <= s < |pages| && s != slot && pages[s].valid ==> Holds(pages[s], s, storage, pageSize, file)
    ensures AllHold(pages[slot := page], storage, pageSize, file)
  {
    hide Holds;
  }

  /** Every address of the span lies in a cached page. */
  ghost predicate Spans(pages: seq<Page>, offset: nat, bytes: nat, pageSize: nat)
    requires 0 < pageSize
  {
    forall at: nat :: offset <= at < offset + bytes ==> Cached(pages, Align(at, pageSize))
  }

  lemma SpanAt(pages: seq<Page>, offset: nat, bytes: nat, pageSize: nat, at: nat)
    requires 0 < pageSize && Spans(pages, offset, bytes, pageSize) && offset <= at < offset + bytes
    ensures Cached(pages, Align(at, pageSize))
  {
  }

  lemma SpanStays(pages: seq<Page>, pages': seq<Page>, offset: nat, bytes: nat, pageSize: nat)
    requires 0 < pageSize && Spans(pages, offset, bytes, pageSize) && forall o :: Cached(pages, o) ==> Cached(pages', o)
    ensures Spans(pages', offset, bytes, pageSize)
  {
    hide Cached, Align;
  }

  class Cache {
    const file: seq<byte>
    const pageSize: nat
    const pages: array<Page>
    const storage: array<byte>
    var stamp: nat
    var hits: nat
    var misses: nat
    var shortReads: nat
    var backendBytes: nat
    ghost var uses: seq<nat>

    ghost predicate Valid()
      reads this, pages, storage
    {
      && 0 < pageSize && 0 < pages.Length <= MAX_PAGES
      && file != []
      && pages.Length * pageSize <= storage.Length
      && stamp == |uses|
      && Distinct(pages[..]) && Stamped(pages[..], uses)
      && AllHold(pages[..], storage[..], pageSize, file)
    }

    constructor (storage: array<byte>, pageSize: nat, file: seq<byte>)
      requires 0 < pageSize && file != [] && 0 < storage.Length / pageSize <= MAX_PAGES
      ensures Valid() && this.storage == storage && this.pageSize == pageSize && this.file == file
      ensures fresh(pages) && pages.Length == storage.Length / pageSize
      ensures stamp == hits == misses == shortReads == backendBytes == 0
      ensures forall s :: 0 <= s < pages.Length ==> !pages[s].valid
    {
      this.storage, this.pageSize, this.file := storage, pageSize, file;
      this.pages := new Page[storage.Length / pageSize](i => EMPTY);
      stamp, hits, misses, shortReads, backendBytes, uses := 0, 0, 0, 0, 0, [];
      new;
      var q, r := Decompose(storage.Length, pageSize);
    }

    method FindPage(aligned: nat) returns (found: bool, slot: nat)
      requires Valid()
      ensures found <==> Cached(pages[..], aligned)
      ensures found ==> slot < pages.Length && pages[slot].valid && pages[slot].offset == aligned
    {
      var i := 0;
      while i < pages.Length
        invariant i <= pages.Length
        invariant forall s :: 0 <= s < i ==> !(pages[s].valid && pages[s].offset == aligned)
      {
        if pages[i].valid && pages[i].offset == aligned {
          assert pages[..][i] == pages[i];
          return true, i;
        }
        i := i + 1;
      }
      return false, 0;
    }

    method ChooseVictim() returns (victim: nat)
      requires Valid()
      ensures Victim(pages[..], victim)
    {
      victim := 0;
      var i := 0;
      while i < pages.Length
        invariant i <= pages.Length
        invariant victim < pages.Length
        invariant forall s :: 0 <= s < i ==> pages[s].valid && pages[victim].stamp <= pages[s].stamp
      {
        if !pages[i].valid { return i; }
        if pages[i].stamp < pages[victim].stamp { victim := i; }
        i := i + 1;
      }
    }

    /** The medium: a full read delivers the file, a short one delivers anything. */
    method ReadAt(at: nat, wanted: nat) returns (data: seq<byte>)
      requires at + wanted <= |file|
      ensures |data| <= wanted
      ensures |data| == wanted ==> data == file[at..at + wanted]
    {
      data := *;
      if |data| >= wanted { data := file[at..at + wanted]; }
    }

    method Store(slot: nat, data: seq<byte>)
      requires Valid() && slot < pages.Length && |data| <= pageSize
      modifies storage
      ensures slot * pageSize + |data| <= storage.Length
      ensures storage[slot * pageSize..slot * pageSize + |data|] == data
      ensures forall s :: 0 <= s < pages.Length && s != slot && pages[s].valid ==>
                Holds(pages[s], s, storage[..], pageSize, file)
    {
      SlotRoom(slot, pages.Length, pageSize);
      ghost var was := storage[..];
      Copy(storage, slot * pageSize, data);
      OutsideSlot(was, storage[..], slot * pageSize, |data|, pageSize);
      StoreKeeps(pages[..], was, pageSize, file, slot, storage[..]);
    }

    /** Fetches a page into the victim's slot. A short read publishes nothing and retires the slot. */
    method LoadPage(aligned: nat) returns (loaded: bool, slot: nat)
      requires Valid() && aligned < |file| && !Cached(pages[..], aligned)
      modifies this, pages, storage
      ensures Valid() && misses == old(misses) + 1 && hits == old(hits)
      ensures old(backendBytes) <= backendBytes <= old(backendBytes) + Min(pageSize, |file| - aligned)
      ensures loaded <==> backendBytes == old(backendBytes) + Min(pageSize, |file| - aligned)
      ensures Victim(old(pages[..]), slot)
      ensures loaded ==> shortReads == old(shortReads) && uses == old(uses) + [aligned]
      ensures loaded ==> pages[slot].valid && pages[slot].offset == aligned
                         && Loaded(old(pages[..]), slot, aligned, stamp, pages[..])
      ensures !loaded ==> shortReads == old(shortReads) + 1 && uses == old(uses)
                          && pages[..] == old(pages[..])[slot := EMPTY]
    {
      slot := ChooseVictim();
      var wanted := Min(pageSize, |file| - aligned);
      var data := ReadAt(aligned, wanted);
      Store(slot, data);
      misses, backendBytes := misses + 1, backendBytes + |data|;
      if |data| != wanted {
        pages[slot] := EMPTY;
        assert pages[..] == old(pages[..])[slot := EMPTY];
        shortReads := shortReads + 1;
        return false, slot;
      }
      stamp := stamp + 1;
      uses := uses + [aligned];
      var page := Page(true, aligned, |data|, stamp);
      UseKeeps(pages[..], old(uses), slot, page);
      assert Holds(page, slot, storage[..], pageSize, file);
      PublishHolds(pages[..], storage[..], pageSize, file, slot, page);
      pages[slot] := page;
      assert pages[..] == old(pages[..])[slot := page];
      return true, slot;
    }

    /** A hit makes the page the most recently used one. */
    method Touch(slot: nat)
      requires Valid() && slot < pages.Length && pages[slot].valid
      modifies this, pages
      ensures Valid() && hits == old(hits) + 1 && misses == old(misses) && shortReads == old(shortReads)
      ensures uses == old(uses) + [pages[slot].offset]
      ensures pages[..] == old(pages[..])[slot := old(pages[slot]).(stamp := stamp)]
    {
      hits, stamp := hits + 1, stamp + 1;
      var page := pages[slot].(stamp := stamp);
      UseKeeps(pages[..], uses, slot, page);
      uses := uses + [page.offset];
      PublishHolds(pages[..], storage[..], pageSize, file, slot, page);
      pages[slot] := page;
      assert pages[..] == old(pages[..])[slot := page];
    }

    method Prefetch(offset: nat) returns (ok: bool)
      requires Valid()
      modifies this, pages, storage
      ensures Valid()
      ensures ok ==> offset < |file| && Prefetched(old(pages[..]), old(stamp), Align(offset, pageSize), pages[..], stamp)
      ensures ok ==> Cached(pages[..], Align(offset, pageSize))
      ensures uses == old(uses) + if ok && !old(Cached(pages[..], Align(offset, pageSize))) then [Align(offset, pageSize)] else []
      ensures !ok ==> offset >= |file| || shortReads == old(shortReads) + 1
      ensures offset >= |file| ==> !ok && pages[..] == old(pages[..]) && stamp == old(stamp) && uses == old(uses)
    {
      if offset >= |file| { return false; }
      var aligned := Align(offset, pageSize);
      AlignBounds(offset, pageSize);
      var found, slot := FindPage(aligned);
      if found { return true; }
      ok, slot := LoadPage(aligned);
      assert ok ==> pages[..][slot].valid && pages[..][slot].offset == aligned;
    }

    /** The page for a read: a hit refreshes it, a miss loads it. */
    method PageFor(aligned: nat) returns (ok: bool, slot: nat)
      requires Valid() && aligned < |file|
      modifies this, pages, storage
      ensures Valid()
      ensures ok ==> slot < pages.Length && pages[slot].valid && pages[slot].offset == aligned
      ensures ok ==> pages[slot].bytes == Min(pageSize, |file| - aligned)
      ensures shortReads == old(shortReads) + if ok then 0 else 1
      ensures uses == old(uses) + if ok then [aligned] else []
      ensures old(Cached(pages[..], aligned)) ==> ok && misses == old(misses)
      ensures old(Cached(pages[..], aligned)) ==> forall o :: Cached(old(pages[..]), o) ==> Cached(pages[..], o)
    {
      ok, slot := FindPage(aligned);
      if ok {
        Touch(slot);
        TouchKeepsCached(old(pages[..]), slot, pages[slot], pages[..]);
      } else {
        ok, slot := LoadPage(aligned);
      }
      assert ok ==> Holds(pages[slot], slot, storage[..], pageSize, file);
    }

    method CopyOut(slot: nat, within: nat, take: nat, dst: array<byte>, copied: nat)
      requires Valid() && dst != storage
      requires slot < pages.Length && pages[slot].valid && within + take <= pages[slot].bytes
      requires copied + take <= dst.Length
      modifies dst
      ensures dst[copied..copied + take] == file[pages[slot].offset + within..pages[slot].offset + within + take]
      ensures dst[..copied] == old(dst[..copied]) && dst[copied + take..] == old(dst[copied + take..])
    {
      var piece := Piece(slot, within, take);
      hide *;
      Copy(dst, copied, piece);
    }

    /** Part of a cached page is that part of the file. */
    method Piece(slot: nat, within: nat, take: nat) returns (piece: seq<byte>)
      requires Valid() && slot < pages.Length && pages[slot].valid && within + take <= pages[slot].bytes
      ensures pages[slot].offset + within + take <= |file|
      ensures piece == file[pages[slot].offset + within..pages[slot].offset + within + take]
    {
      hide AllHold, Distinct, Stamped;
      HeldIn(pages[..], slot, storage[..], pageSize, file, within, take);
      var base := SlotAt(slot, pageSize) + within;
      hide *;
      piece := storage[base..base + take];
      assert piece == storage[..][base..base + take];
    }

    ghost predicate SpanCached(offset: nat, bytes: nat)
      requires 0 < pageSize
      reads this, pages
    {
      Spans(pages[..], offset, bytes, pageSize)
    }

    /** What is delivered is the file at that offset, all of it unless the medium failed during
        this call, and without the medium when every page of the span was cached. It uses exactly the
        pages of what it delivers, in order, so that these become the most recently used. */
    method Read(offset: nat, dst: array<byte>, bytes: nat) returns (n: nat)
      requires Valid() && dst != storage && bytes <= dst.Length
      modifies this, pages, storage, dst
      ensures Valid()
      ensures n <= Min(bytes, if offset < |file| then |file| - offset else 0)
      ensures n > 0 ==> dst[..n] == file[offset..offset + n]
      ensures dst[n..] == old(dst[n..])
      ensures shortReads == old(shortReads) <==> n == Min(bytes, if offset < |file| then |file| - offset else 0)
      ensures uses == old(uses) + PagesOf(offset, n, pageSize)
      ensures old(SpanCached(offset, Min(bytes, if offset < |file| then |file| - offset else 0))) ==> misses == old(misses)
    {
      hide Distinct, Stamped, AllHold, Align, Cached, Spans, PagesOf, Min;
      NoPages(offset, pageSize);
      MinBounds(bytes, if offset < |file| then |file| - offset else 0);
      if bytes == 0 || offset >= |file| { return 0; }
      var want := Min(bytes, |file| - offset);
      n := 0;
      while n < want
        invariant Valid() && n <= want && shortReads == old(shortReads)
        invariant uses == old(uses) + PagesOf(offset, n, pageSize)
        invariant n == 0 || n == want || Align(offset + n, pageSize) == offset + n
        invariant dst[..][..n] == file[offset..offset + n] && dst[..][n..] == old(dst[..])[n..]
        invariant old(SpanCached(offset, want)) ==> misses == old(misses) && SpanCached(offset, want)
      {
        ghost var was, before := pages[..], dst[..];
        ghost var spanned := Spans(was, offset, want, pageSize);
        if spanned { SpanAt(was, offset, want, pageSize, offset + n); }
        var take := ReadPage(offset + n, want - n, dst, n);
        if spanned { SpanStays(was, pages[..], offset, want, pageSize); }
        AppendCopied(old(dst[..]), before, dst[..], file, offset, n, take);
        if take == 0 { return; }
        PieceOfSpan(offset, n, take, want - n, pageSize);
        n := n + take;
      }
    }

    /** One page's share of a read; nothing only if the medium fell short. */
    method ReadPage(at: nat, want: nat, dst: array<byte>, n: nat) returns (take: nat)
      requires Valid() && dst != storage && 0 < want && at + want <= |file| && n + want <= dst.Length
      modifies this, pages, storage, dst
      ensures Valid() && take <= want
      ensures shortReads == old(shortReads) + if take == 0 then 1 else 0
      ensures dst[n..n + take] == file[at..at + take]
      ensures dst[..n] == old(dst[..n]) && dst[n + take..] == old(dst[n + take..])
      ensures uses == old(uses) + if take == 0 then [] else [Align(at, pageSize)]
      ensures take > 0 ==> take == Min(want, Align(at, pageSize) + pageSize - at)
      ensures old(Cached(pages[..], Align(at, pageSize))) ==>
                misses == old(misses) && forall o :: Cached(old(pages[..]), o) ==> Cached(pages[..], o)
    {
      AlignBounds(at, pageSize);
      hide Distinct, Stamped, AllHold, Align;
      var aligned := Align(at, pageSize);
      var ok, slot := PageFor(aligned);
      if !ok { return 0; }
      // The page holds its whole extent, so `at` lies inside it and something is taken.
      var within := at - aligned;
      take := Min(want, pages[slot].bytes - within);
      CopyOut(slot, within, take, dst, n);
    }

    /** Warming for the next read, with pages that hold a whole read. When both prefetches succeed
        the later page is cached, and the earlier one is too unless it was found as the oldest page
        of a full cache and the later page was not found. Less than a whole read before the end of
        the file the second prefetch is refused, so the next read's span is cached exactly if it
        ends in the page of its start, or if its last page was there and was not evicted. */
    method Warm(start: nat) returns (first: bool, second: bool)
      requires Valid()
      modifies this, pages, storage
      ensures Valid()
      ensures (first ==> start < |file|) && (second ==> start + MAX_DECODE_READ <= |file|)
      ensures var a := Align(start, pageSize);
              var b := Align(start + MAX_DECODE_READ - 1, pageSize);
              first && second && 2 <= pages.Length && MAX_DECODE_READ <= pageSize ==>
                (SpanCached(start, MAX_DECODE_READ) <==>
                 !(a != b && old(NextToGo(pages[..], uses, a) && !Cached(pages[..], b))))
      ensures var a := Align(start, pageSize);
              var b := Align(|file| - 1, pageSize);
              first && start < |file| < start + MAX_DECODE_READ <= start + pageSize ==>
                (SpanCached(start, |file| - start) <==>
                 a == b || old(Cached(pages[..], b) && !(NextToGo(pages[..], uses, b) && !Cached(pages[..], a))))
    {
      hide Align, Distinct, Stamped, AllHold, NextToGo, Prefetched, Cached, Spans;
      first := Prefetch(start);
      ghost var pages1, stamp1 := pages[..], stamp;
      second := Prefetch(start + MAX_DECODE_READ - 1);
      if first && MAX_DECODE_READ <= pageSize {
        ghost var a := Align(start, pageSize);
        if start + MAX_DECODE_READ > |file| {
          TailWarmed(old(pages[..]), old(uses), a, Align(|file| - 1, pageSize), pages[..], stamp);
          SpanNeedsEnds(pages[..], start, |file| - start, pageSize);
        } else if second && 2 <= pages.Length {
          BothWarmed(old(pages[..]), old(uses), a, Align(start + MAX_DECODE_READ - 1, pageSize), pages1, stamp1, pages[..], stamp);
          SpanNeedsEnds(pages[..], start, MAX_DECODE_READ, pageSize);
        }
      }
    }
  }

  /** Whether both ends of the next read are cached after two successful prefetches. */
  lemma BothWarmed(
      pages: seq<Page>, uses: seq<nat>, a: nat, b: nat, pages1: seq<Page>, stamp1: nat, pages2: seq<Page>, stamp2: nat)
    requires Distinct(pages) && Stamped(pages, uses) && 2 <= |pages|
    requires Prefetched(pages, |uses|, a, pages1, stamp1) && Prefetched(pages1, stamp1, b, pages2, stamp2)
    ensures Cached(pages2, b) ==>
              (Cached(pages2, a) && Cached(pages2, b) <==> !(a != b && NextToGo(pages, uses, a) && !Cached(pages, b)))
  {
    hide Distinct, Stamped, NextToGo;
    if a != b {
      WarmedExactly(pages, uses, a, b, pages1, stamp1, pages2, stamp2);
    }
    hide Prefetched, Cached;
  }

  /** Whether both ends are cached when only the first was prefetched. */
  lemma TailWarmed(pages: seq<Page>, uses: seq<nat>, a: nat, b: nat, pages1: seq<Page>, stamp1: nat)
    requires Distinct(pages) && Stamped(pages, uses) && Prefetched(pages, |uses|, a, pages1, stamp1)
    ensures Cached(pages1, a) ==>
              (Cached(pages1, a) && Cached(pages1, b) <==>
               a == b || (Cached(pages, b) && !(NextToGo(pages, uses, b) && !Cached(pages, a))))
  {
    hide Distinct, Stamped, NextToGo;
    if a != b {
      PrefetchKeepsOther(pages, uses, a, b, pages1, stamp1);
    }
    hide Prefetched, Cached;
  }

  lemma TouchKeepsCached(pages: seq<Page>, slot: nat, page: Page, pages': seq<Page>)
    requires slot < |pages| && page.valid && page.offset == pages[slot].offset && pages' == pages[slot := page]
    ensures forall o :: Cached(pages, o) ==> Cached(pages', o)
  {
    forall o | Cached(pages, o) ensures Cached(pages', o) {
      var s :| 0 <= s < |pages| && pages[s].valid && pages[s].offset == o;
      assert pages'[s].valid && pages'[s].offset == o;
    }
  }

  function SlotAt(slot: nat, pageSize: nat): nat { slot * pageSize }

  lemma HeldIn(pages: seq<Page>, slot: nat, storage: seq<byte>, pageSize: nat, file: seq<byte>, within: nat, take: nat)
    requires AllHold(pages, storage, pageSize, file) && slot < |pages| && pages[slot].valid && within + take <= pages[slot].bytes
    ensures var base, at := SlotAt(slot, pageSize) + within, pages[slot].offset + within;
            base + take <= |storage| && at + take <= |file| && storage[base..base + take] == file[at..at + take]
  {
    assert Holds(pages[slot], slot, storage, pageSize, file);
    hide Holds, AllHold;
    HeldPart(pages[slot], slot, storage, pageSize, file, within, take);
  }

  /** Any part of a page is that part of the file. */
  lemma HeldPart(page: Page, slot: nat, storage: seq<byte>, pageSize: nat, file: seq<byte>, within: nat, take: nat)
    requires Holds(page, slot, storage, pageSize, file) && within + take <= page.bytes
    ensures slot * pageSize + within + take <= |storage| && page.offset + within + take <= |file|
    ensures storage[slot * pageSize + within..slot * pageSize + within + take]
         == file[page.offset + within..page.offset + within + take]
  {
    PartOf(storage, slot * pageSize, file, page.offset, page.bytes, within, take);
  }

  lemma PartOf(a: seq<byte>, p: nat, b: seq<byte>, q: nat, n: nat, within: nat, take: nat)
    requires p + n <= |a| && q + n <= |b| && a[p..p + n] == b[q..q + n] && within + take <= n
    ensures a[p + within..p + within + take] == b[q + within..q + within + take]
  {
    var x, y := a[p + within..p + within + take], b[q + within..q + within + take];
    forall i | 0 <= i < take ensures x[i] == y[i] {
      assert a[p..p + n][within + i] == b[q..q + n][within + i];
    }
  }

  lemma OutsideSlot(was: seq<byte>, now: seq<byte>, base: nat, n: nat, pageSize: nat)
    requires |was| == |now| && base + n <= |was| && n <= pageSize
    requires now[..base] == was[..base] && now[base + n..] == was[base + n..]
    ensures forall i :: 0 <= i < |was| && !(base <= i < base + pageSize) ==> now[i] == was[i]
  {
    forall i | 0 <= i < |was| && !(base <= i < base + pageSize) ensures now[i] == was[i] {
      if i < base {
        assert now[..base][i] == was[..base][i];
      } else {
        assert now[base + n..][i - (base + n)] == was[base + n..][i - (base + n)];
      }
    }
  }

  /** One more piece of a read: what is there grows by it, and the rest is as at the beginning. */
  lemma AppendCopied(first: seq<byte>, was: seq<byte>, now: seq<byte>, file: seq<byte>, offset: nat, n: nat, take: nat)
    requires |first| == |was| == |now| && n + take <= |now| && offset + n + take <= |file|
    requires was[..n] == file[offset..offset + n] && was[n..] == first[n..]
    requires now[..n] == was[..n] && now[n..n + take] == file[offset + n..offset + n + take]
    requires now[n + take..] == was[n + take..]
    ensures now[..n + take] == file[offset..offset + n + take] && now[n + take..] == first[n + take..]
  {
    assert now[..n + take] == now[..n] + now[n..n + take];
    assert was[n + take..] == was[n..][take..] && first[n + take..] == first[n..][take..];
  }

  lemma {:induction false} SpanNeedsEnds(pages: seq<Page>, start: nat, bytes: nat, pageSize: nat)
    requires 0 < bytes <= pageSize
    ensures Spans(pages, start, bytes, pageSize) <==>
            Cached(pages, Align(start, pageSize)) && Cached(pages, Align(start + bytes - 1, pageSize))
  {
    forall at: nat | start <= at < start + bytes
      ensures Align(at, pageSize) == Align(start, pageSize) || Align(at, pageSize) == Align(start + bytes - 1, pageSize)
    {
      SpanHasTwoPages(start, start + bytes - 1, at, pageSize);
    }
  }

  /** Binding refuses an empty file, a zero page, and storage for no page or for more than eight. */
  method Init(storage: array<byte>, pageSize: nat, file: seq<byte>) returns (cache: Cache?)
    ensures cache == null <==> pageSize == 0 || storage.Length < pageSize || file == [] || storage.Length / pageSize > MAX_PAGES
    ensures cache != null ==> fresh(cache) && cache.Valid() && cache.storage == storage && cache.file == file
    ensures cache != null ==> cache.pageSize == pageSize && cache.pages.Length == storage.Length / pageSize
  {
    if pageSize == 0 || storage.Length < pageSize || file == [] { return null; }
    var q, r := Decompose(storage.Length, pageSize);
    if storage.Length / pageSize > MAX_PAGES { return null; }
    cache := new Cache(storage, pageSize, file);
  }

  // ------------------------------------------------------------------ the stream over the cache

  datatype Origin = FromStart | FromHere | FromEnd | OtherOrigin

  /** The next fault epoch never is zero, so a reader can use zero for "no fault seen". */
  function NextEpoch(epoch: u32): (e: u32)
    ensures e != 0 && e != epoch
  {
    if Add32(epoch, 1) == 0 then 1 else Add32(epoch, 1)
  }

  class Preload {
    const cache: Cache
    var streamPos: nat
    var faultEpoch: u32
    var faultOffset: nat
    var loadedBytes: nat

    ghost predicate Valid()
      reads this, cache, cache.pages, cache.storage
    {
      cache.Valid() && streamPos <= |cache.file|
    }

    constructor (cache: Cache)
      requires cache.Valid()
      ensures Valid() && this.cache == cache && streamPos == faultOffset == loadedBytes == 0 && faultEpoch == 0
    {
      this.cache := cache;
      streamPos, faultEpoch, faultOffset, loadedBytes := 0, 0, 0, 0;
    }

    /** The stream delivers the file in order from its position; its fault epoch changes exactly
        when the read is shorter than the request clamped to the file, at the offset it stopped. */
    method StreamRead(dst: array<byte>, bytes: nat) returns (n: nat)
      requires Valid() && dst != cache.storage && bytes <= dst.Length
      modifies this, cache, cache.pages, cache.storage, dst
      ensures Valid() && streamPos == old(streamPos) + n <= |cache.file| && loadedBytes == cache.backendBytes
      ensures n <= bytes && dst[..n] == cache.file[old(streamPos)..streamPos] && dst[n..] == old(dst[n..])
      ensures var expected := Min(bytes, |cache.file| - old(streamPos));
              && n <= expected
              && (n < expected <==> faultEpoch != old(faultEpoch))
              && (n < expected <==> cache.shortReads != old(cache.shortReads))
              && (n < expected ==> faultEpoch != 0 && faultOffset == streamPos)
              && (n == expected ==> faultOffset == old(faultOffset))
    {
      var start := streamPos;
      var expected := if start >= |cache.file| then 0 else Min(bytes, |cache.file| - start);
      n := cache.Read(start, dst, bytes);
      loadedBytes := cache.backendBytes;
      streamPos := streamPos + n;
      if n != expected {
        faultOffset := start + n;
        faultEpoch := NextEpoch(faultEpoch);
      }
    }

    method StreamSeek(offset: int, origin: Origin) returns (ok: bool)
      requires Valid()
      modifies this`streamPos
      ensures Valid()
      ensures ok <==> origin != OtherOrigin && 0 <= Target(old(streamPos), offset, origin) <= |cache.file|
      ensures streamPos == if ok then Target(old(streamPos), offset, origin) else old(streamPos)
    {
      var base := 0;
      if origin == FromHere {
        base := streamPos;
      } else if origin == FromEnd {
        base := |cache.file|;
      } else if origin != FromStart {
        return false;
      }
      var target := base + offset;
      if target < 0 || target > |cache.file| { return false; }
      streamPos := target;
      return true;
    }

    ghost function Target(pos: nat, offset: int, origin: Origin): int {
      offset + match origin
        case FromHere => pos
        case FromEnd => |cache.file|
        case _ => 0
    }
  }
}
