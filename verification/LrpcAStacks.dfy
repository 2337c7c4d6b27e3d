/**
  Allocation of the A-stack pages at probe: on success every channel has its own full set of pages,
  on any failure every page already taken is given back exactly once.
*/
module LrpcAStacks {
  import opened Common
  import opened LrpcAbi
  import LrpcSystem

  type PageId = LrpcSystem.PageId

  /** The kernel's allocator: it may refuse any request; a page it grants is not in use. */
  class PageAllocator {
    /** Which requests, counted from the start, are refused. */
    const refuses: nat -> bool
    var asked: nat
    var owned: set<PageId>
    var next: PageId

    ghost predicate Valid()
      reads this
    {
      forall p :: p in owned ==> p < next
    }

    constructor (refuses: nat -> bool)
      ensures Valid() && owned == {} && asked == 0 && this.refuses == refuses
    {
      this.refuses := refuses;
      asked, owned, next := 0, {}, 0;
    }

    /** A request for memory that is not a page. */
    method Ask() returns (ok: bool)
      modifies `asked
      ensures asked == old(asked) + 1 && ok == !refuses(old(asked))
    {
      ok := !refuses(asked);
      asked := asked + 1;
    }

    method AllocPage() returns (p: Option<PageId>)
      requires Valid()
      modifies this
      ensures Valid() && asked == old(asked) + 1 && p.Some? == !refuses(old(asked))
      ensures p.Some? ==> p.value !in old(owned) && owned == old(owned) + {p.value}
      ensures p.None? ==> owned == old(owned)
    {
      var ok := Ask();
      if !ok {
        return None;
      }
      p := Some(next);
      owned := owned + {next};
      next := next + 1;
    }

    method FreePage(p: PageId)
      requires Valid() && p in owned
      modifies `owned
      ensures Valid() && owned == old(owned) - {p}
    {
      owned := owned - {p};
    }
  }

  /** A table and its pages for every channel, and the registration of the clean-up. */
  const REQUESTS: nat := MAX_PROCS * (1 + ASTACK_NPAGES) + 1

  /** The `n` requests from the given one on are all granted. */
  ghost predicate AllGranted(refuses: nat -> bool, from: nat, n: nat) {
    forall k :: from <= k < from + n ==> !refuses(k)
  }

  /** Per channel its page table; the empty row stands for a table not owned yet. */
  type PageTable = seq<seq<Option<PageId>>>

  ghost predicate HoldsFrom(pages: PageTable, i: nat, k: nat, p: PageId) {
    exists j, l ::
      && 0 <= j < |pages| && 0 <= l < |pages[j]|
      && (i < j || (i == j && k <= l))
      && pages[j][l] == Some(p)
  }

  ghost predicate Injective(pages: PageTable) {
    forall i, k, j, l |
      0 <= i < |pages| && 0 <= k < |pages[i]| && 0 <= j < |pages| && 0 <= l < |pages[j]| ::
      pages[i][k].Some? && pages[i][k] == pages[j][l] ==> i == j && k == l
  }

  /** The allocator owns exactly `base` and the pages the table holds from position (i, k) on. */
  ghost predicate Accounts(owned: set<PageId>, base: set<PageId>, pages: PageTable, i: nat, k: nat) {
    && (forall p :: p in owned <==> p in base || HoldsFrom(pages, i, k, p))
    && (forall p :: p in base ==> !HoldsFrom(pages, 0, 0, p))
  }

  /** The first `n` channels have all their pages, the others nothing yet. */
  ghost predicate Filled(pages: PageTable, n: nat) {
    && |pages| == MAX_PROCS
    && (forall i :: 0 <= i < MAX_PROCS ==> |pages[i]| == if i < n then ASTACK_NPAGES else 0)
    && (forall i, k | 0 <= i < |pages| && 0 <= k < |pages[i]| :: pages[i][k].Some?)
  }

  /** The pages of a full table, in the shape the driver state uses. */
  ghost function Backing(pages: PageTable): (astack: seq<seq<PageId>>)
    requires Filled(pages, MAX_PROCS)
  {
    seq(MAX_PROCS, i requires 0 <= i < MAX_PROCS =>
          seq(ASTACK_NPAGES, k requires 0 <= k < ASTACK_NPAGES => pages[i][k].value))
  }

  lemma SetPageAccounts(owned: set<PageId>, base: set<PageId>, pages: PageTable, i: nat, k: nat, p: PageId)
    requires i < |pages| && k < |pages[i]| && pages[i][k].None? && Injective(pages)
    requires Accounts(owned, base, pages, 0, 0) && p !in owned
    ensures Injective(pages[i := pages[i][k := Some(p)]])
    ensures Accounts(owned + {p}, base, pages[i := pages[i][k := Some(p)]], 0, 0)
  {
    var pages' := pages[i := pages[i][k := Some(p)]];
    assert !HoldsFrom(pages, 0, 0, p);
    assert pages'[i][k] == Some(p);
    forall q: PageId ensures HoldsFrom(pages', 0, 0, q) <==> HoldsFrom(pages, 0, 0, q) || q == p {
      if HoldsFrom(pages, 0, 0, q) {
        var j, l :| 0 <= j < |pages| && 0 <= l < |pages[j]| && pages[j][l] == Some(q);
        assert pages'[j][l] == Some(q);
      }
      if HoldsFrom(pages', 0, 0, q) && q != p {
        var j, l :| 0 <= j < |pages'| && 0 <= l < |pages'[j]| && pages'[j][l] == Some(q);
        assert pages[j][l] == Some(q);
      }
    }
  }

  /** Moving one position on: what is held from (i, k) is the page there plus what is held after. */
  lemma HoldsFromNext(pages: PageTable, i: nat, k: nat, p: PageId)
    requires i < |pages| && k < |pages[i]| && Injective(pages)
    ensures HoldsFrom(pages, i, k, p) <==> pages[i][k] == Some(p) || HoldsFrom(pages, i, k + 1, p)
    ensures pages[i][k] == Some(p) ==> !HoldsFrom(pages, i, k + 1, p)
  {
  }

  class AStackDevice {
    const alloc: PageAllocator
    var pages: PageTable

    constructor (alloc: PageAllocator)
      ensures this.alloc == alloc
    {
      this.alloc := alloc;
      pages := [];
    }

    /** Give back every page of every table that exists. */
    method FreeAStacks(ghost base: set<PageId>)
      requires alloc.Valid() && Injective(pages) && Accounts(alloc.owned, base, pages, 0, 0)
      modifies alloc`owned
      ensures alloc.Valid() && alloc.owned == base
    {
      for i := 0 to |pages|
        invariant alloc.Valid() && Accounts(alloc.owned, base, pages, i, 0)
      {
        for k := 0 to |pages[i]|
          invariant alloc.Valid() && Accounts(alloc.owned, base, pages, i, k)
        {
          forall p: PageId ensures HoldsFrom(pages, i, k, p) <==> pages[i][k] == Some(p) || HoldsFrom(pages, i, k + 1, p)
                   ensures pages[i][k] == Some(p) ==> !HoldsFrom(pages, i, k + 1, p) {
            HoldsFromNext(pages, i, k, p);
          }
          if pages[i][k].Some? {
            assert HoldsFrom(pages, 0, 0, pages[i][k].value);
            alloc.FreePage(pages[i][k].value);
          }
        }
        forall p: PageId ensures HoldsFrom(pages, i, |pages[i]|, p) <==> HoldsFrom(pages, i + 1, 0, p) {
        }
      }
    }

    /** Allocate the table of one channel and its pages, up to the first refusal. */
    method AllocRow(i: nat, ghost base: set<PageId>) returns (ok: bool)
      requires alloc.Valid() && i < MAX_PROCS && Filled(pages, i)
      requires Injective(pages) && Accounts(alloc.owned, base, pages, 0, 0)
      modifies this, alloc
      ensures alloc.Valid() && Injective(pages) && Accounts(alloc.owned, base, pages, 0, 0)
      ensures ok <==> AllGranted(alloc.refuses, old(alloc.asked), 1 + ASTACK_NPAGES)
      ensures ok ==> alloc.asked == old(alloc.asked) + 1 + ASTACK_NPAGES && Filled(pages, i + 1)
    {
      ghost var before, start := pages, alloc.asked;
      ok := alloc.Ask();
      if !ok { return; }
      pages := pages[i := seq(ASTACK_NPAGES, _ => None)];
      EmptyRowHoldsNothing(before, i, pages[i]);
      for k := 0 to ASTACK_NPAGES
        invariant alloc.Valid() && Injective(pages) && Accounts(alloc.owned, base, pages, 0, 0)
        invariant alloc.asked == start + 1 + k && AllGranted(alloc.refuses, start, 1 + k)
        invariant |pages| == MAX_PROCS && pages == before[i := pages[i]] && |pages[i]| == ASTACK_NPAGES
        invariant forall l :: 0 <= l < ASTACK_NPAGES ==> (pages[i][l].Some? <==> l < k)
      {
        ghost var had := alloc.owned;
        var page := alloc.AllocPage();
        if page.None? { return false; }
        SetPageAccounts(had, base, pages, i, k, page.value);
        pages := pages[i := pages[i][k := page]];
      }
    }

    /** Allocate every page of every channel, or nothing. */
    method AllocAStacks() returns (rc: int)
      requires alloc.Valid()
      modifies this, alloc
      ensures alloc.Valid()
      ensures rc == (if AllGranted(alloc.refuses, old(alloc.asked), REQUESTS) then 0 else -ENOMEM)
      ensures rc == 0 ==> Filled(pages, MAX_PROCS) && LrpcSystem.DistinctPages(Backing(pages))
      ensures rc == 0 ==> forall p :: p in alloc.owned <==> p in old(alloc.owned) || HoldsFrom(pages, 0, 0, p)
      ensures rc == 0 ==> forall p :: p in old(alloc.owned) ==> !HoldsFrom(pages, 0, 0, p)
      ensures rc != 0 ==> alloc.owned == old(alloc.owned)
    {
      ghost var base, start := alloc.owned, alloc.asked;
      pages := seq(MAX_PROCS, _ => []);
      var ok;
      for i := 0 to MAX_PROCS
        invariant alloc.Valid() && Filled(pages, i) && Injective(pages) && Accounts(alloc.owned, base, pages, 0, 0)
        invariant alloc.asked == start + i * (1 + ASTACK_NPAGES) && AllGranted(alloc.refuses, start, alloc.asked - start)
      {
        ok := AllocRow(i, base);
        if !ok {
          FreeAStacks(base);
          return -ENOMEM;
        }
      }
      ok := alloc.Ask();
      if !ok {
        FreeAStacks(base);
        return -ENOMEM;
      }
      return 0;
    }
  }

  lemma EmptyRowHoldsNothing(pages: PageTable, i: nat, row: seq<Option<PageId>>)
    requires i < |pages| && pages[i] == [] && Injective(pages)
    requires forall k :: 0 <= k < |row| ==> row[k].None?
    ensures Injective(pages[i := row])
    ensures forall p :: HoldsFrom(pages[i := row], 0, 0, p) <==> HoldsFrom(pages, 0, 0, p)
  {
    var pages' := pages[i := row];
    forall p: PageId ensures HoldsFrom(pages', 0, 0, p) <==> HoldsFrom(pages, 0, 0, p) {
      if HoldsFrom(pages, 0, 0, p) {
        var j, l :| 0 <= j < |pages| && 0 <= l < |pages[j]| && pages[j][l] == Some(p);
        assert pages'[j][l] == Some(p);
      }
      if HoldsFrom(pages', 0, 0, p) {
        var j, l :| 0 <= j < |pages'| && 0 <= l < |pages'[j]| && pages'[j][l] == Some(p);
        assert pages[j][l] == Some(p);
      }
    }
  }
}
