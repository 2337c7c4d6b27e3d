/**
  The shared region as pages, and what publishing one slot does to it.  The publication is given
  page by page, so that everything it leaves alone can be read off directly.
*/
module PoolRegion {
  import opened Common
  import opened PoolLayout
  import opened PageTables

  /** A slot page holds the publication record and the extra contract; every other page is plain words. */
  datatype Page =
    | Slot(contract: Contract, request: Word, complete: Word, bInitializations: nat,
           error: nat, reserved: nat, extra: Extra)
    | Data(words: Table)

  type Region = m: seq<Page> | |m| == PAGES witness seq(PAGES, _ => Data(Zeroes()))

  function Zeroes(): (t: Table) { seq(ENTRIES, _ => 0) }

  ghost predicate WellFormed(m: Region) {
    && (forall c :: 0 <= c < CLIENTS ==> m[SlotPage(c)].Slot?)
    && (forall p :: 0 <= p < PAGES && !(SlotPage(0) <= p < SlotPage(CLIENTS)) ==> m[p].Data?)
  }

  // ---- what B decides from its private snapshots ----

  const REMOTE_MAGIC: nat := 0x554452454d4f5445
  const REMOTE_ABI: nat := 1
  const CODE_REMOTE_SOCIAL: nat := 2

  datatype Manifest = Manifest(magic: nat, abi: nat, mode: nat, tag: nat)

  /**
    What B fixed before announcing the pool: header, profile tag, remote manifest, and the nginx
    count for which the heap page is exactly the initial configuration (0 if for none).
  */
  datatype Config = Config(headerValid: bool, tagValid: bool, profile: nat, manifest: Manifest, heapCount: nat)

  predicate ConfigValid(cfg: Config) {
    cfg.headerValid && cfg.tagValid && cfg.profile <= PROFILE_SOCIAL_SHARED
  }

  /** Nginx instances a manifest tag stands for; 0 if it stands for none. */
  function SocialCount(tag: nat): (n: nat) {
    var kind, topology := tag % 0x100, tag / 0x100;
    if kind != 1 && kind != 2 then 0
    else if topology == 0 then 1
    else if topology == 3 then 3
    else 0
  }

  /** The tags in use: one nginx instance or three, each for the user and the home timeline. */
  lemma SocialCounts(tag: nat)
    ensures SocialCount(tag) == if tag == 1 || tag == 2 then 1 else if tag == 0x301 || tag == 0x302 then 3 else 0
  {
    assert tag == tag / 0x100 * 0x100 + tag % 0x100;
  }

  predicate GrantsWrite(cfg: Config) {
    cfg.profile == PROFILE_SOCIAL_WRITE || cfg.profile == PROFILE_SOCIAL_SHARED
  }

  predicate BaseAccepted(cfg: Config, request: Word, w: Contract, reserved: nat) {
    ContractValid(w) && Nonce(w) == request && reserved == 0 && (WritePa(w) != 0 <==> GrantsWrite(cfg))
  }

  predicate ManifestAccepted(cfg: Config) {
    var m := cfg.manifest;
    && m.magic == REMOTE_MAGIC && m.abi == REMOTE_ABI && m.mode == CODE_REMOTE_SOCIAL
    && SocialCount(m.tag) != 0
    && cfg.heapCount == SocialCount(m.tag)
  }

  predicate UsesExtra(cfg: Config) {
    cfg.profile == PROFILE_SOCIAL && SocialCount(cfg.manifest.tag) == 3
  }

  predicate AllExtraAccepted(w: Contract, x: Extra) {
    forall e :: 0 <= e < EXTRA_DOMAINS ==> ExtraAccepted(w, x, e)
  }

  /** Everything B checks before it touches a table. */
  predicate Accepted(cfg: Config, request: Word, w: Contract, reserved: nat, x: Extra) {
    && BaseAccepted(cfg, request, w, reserved)
    && (cfg.profile == PROFILE_SOCIAL ==> ManifestAccepted(cfg))
    && (UsesExtra(cfg) ==> AllExtraAccepted(w, x))
  }

  // ---- what publishing writes ----

  /** The i-th of a slot's table pages, and of its extra table pages. */
  function TableAt(w: Contract, i: nat): (t: Table)
    requires ContractValid(w) && i < DOMAINS * LEVELS
  {
    BuildTable(w, i / LEVELS, i % LEVELS)
  }

  function ExtraTableAt(w: Contract, x: Extra, i: nat): (t: Table)
    requires AllExtraAccepted(w, x) && i < EXTRA_DOMAINS * LEVELS
  {
    assert ExtraAccepted(w, x, i / LEVELS);
    BuildTable(Adapted(w, x, i / LEVELS), ExtraEntry(i / LEVELS), i % LEVELS)
  }

  /** Page `p` after slot `s` has been published from contract `w` and extra contract `x`. */
  function Published(cfg: Config, s: nat, w: Contract, x: Extra, p: nat, before: Page): (after: Page)
    requires s < CLIENTS && ContractValid(w)
    requires UsesExtra(cfg) ==> AllExtraAccepted(w, x)
  {
    if p == WritePage(s) && cfg.profile == PROFILE_SOCIAL_WRITE then Data(Zeroes())
    else if TablePage(s, 0, 0) <= p < TablePage(s + 1, 0, 0) then Data(TableAt(w, p - TablePage(s, 0, 0)))
    else if UsesExtra(cfg) && ExtraTablePage(s, 0, 0) <= p < ExtraTablePage(s + 1, 0, 0) then
      Data(ExtraTableAt(w, x, p - ExtraTablePage(s, 0, 0)))
    else before
  }

  /** All tables of the slot are those built from `w` and `x`. */
  ghost predicate TablesMatch(cfg: Config, m: Region, s: nat, w: Contract, x: Extra)
    requires s < CLIENTS && ContractValid(w)
    requires UsesExtra(cfg) ==> AllExtraAccepted(w, x)
  {
    && (forall d, l | 0 <= d < DOMAINS && 0 <= l < LEVELS :: m[TablePage(s, d, l)] == Data(BuildTable(w, d, l)))
    && (UsesExtra(cfg) ==>
          forall e, l | 0 <= e < EXTRA_DOMAINS && 0 <= l < LEVELS ::
            ExtraAccepted(w, x, e) &&
            m[ExtraTablePage(s, e, l)] == Data(BuildTable(Adapted(w, x, e), ExtraEntry(e), l)))
  }

  predicate Pending(m: Region, s: nat)
    requires s < CLIENTS && m[SlotPage(s)].Slot?
  {
    m[SlotPage(s)].request != 0 && m[SlotPage(s)].request != m[SlotPage(s)].complete
  }

  /** B would accept the request now in the slot. */
  predicate SlotAccepted(cfg: Config, m: Region, s: nat)
    requires s < CLIENTS && m[SlotPage(s)].Slot?
  {
    var r := m[SlotPage(s)];
    Accepted(cfg, r.request, r.contract, r.reserved, r.extra)
  }

  /** Page `p` once the pending, accepted request of slot `s` is answered. */
  function AnswerPage(cfg: Config, m: Region, s: nat, p: nat): (after: Page)
    requires s < CLIENTS && p < PAGES && m[SlotPage(s)].Slot? && SlotAccepted(cfg, m, s)
  {
    var rec := m[SlotPage(s)];
    if p == SlotPage(s)
    then rec.(error := 0, bInitializations := rec.bInitializations + 1, complete := rec.request)
    else Published(cfg, s, rec.contract, rec.extra, p, m[p])
  }

  function AnswerRegion(cfg: Config, m: Region, s: nat): (r: Region)
    requires s < CLIENTS && m[SlotPage(s)].Slot? && SlotAccepted(cfg, m, s)
  {
    seq(PAGES, p requires 0 <= p < PAGES => AnswerPage(cfg, m, s, p))
  }

  /** The region after B has answered slot `s`. */
  function PollSlot(cfg: Config, m: Region, s: nat): (r: Region)
    requires s < CLIENTS && m[SlotPage(s)].Slot?
  {
    var rec := m[SlotPage(s)];
    if !Pending(m, s) then m
    else if !SlotAccepted(cfg, m, s) then m[SlotPage(s) := rec.(error := EINVAL, complete := rec.request)]
    else AnswerRegion(cfg, m, s)
  }

  function PollAll(cfg: Config, m: Region, n: nat): (r: Region)
    requires n <= CLIENTS && forall c :: 0 <= c < CLIENTS ==> m[SlotPage(c)].Slot?
    ensures forall c :: 0 <= c < CLIENTS ==> r[SlotPage(c)].Slot?
  {
    if n == 0 then m else PollSlot(cfg, PollAll(cfg, m, n - 1), n - 1)
  }

  function PendingCount(m: Region, n: nat): (k: nat)
    requires n <= CLIENTS && forall c :: 0 <= c < CLIENTS ==> m[SlotPage(c)].Slot?
    ensures k <= n
  {
    if n == 0 then 0 else PendingCount(m, n - 1) + (if Pending(m, n - 1) then 1 else 0)
  }

  // ---- what polling keeps and establishes ----

  /** Publishing slot `s` changes pages of slot `s` only, and the write page only for the write profile. */
  lemma PollSlotIsolation(cfg: Config, m: Region, s: nat, p: nat)
    requires s < CLIENTS && WellFormed(m) && p < PAGES
    ensures WellFormed(PollSlot(cfg, m, s))
    ensures !OwnedBy(s, p) ==> PollSlot(cfg, m, s)[p] == m[p]
    ensures cfg.profile != PROFILE_SOCIAL_WRITE ==> PollSlot(cfg, m, s)[WritePage(s)] == m[WritePage(s)]
  {
  }

  lemma PollSlotIsLocal(cfg: Config, m: Region, m': Region, s: nat, p: nat)
    requires s < CLIENTS && p < PAGES && OwnedBy(s, p)
    requires m[SlotPage(s)] == m'[SlotPage(s)] && m[SlotPage(s)].Slot? && m[p] == m'[p]
    ensures PollSlot(cfg, m, s)[p] == PollSlot(cfg, m', s)[p]
  {
  }

  lemma {:induction false} PollAllWellFormed(cfg: Config, m: Region, n: nat)
    requires n <= CLIENTS && WellFormed(m)
    ensures WellFormed(PollAll(cfg, m, n))
  {
    if n > 0 {
      PollAllWellFormed(cfg, m, n - 1);
      PollSlotIsolation(cfg, PollAll(cfg, m, n - 1), n - 1, 0);
    }
  }

  /** Pages of other slots, and of no slot, are not touched by the poll of one slot. */
  lemma PollAllStep(cfg: Config, m: Region, n: nat, p: nat)
    requires 0 < n <= CLIENTS && p < PAGES && WellFormed(m) && !OwnedBy(n - 1, p)
    ensures PollAll(cfg, m, n)[p] == PollAll(cfg, m, n - 1)[p]
  {
    PollAllWellFormed(cfg, m, n - 1);
    PollSlotIsolation(cfg, PollAll(cfg, m, n - 1), n - 1, p);
  }

  /** One turn of the poll leaves the pages of every other slot alone. */
  lemma PollAllOther(cfg: Config, m: Region, n: nat, s: nat, p: nat)
    requires 0 < n <= CLIENTS && s < CLIENTS && s != n - 1 && p < PAGES && WellFormed(m) && OwnedBy(s, p)
    ensures PollAll(cfg, m, n)[p] == PollAll(cfg, m, n - 1)[p]
  {
    LayoutIsDisjoint(s, n - 1, p);
    PollAllStep(cfg, m, n, p);
  }

  /** Slots not yet reached are untouched. */
  lemma {:induction false} PollAllAhead(cfg: Config, m: Region, n: nat, s: nat, p: nat)
    requires n <= s < CLIENTS && p < PAGES && WellFormed(m) && OwnedBy(s, p)
    ensures PollAll(cfg, m, n)[p] == m[p]
  {
    if n > 0 {
      PollAllAhead(cfg, m, n - 1, s, p);
      PollAllOther(cfg, m, n, s, p);
    }
  }

  lemma PollAllTurn(cfg: Config, m: Region, s: nat, p: nat)
    requires s < CLIENTS && p < PAGES && WellFormed(m) && OwnedBy(s, p)
    ensures PollAll(cfg, m, s + 1)[p] == PollSlot(cfg, m, s)[p]
  {
    var mid := PollAll(cfg, m, s);
    PollAllAhead(cfg, m, s, s, SlotPage(s));
    PollAllAhead(cfg, m, s, s, p);
    PollSlotIsLocal(cfg, mid, m, s, p);
  }

  /** Slots already answered are untouched. */
  lemma {:induction false} PollAllBehind(cfg: Config, m: Region, n: nat, s: nat, p: nat)
    requires s < n <= CLIENTS && p < PAGES && WellFormed(m) && OwnedBy(s, p)
    ensures PollAll(cfg, m, n)[p] == PollAll(cfg, m, s + 1)[p]
  {
    if s < n - 1 {
      PollAllBehind(cfg, m, n - 1, s, p);
      PollAllOther(cfg, m, n, s, p);
    }
  }

  /** One poll treats every slot exactly as if it were alone, in any order. */
  lemma PollAllPages(cfg: Config, m: Region, s: nat, p: nat)
    requires s < CLIENTS && p < PAGES && WellFormed(m) && OwnedBy(s, p)
    ensures PollAll(cfg, m, CLIENTS)[p] == PollSlot(cfg, m, s)[p]
  {
    PollAllBehind(cfg, m, CLIENTS, s, p);
    PollAllTurn(cfg, m, s, p);
  }

  /** A page of no slot keeps its content. */
  lemma {:induction false} PollAllLeavesRest(cfg: Config, m: Region, n: nat, p: nat)
    requires n <= CLIENTS && p < PAGES && WellFormed(m) && forall c :: 0 <= c < CLIENTS ==> !OwnedBy(c, p)
    ensures PollAll(cfg, m, n)[p] == m[p]
  {
    if n > 0 {
      PollAllLeavesRest(cfg, m, n - 1, p);
      PollAllStep(cfg, m, n, p);
    }
  }

  /** The shared page, the heap, the images and contexts survive every poll. */
  lemma PollKeepsSharedPages(cfg: Config, m: Region, p: nat)
    requires WellFormed(m) && p < PAGES
    requires p == SHARED_PAGE || p == HEAP_PAGE || p <= ContextPage(DOMAINS)
    ensures PollAll(cfg, m, CLIENTS)[p] == m[p]
  {
    forall c | 0 <= c < CLIENTS ensures !OwnedBy(c, p) {
    }
    PollAllLeavesRest(cfg, m, CLIENTS, p);
  }

  /** A rejected request completes with an error and leaves every table and the write page untouched. */
  lemma RejectedRequestOnlyReports(cfg: Config, m: Region, s: nat)
    requires s < CLIENTS && WellFormed(m) && Pending(m, s) && !SlotAccepted(cfg, m, s)
    ensures var r, rec := PollAll(cfg, m, CLIENTS), m[SlotPage(s)];
      && r[SlotPage(s)] == rec.(error := EINVAL, complete := rec.request)
      && forall p :: 0 <= p < PAGES && OwnedBy(s, p) && p != SlotPage(s) ==> r[p] == m[p]
  {
    var r := PollAll(cfg, m, CLIENTS);
    PollAllPages(cfg, m, s, SlotPage(s));
    forall p | 0 <= p < PAGES && OwnedBy(s, p) && p != SlotPage(s) ensures r[p] == m[p] {
      PollAllPages(cfg, m, s, p);
    }
  }

  lemma PublishedTable(cfg: Config, s: nat, w: Contract, x: Extra, d: nat, l: nat, before: Page)
    requires s < CLIENTS && ContractValid(w) && d < DOMAINS && l < LEVELS
    requires UsesExtra(cfg) ==> AllExtraAccepted(w, x)
    ensures Published(cfg, s, w, x, TablePage(s, d, l), before) == Data(BuildTable(w, d, l))
  {
    assert (4 * d + l) / LEVELS == d && (4 * d + l) % LEVELS == l;
  }

  lemma PublishedExtraTable(cfg: Config, s: nat, w: Contract, x: Extra, e: nat, l: nat, before: Page)
    requires s < CLIENTS && ContractValid(w) && e < EXTRA_DOMAINS && l < LEVELS
    requires UsesExtra(cfg) && AllExtraAccepted(w, x)
    ensures ExtraAccepted(w, x, e)
    ensures Published(cfg, s, w, x, ExtraTablePage(s, e, l), before)
         == Data(BuildTable(Adapted(w, x, e), ExtraEntry(e), l))
  {
    assert (4 * e + l) / LEVELS == e && (4 * e + l) % LEVELS == l;
  }

  /** Publishing makes every table of the slot the one built from the contract. */
  lemma PublishedTablesMatch(cfg: Config, m: Region, s: nat)
    requires s < CLIENTS && WellFormed(m) && Pending(m, s) && SlotAccepted(cfg, m, s)
    ensures TablesMatch(cfg, PollSlot(cfg, m, s), s, m[SlotPage(s)].contract, m[SlotPage(s)].extra)
  {
    var r, w, x := PollSlot(cfg, m, s), m[SlotPage(s)].contract, m[SlotPage(s)].extra;
    forall d, l | 0 <= d < DOMAINS && 0 <= l < LEVELS ensures r[TablePage(s, d, l)] == Data(BuildTable(w, d, l)) {
      PublishedTable(cfg, s, w, x, d, l, m[TablePage(s, d, l)]);
    }
    if UsesExtra(cfg) {
      forall e, l | 0 <= e < EXTRA_DOMAINS && 0 <= l < LEVELS
        ensures ExtraAccepted(w, x, e)
        ensures r[ExtraTablePage(s, e, l)] == Data(BuildTable(Adapted(w, x, e), ExtraEntry(e), l))
      {
        PublishedExtraTable(cfg, s, w, x, e, l, m[ExtraTablePage(s, e, l)]);
      }
    }
  }

  /** An accepted request completes without error, counts one initialization, and has its tables built. */
  lemma AcceptedRequestIsPublished(cfg: Config, m: Region, s: nat)
    requires s < CLIENTS && WellFormed(m) && Pending(m, s) && SlotAccepted(cfg, m, s)
    ensures var r, rec := PollAll(cfg, m, CLIENTS), m[SlotPage(s)];
      && r[SlotPage(s)] ==
           rec.(error := 0, bInitializations := rec.bInitializations + 1, complete := rec.request)
      && TablesMatch(cfg, r, s, rec.contract, rec.extra)
  {
    var r, alone := PollAll(cfg, m, CLIENTS), PollSlot(cfg, m, s);
    PollAllPages(cfg, m, s, SlotPage(s));
    PublishedTablesMatch(cfg, m, s);
    forall d, l | 0 <= d < DOMAINS && 0 <= l < LEVELS ensures r[TablePage(s, d, l)] == alone[TablePage(s, d, l)] {
      PollAllPages(cfg, m, s, TablePage(s, d, l));
    }
    forall e, l | 0 <= e < EXTRA_DOMAINS && 0 <= l < LEVELS
      ensures r[ExtraTablePage(s, e, l)] == alone[ExtraTablePage(s, e, l)]
    {
      PollAllPages(cfg, m, s, ExtraTablePage(s, e, l));
    }
  }

  lemma {:induction false} NothingPending(m: Region, n: nat)
    requires n <= CLIENTS && forall c :: 0 <= c < CLIENTS ==> m[SlotPage(c)].Slot? && !Pending(m, c)
    ensures PendingCount(m, n) == 0
  {
    if n > 0 { NothingPending(m, n - 1); }
  }

  lemma {:induction false} PollQuietRegion(cfg: Config, m: Region, n: nat)
    requires n <= CLIENTS && forall c :: 0 <= c < CLIENTS ==> m[SlotPage(c)].Slot? && !Pending(m, c)
    ensures PollAll(cfg, m, n) == m
  {
    if n > 0 { PollQuietRegion(cfg, m, n - 1); }
  }

  /** After one poll no slot is pending; a second poll with no new request answers 0 and changes nothing. */
  lemma SecondPollIsIdle(cfg: Config, m: Region)
    requires WellFormed(m)
    ensures var r := PollAll(cfg, m, CLIENTS);
      && WellFormed(r)
      && (forall s :: 0 <= s < CLIENTS ==> !Pending(r, s))
      && PendingCount(r, CLIENTS) == 0
      && PollAll(cfg, r, CLIENTS) == r
  {
    var r := PollAll(cfg, m, CLIENTS);
    PollAllWellFormed(cfg, m, CLIENTS);
    forall s | 0 <= s < CLIENTS ensures !Pending(r, s) {
      PollAllPages(cfg, m, s, SlotPage(s));
    }
    NothingPending(r, CLIENTS);
    PollQuietRegion(cfg, r, CLIENTS);
  }
}
