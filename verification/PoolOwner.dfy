/** The polling loop of host B, updating the shared region in place (lib/ub_domain_pool.c). */
module PoolOwner {
  import opened Common
  import opened PoolLayout
  import opened PageTables
  import opened PoolRegion

  class Owner {
    const cfg: Config
    var mem: Region

    constructor (cfg: Config, mem: Region)
      ensures this.cfg == cfg && this.mem == mem
    {
      this.cfg := cfg;
      this.mem := mem;
    }

    /** The checks of one request; the extra loop stops at the first entry that does not fit. */
    method Check(request: Word, w: Contract, reserved: nat, x: Extra) returns (error: nat)
      ensures error == (if Accepted(cfg, request, w, reserved, x) then 0 else EINVAL)
    {
      error := 0;
      if !(ContractValid(w) && Nonce(w) == request && reserved == 0 && ((WritePa(w) != 0) == GrantsWrite(cfg))) {
        error := EINVAL;
      }
      if error == 0 && cfg.profile == PROFILE_SOCIAL {
        var nginxCount := SocialCount(cfg.manifest.tag);
        if cfg.manifest.magic != REMOTE_MAGIC || cfg.manifest.abi != REMOTE_ABI ||
           cfg.manifest.mode != CODE_REMOTE_SOCIAL || nginxCount == 0 || cfg.heapCount != nginxCount {
          error := EINVAL;
        } else if nginxCount == 3 {
          for e := 0 to EXTRA_DOMAINS
            invariant error == 0
            invariant forall j :: 0 <= j < e ==> ExtraAccepted(w, x, j)
          {
            if !ExtraAccepted(w, x, e) {
              error := EINVAL;
              return;
            }
          }
        }
      }
    }

    method BuildBaseTables(slot: nat, w: Contract)
      requires slot < CLIENTS && ContractValid(w)
      modifies this
      ensures TablesBuilt(old(mem), mem, slot, w, DOMAINS * LEVELS)
    {
      for d := 0 to DOMAINS
        invariant TablesBuilt(old(mem), mem, slot, w, 4 * d)
      {
        for l := 0 to LEVELS
          invariant TablesBuilt(old(mem), mem, slot, w, 4 * d + l)
        {
          assert (4 * d + l) / LEVELS == d && (4 * d + l) % LEVELS == l;
          mem := mem[TablePage(slot, d, l) := Data(BuildTable(w, d, l))];
        }
      }
    }

    method BuildExtraTables(slot: nat, w: Contract, x: Extra)
      requires slot < CLIENTS && AllExtraAccepted(w, x)
      modifies this
      ensures ExtraTablesBuilt(old(mem), mem, slot, w, x, EXTRA_DOMAINS * LEVELS)
    {
      for e := 0 to EXTRA_DOMAINS
        invariant ExtraTablesBuilt(old(mem), mem, slot, w, x, 4 * e)
      {
        BuildExtraDomain(slot, w, x, e, old(mem));
      }
    }

    /** The tables of one extra domain. */
    method BuildExtraDomain(slot: nat, w: Contract, x: Extra, e: nat, ghost before: Region)
      requires slot < CLIENTS && AllExtraAccepted(w, x) && e < EXTRA_DOMAINS
      requires ExtraTablesBuilt(before, mem, slot, w, x, 4 * e)
      modifies this
      ensures ExtraTablesBuilt(before, mem, slot, w, x, 4 * e + 4)
    {
      assert ExtraAccepted(w, x, e);
      var adapted := Adapted(w, x, e);
      for l := 0 to LEVELS
        invariant ExtraTablesBuilt(before, mem, slot, w, x, 4 * e + l)
      {
        assert (4 * e + l) / LEVELS == e && (4 * e + l) % LEVELS == l;
        mem := mem[ExtraTablePage(slot, e, l) := Data(BuildTable(adapted, ExtraEntry(e), l))];
      }
    }

    /** Write the pages of one accepted slot, in the order of the source. */
    method BuildTables(slot: nat, w: Contract, x: Extra)
      requires slot < CLIENTS && ContractValid(w) && (UsesExtra(cfg) ==> AllExtraAccepted(w, x))
      modifies this
      ensures forall p :: 0 <= p < PAGES ==> mem[p] == Published(cfg, slot, w, x, p, old(mem)[p])
    {
      if cfg.profile == PROFILE_SOCIAL_WRITE {
        mem := mem[WritePage(slot) := Data(Zeroes())];
      }
      BuildBaseTables(slot, w);
      if UsesExtra(cfg) {
        BuildExtraTables(slot, w, x);
      }
    }

    /** One turn of the slot loop. */
    method AnswerSlot(slot: nat) returns (answered: bool)
      requires slot < CLIENTS && mem[SlotPage(slot)].Slot?
      modifies this
      ensures mem == PollSlot(cfg, old(mem), slot)
      ensures answered == Pending(old(mem), slot)
    {
      var rec := mem[SlotPage(slot)];
      var request := rec.request;
      if request == 0 || request == rec.complete {
        return false;
      }
      var w, x := rec.contract, rec.extra;
      var error := Check(request, w, rec.reserved, x);
      mem := mem[SlotPage(slot) := rec.(error := error)];
      if error == 0 {
        BuildTables(slot, w, x);
        rec := mem[SlotPage(slot)];
        mem := mem[SlotPage(slot) := rec.(bInitializations := rec.bInitializations + 1)];
      }
      rec := mem[SlotPage(slot)];
      mem := mem[SlotPage(slot) := rec.(complete := request)];
      assert mem == PollSlot(cfg, old(mem), slot);
      return true;
    }

    /** One poll: answers every pending slot and returns how many there were. */
    method Poll() returns (published: int)
      requires WellFormed(mem)
      modifies this
      ensures !ConfigValid(cfg) ==> published == -(EINVAL as int) && mem == old(mem)
      ensures ConfigValid(cfg) ==>
        mem == PollAll(cfg, old(mem), CLIENTS) && published == PendingCount(old(mem), CLIENTS)
    {
      if !cfg.headerValid || !cfg.tagValid || cfg.profile > PROFILE_SOCIAL_SHARED {
        return -(EINVAL as int);
      }
      published := 0;
      ghost var start := mem;
      for slot := 0 to CLIENTS
        invariant mem == PollAll(cfg, start, slot)
        invariant published == PendingCount(start, slot)
      {
        PollAllAhead(cfg, start, slot, slot, SlotPage(slot));
        var answered := AnswerSlot(slot);
        if answered {
          published := published + 1;
        }
      }
    }
  }

  /** The first `n` table pages of the slot are built, everything else is as before. */
  ghost predicate TablesBuilt(before: Region, after: Region, slot: nat, w: Contract, n: nat)
    requires slot < CLIENTS && ContractValid(w) && n <= DOMAINS * LEVELS
  {
    forall p :: 0 <= p < PAGES ==>
      (after[p] == if TablePage(slot, 0, 0) <= p < TablePage(slot, 0, 0) + n
                   then Data(TableAt(w, p - TablePage(slot, 0, 0))) else before[p])
  }

  ghost predicate ExtraTablesBuilt(before: Region, after: Region, slot: nat, w: Contract, x: Extra, n: nat)
    requires slot < CLIENTS && AllExtraAccepted(w, x) && n <= EXTRA_DOMAINS * LEVELS
  {
    forall p :: 0 <= p < PAGES ==>
      (after[p] == if ExtraTablePage(slot, 0, 0) <= p < ExtraTablePage(slot, 0, 0) + n
                   then Data(ExtraTableAt(w, x, p - ExtraTablePage(slot, 0, 0))) else before[p])
  }
}
