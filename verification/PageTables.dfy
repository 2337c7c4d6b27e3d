/**
  The page tables B builds for one domain, and what the MMU makes of them: walking the four
  published levels from the domain's root reaches exactly the pages the contract names, with the
  permissions it intends, and faults everywhere else.
*/
module PageTables {
  import opened Common
  import opened PoolLayout

  const ENTRIES: nat := 512
  type Table = t: seq<Word> | |t| == ENTRIES witness seq(ENTRIES, _ => 0)

  const VALID: nat := 3
  const READ_ONLY: nat := 0x80
  const PXN: nat := 0x20_0000_0000_0000
  const UXN: nat := 0x40_0000_0000_0000

  /** Valid page, EL0 access, access flag, inner shareable, non-global, privileged execute never. */
  const BASE_FLAGS: nat := VALID + 0x40 + 0x300 + 0x400 + 0x800 + PXN

  /** Page number of the first mapped virtual page (UD_VA). */
  const FIRST_PAGE: nat := 0x100000

  /** Index of UD_VA in a table of level 0, 1 or 2. */
  function RouteIndex(l: nat): (i: nat) {
    if l == 1 then 4 else 0
  }

  /**
    A page descriptor.  The source combines the parts with bitwise or; for a page-aligned address
    below 2^48 and an attribute index below 8 the parts share no bit, so the sum is the same word.
  */
  function Descriptor(pa: Word, attr: nat, readOnly: bool, executable: bool): (e: Word)
    requires PaValid(pa) && attr <= 7
  {
    pa + BASE_FLAGS + 4 * attr + (if readOnly then READ_ONLY else 0) + (if executable then 0 else UXN)
  }

  function LeafEntry(w: Contract, d: nat, i: nat): (e: Word)
    requires ContractValid(w) && d < DOMAINS
  {
    assert DomainValid(w, d);
    match i
    case 0 => Descriptor(CodePa(w, d), WbIndex(w), true, true)
    case 2 => Descriptor(StackPa(w, d), WbIndex(w), false, false)
    case 4 => Descriptor(HeapPa(w), NcIndex(w), true, false)
    case 6 => Descriptor(ArgsPa(w, d), WbIndex(w), false, false)
    case 8 => if WritePa(w) != 0 && d == MIDDLE then Descriptor(WritePa(w), NcIndex(w), false, false) else 0
    case _ => 0
  }

  function BuildTable(w: Contract, d: nat, l: nat): (t: Table)
    requires ContractValid(w) && d < DOMAINS && l < LEVELS
  {
    assert DomainValid(w, d);
    if l < 3 then seq(ENTRIES, i => if i == RouteIndex(l) then TablePa(w, d, l + 1) + VALID else 0)
    else seq(ENTRIES, i requires 0 <= i < ENTRIES => LeafEntry(w, d, i))
  }

  /** The loop of the source: clear the table, then fill in the few entries of its level. */
  method FillTable(w: Contract, d: nat, l: nat, table: array<Word>)
    requires ContractValid(w) && d < DOMAINS && l < LEVELS && table.Length == ENTRIES
    modifies table
    ensures table[..] == BuildTable(w, d, l)
  {
    assert DomainValid(w, d);
    for i := 0 to ENTRIES
      invariant forall j :: 0 <= j < i ==> table[j] == 0
    {
      table[i] := 0;
    }
    if l < 3 {
      table[RouteIndex(l)] := TablePa(w, d, l + 1) + VALID;
    } else {
      table[0] := Descriptor(CodePa(w, d), WbIndex(w), true, true);
      table[2] := Descriptor(StackPa(w, d), WbIndex(w), false, false);
      table[4] := Descriptor(HeapPa(w), NcIndex(w), true, false);
      table[6] := Descriptor(ArgsPa(w, d), WbIndex(w), false, false);
      if WritePa(w) != 0 && d == MIDDLE {
        table[8] := Descriptor(WritePa(w), NcIndex(w), false, false);
      }
    }
    assert forall i :: 0 <= i < ENTRIES ==> table[i] == BuildTable(w, d, l)[i];
  }

  // ---- the MMU ----

  datatype Translation = Fault | Page(pa: nat, attr: nat, writable: bool, executable: bool)

  function AddressOf(e: Word): (pa: nat) {
    e / PAGE % 0x10_0000_0000 * PAGE
  }

  function Decode(e: Word): (t: Translation) {
    if e % 4 != VALID then Fault
    else Page(AddressOf(e), e / 4 % 8, e / READ_ONLY % 2 == 0, e / UXN % 2 == 0)
  }

  /** Which entry of a level-`l` table translates the virtual page `v` (48-bit addresses). */
  function EntryIndex(v: nat, l: nat): (i: nat)
    ensures i < ENTRIES
  {
    match l
    case 0 => v / 0x800_0000 % ENTRIES
    case 1 => v / 0x4_0000 % ENTRIES
    case 2 => v / ENTRIES % ENTRIES
    case _ => v % ENTRIES
  }

  function Walk(mem: map<nat, Table>, pa: nat, l: nat, v: nat): (t: Translation)
    requires l < LEVELS
    decreases LEVELS - l
  {
    if pa !in mem then Fault
    else
      var e := mem[pa][EntryIndex(v, l)];
      if e % 4 != VALID then Fault
      else if l == 3 then Decode(e)
      else Walk(mem, AddressOf(e), l + 1, v)
  }

  /** The tables of domain `d` are in memory where the contract says. */
  ghost predicate Installed(mem: map<nat, Table>, w: Contract, d: nat)
    requires ContractValid(w) && d < DOMAINS
  {
    forall l :: 0 <= l < LEVELS ==> TablePa(w, d, l) in mem && mem[TablePa(w, d, l)] == BuildTable(w, d, l)
  }

  /** What the connection is meant to see at virtual page `v`. */
  function Intended(w: Contract, d: nat, v: nat): (t: Translation)
    requires d < DOMAINS
  {
    if v == FIRST_PAGE then Page(CodePa(w, d), WbIndex(w), false, true)
    else if v == FIRST_PAGE + 2 then Page(StackPa(w, d), WbIndex(w), true, false)
    else if v == FIRST_PAGE + 4 then Page(HeapPa(w), NcIndex(w), false, false)
    else if v == FIRST_PAGE + 6 then Page(ArgsPa(w, d), WbIndex(w), true, false)
    else if v == FIRST_PAGE + 8 && WritePa(w) != 0 && d == MIDDLE then Page(WritePa(w), NcIndex(w), true, false)
    else Fault
  }

  lemma DecodeDescriptor(pa: Word, attr: nat, readOnly: bool, executable: bool)
    requires PaValid(pa) && attr <= 7
    ensures Decode(Descriptor(pa, attr, readOnly, executable)) == Page(pa, attr, !readOnly, executable)
  {
    var e := Descriptor(pa, attr, readOnly, executable);
    var ro := if readOnly then 1 else 0;
    var high := if executable then 0x20 else 0x60;
    var pfn := pa / PAGE;
    assert pa == PAGE * pfn && pfn < 0x10_0000_0000;
    var top := pfn + 0x10_0000_0000 * high;
    DivMod(e, PAGE, top, 0xf43 + 4 * attr + 0x80 * ro);
    DivMod(top, 0x10_0000_0000, high, pfn);
    DivMod(e, 4, 0x400 * top + 0x3d0 + attr + 0x20 * ro, VALID);
    DivMod(e / 4, 8, 0x80 * top + 0x7a + 4 * ro, attr);
    DivMod(e, READ_ONLY, 0x20 * top + 0x1e + ro, 0x43 + 4 * attr);
    DivMod(e / READ_ONLY, 2, 0x10 * top + 0xf, ro);
    if executable {
      DivMod(e, UXN, 0, e);
    } else {
      DivMod(e, UXN, 1, e - UXN);
    }
  }

  lemma RouteDecodes(pa: Word)
    requires PaValid(pa)
    ensures (pa + VALID) % 4 == VALID && AddressOf(pa + VALID) == pa
  {
    assert (pa + VALID) / PAGE == pa / PAGE;
  }

  lemma LeafDecodes(w: Contract, d: nat, i: nat)
    requires ContractValid(w) && d < DOMAINS && i < ENTRIES
    ensures Decode(LeafEntry(w, d, i)) == Intended(w, d, FIRST_PAGE + i)
  {
    assert DomainValid(w, d);
    match i
    case 0 => DecodeDescriptor(CodePa(w, d), WbIndex(w), true, true);
    case 2 => DecodeDescriptor(StackPa(w, d), WbIndex(w), false, false);
    case 4 => DecodeDescriptor(HeapPa(w), NcIndex(w), true, false);
    case 6 => DecodeDescriptor(ArgsPa(w, d), WbIndex(w), false, false);
    case 8 => if WritePa(w) != 0 && d == MIDDLE { DecodeDescriptor(WritePa(w), NcIndex(w), false, false); }
    case _ =>
  }

  /** From a routing level the walk goes to the next table or faults. */
  lemma WalkRoutes(mem: map<nat, Table>, w: Contract, d: nat, l: nat, v: nat)
    requires ContractValid(w) && d < DOMAINS && l < 3 && Installed(mem, w, d)
    ensures Walk(mem, TablePa(w, d, l), l, v) ==
      if EntryIndex(v, l) == RouteIndex(l) then Walk(mem, TablePa(w, d, l + 1), l + 1, v) else Fault
  {
    assert DomainValid(w, d);
    RouteDecodes(TablePa(w, d, l + 1));
  }

  /**
    Every virtual page of a 48-bit address space translates to exactly what the contract intends:
    five possible pages, never writable and executable at once, and a fault everywhere else.
  */
  lemma WalkIsIntended(mem: map<nat, Table>, w: Contract, d: nat, v: nat)
    requires ContractValid(w) && d < DOMAINS && Installed(mem, w, d) && v < 0x10_0000_0000
    ensures Walk(mem, TablePa(w, d, 0), 0, v) == Intended(w, d, v)
    ensures var t := Walk(mem, TablePa(w, d, 0), 0, v); t.Page? ==> !(t.writable && t.executable)
  {
    WalkRoutes(mem, w, d, 0, v);
    WalkRoutes(mem, w, d, 1, v);
    WalkRoutes(mem, w, d, 2, v);
    if EntryIndex(v, 0) == 0 && EntryIndex(v, 1) == 4 && EntryIndex(v, 2) == 0 {
      assert v == FIRST_PAGE + v % ENTRIES;
      LeafDecodes(w, d, v % ENTRIES);
      assert TablePa(w, d, 3) in mem;
    } else {
      assert !(FIRST_PAGE <= v < FIRST_PAGE + ENTRIES);
    }
  }

  // ---- the extra domains ----

  /** What a connection is meant to see through extra domain `e`: its own code and stack, and the base heap and args. */
  function ExtraIntended(w: Contract, x: Extra, e: nat, v: nat): (t: Translation)
    requires e < EXTRA_DOMAINS
  {
    if v == FIRST_PAGE then Page(ExtraCode(x, e), WbIndex(w), false, true)
    else if v == FIRST_PAGE + 2 then Page(ExtraStack(x, e), WbIndex(w), true, false)
    else if v == FIRST_PAGE + 4 then Page(HeapPa(w), NcIndex(w), false, false)
    else if v == FIRST_PAGE + 6 then Page(if e % 2 == 1 then ArgsPa(w, LEAF) else ArgsPa(w, MIDDLE), WbIndex(w), true, false)
    else Fault
  }

  lemma AdaptedIs(w: Contract, x: Extra, e: nat, v: nat)
    requires e < EXTRA_DOMAINS && ExtraAccepted(w, x, e)
    ensures forall l :: 0 <= l < LEVELS ==> TablePa(Adapted(w, x, e), ExtraEntry(e), l) == ExtraTable(x, e, l)
    ensures Intended(Adapted(w, x, e), ExtraEntry(e), v) == ExtraIntended(w, x, e, v)
  {
  }

  /** The walk through the tables built for an extra entry. */
  lemma ExtraWalkIsIntended(mem: map<nat, Table>, w: Contract, x: Extra, e: nat, v: nat)
    requires e < EXTRA_DOMAINS && ExtraAccepted(w, x, e) && v < 0x10_0000_0000
    requires forall l :: 0 <= l < LEVELS ==>
      ExtraTable(x, e, l) in mem && mem[ExtraTable(x, e, l)] == BuildTable(Adapted(w, x, e), ExtraEntry(e), l)
    ensures Walk(mem, ExtraTable(x, e, 0), 0, v) == ExtraIntended(w, x, e, v)
  {
    AdaptedIs(w, x, e, v);
    WalkIsIntended(mem, Adapted(w, x, e), ExtraEntry(e), v);
  }

  /** The memory B owns is seen uncached, under another memory type than the connection's own pages. */
  lemma MemoryTypesDiffer(w: Contract, d: nat, v: nat, u: nat)
    requires ContractValid(w) && d < DOMAINS && Intended(w, d, v).Page? && Intended(w, d, u).Page?
    ensures Intended(w, d, v).attr == Intended(w, d, u).attr
       <==> (v == FIRST_PAGE + 4 || v == FIRST_PAGE + 8) == (u == FIRST_PAGE + 4 || u == FIRST_PAGE + 8)
  {
  }

  // ---- no page is reached in two ways that do not agree ----

  /** Nothing else of an accepted contract leads to the page a connection may write. */
  lemma WritePageIsApart(w: Contract, d: nat, v: nat)
    requires ContractValid(w) && d < DOMAINS && WritePa(w) != 0
    requires Intended(w, d, v).Page? && Intended(w, d, v).pa == WritePa(w)
    ensures d == MIDDLE && v == FIRST_PAGE + 8
  {
    assert DomainValid(w, d);
  }

  /** The code of an extra domain is reached through that domain alone, where it can be run and not written. */
  lemma ExtraCodeIsApart(w: Contract, x: Extra, e: nat, d: nat, j: nat, v: nat)
    requires e < EXTRA_DOMAINS && ExtraAccepted(w, x, e) && d < DOMAINS && j < EXTRA_DOMAINS
    ensures Intended(w, d, v).Page? ==> Intended(w, d, v).pa != ExtraCode(x, e)
    ensures ExtraIntended(w, x, j, v).Page? && ExtraIntended(w, x, j, v).pa == ExtraCode(x, e) ==> j == e && v == FIRST_PAGE
  {
    assert ExtraDomainValid(w, x, e);
  }

  /** Its stack is reached through that domain alone, where it can be written and not run. */
  lemma ExtraStackIsApart(w: Contract, x: Extra, e: nat, d: nat, j: nat, v: nat)
    requires e < EXTRA_DOMAINS && ExtraAccepted(w, x, e) && d < DOMAINS && j < EXTRA_DOMAINS
    ensures Intended(w, d, v).Page? ==> Intended(w, d, v).pa != ExtraStack(x, e)
    ensures ExtraIntended(w, x, j, v).Page? && ExtraIntended(w, x, j, v).pa == ExtraStack(x, e) ==> j == e && v == FIRST_PAGE + 2
  {
    assert ExtraDomainValid(w, x, e);
  }

  /** And its tables are reached through no domain at all. */
  lemma ExtraTablesAreApart(w: Contract, x: Extra, e: nat, l: nat, d: nat, j: nat, v: nat)
    requires e < EXTRA_DOMAINS && ExtraAccepted(w, x, e) && l < LEVELS && d < DOMAINS && j < EXTRA_DOMAINS
    ensures Intended(w, d, v).Page? ==> Intended(w, d, v).pa != ExtraTable(x, e, l)
    ensures ExtraIntended(w, x, j, v).Page? ==> ExtraIntended(w, x, j, v).pa != ExtraTable(x, e, l)
  {
    assert ExtraDomainValid(w, x, e) && ExtraDomainValid(w, x, j);
  }
}
