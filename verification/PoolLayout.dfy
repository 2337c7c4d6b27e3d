/**
  The shared region of the domain pool: its page layout, the connection contract and the
  per-slot publication record (include/uapi/linux/ub_lrpc_ub_domain.h).
*/
module PoolLayout {
  import opened Common

  const HALF: nat := 0x1_0000_0000

  /** A 64-bit word. */
  type Word = u64

  const PAGE: nat := 4096
  const PAGES: nat := 1024     // UD_BYTES / UD_PAGE
  const DOMAINS: nat := 4
  const LEVELS: nat := 4
  const CLIENTS: nat := 8
  const EXTRA_DOMAINS: nat := 4
  const MIDDLE: nat := 1
  const LEAF: nat := 2

  const MAGIC: Word := 0x5542444f4d303031
  const ABI: nat := 2
  const EXTRA_ABI: nat := 1

  const PROFILE_SOCIAL: nat := 1
  const PROFILE_SOCIAL_WRITE: nat := 2
  const PROFILE_SOCIAL_SHARED: nat := 3

  // ---- page numbers: every object of the layout is page aligned ----

  const HEAP_PAGE: nat := 0x30
  const SHARED_PAGE: nat := 0x308

  function ContextPage(d: nat): (p: nat) { 0x50 + d }

  function SlotPage(c: nat): (p: nat) { 0x100 + c }

  function TablePage(c: nat, d: nat, l: nat): (p: nat) { 0x110 + 0x10 * c + 4 * d + l }

  function ExtraTablePage(c: nat, d: nat, l: nat): (p: nat) { 0x200 + 0x10 * c + 4 * d + l }

  function WritePage(c: nat): (p: nat) { 0x300 + c }

  /** The pages that belong to slot `c`. */
  predicate OwnedBy(c: nat, p: nat) {
    || p == SlotPage(c)
    || TablePage(c, 0, 0) <= p < TablePage(c + 1, 0, 0)
    || ExtraTablePage(c, 0, 0) <= p < ExtraTablePage(c + 1, 0, 0)
    || p == WritePage(c)
  }

  /** Slots share no page with one another or with the pages every connection reads. */
  lemma LayoutIsDisjoint(c: nat, u: nat, p: nat)
    requires c < CLIENTS && u < CLIENTS && OwnedBy(c, p)
    ensures p < PAGES
    ensures c != u ==> !OwnedBy(u, p)
    ensures p != SHARED_PAGE && p != HEAP_PAGE && p > ContextPage(DOMAINS)
  {
  }

  // ---- the contract, as the 34 words of struct ud_contract ----

  const CONTRACT_WORDS: nat := 34

  type Contract = w: seq<Word> | |w| == CONTRACT_WORDS witness seq(CONTRACT_WORDS, _ => 0)

  function Magic(w: Contract): (v: Word) { w[0] }
  function Nonce(w: Contract): (v: Word) { w[1] }
  function Abi(w: Contract): (v: nat) { w[2] % HALF }
  function WbIndex(w: Contract): (v: nat) { w[2] / HALF }
  function NcIndex(w: Contract): (v: nat) { w[3] % HALF }
  function Reserved(w: Contract): (v: nat) { w[3] / HALF }
  function TablePa(w: Contract, d: nat, l: nat): (v: Word) requires d < DOMAINS && l < LEVELS { w[4 + 4 * d + l] }
  function HeapPa(w: Contract): (v: Word) { w[20] }
  function CodePa(w: Contract, d: nat): (v: Word) requires d < DOMAINS { w[21 + d] }
  function StackPa(w: Contract, d: nat): (v: Word) requires d < DOMAINS { w[25 + d] }
  function ArgsPa(w: Contract, d: nat): (v: Word) requires d < DOMAINS { w[29 + d] }
  function WritePa(w: Contract): (v: Word) { w[33] }

  /** The words of a contract in the order of struct ud_contract, two 32-bit fields to a word, low half first. */
  function ContractWords(magic: Word, nonce: Word, abi: nat, wb: nat, nc: nat, reserved: nat,
                         tables: seq<Word>, heap: Word, code: seq<Word>, stack: seq<Word>, args: seq<Word>,
                         write: Word): (w: Contract)
    requires abi < HALF && wb < HALF && nc < HALF && reserved < HALF
    requires |tables| == DOMAINS * LEVELS && |code| == |stack| == |args| == DOMAINS
  {
    [magic, nonce, abi + HALF * wb, nc + HALF * reserved] + tables + [heap] + code + stack + args + [write]
  }

  /** Each field is read where the structure has it. */
  lemma FieldsReadBack(magic: Word, nonce: Word, abi: nat, wb: nat, nc: nat, reserved: nat,
                       tables: seq<Word>, heap: Word, code: seq<Word>, stack: seq<Word>, args: seq<Word>,
                       write: Word, d: nat, l: nat)
    requires abi < HALF && wb < HALF && nc < HALF && reserved < HALF && d < DOMAINS && l < LEVELS
    requires |tables| == DOMAINS * LEVELS && |code| == |stack| == |args| == DOMAINS
    ensures var w := ContractWords(magic, nonce, abi, wb, nc, reserved, tables, heap, code, stack, args, write);
      && Magic(w) == magic && Nonce(w) == nonce && Abi(w) == abi && WbIndex(w) == wb && NcIndex(w) == nc
      && Reserved(w) == reserved && TablePa(w, d, l) == tables[4 * d + l] && HeapPa(w) == heap
      && CodePa(w, d) == code[d] && StackPa(w, d) == stack[d] && ArgsPa(w, d) == args[d] && WritePa(w) == write
  {
  }

  /** A non-zero page-aligned address below 2^48. */
  predicate PaValid(pa: Word) {
    pa != 0 && pa % PAGE == 0 && pa < 0x1_0000_0000_0000
  }

  predicate DomainValid(w: Contract, d: nat)
    requires d < DOMAINS
  {
    && PaValid(CodePa(w, d)) && PaValid(StackPa(w, d)) && PaValid(ArgsPa(w, d))
    && (forall l :: 0 <= l < LEVELS ==>
         PaValid(TablePa(w, d, l)) && (WritePa(w) != 0 ==> WritePa(w) != TablePa(w, d, l)))
    && (WritePa(w) != 0 ==>
         WritePa(w) != CodePa(w, d) && WritePa(w) != StackPa(w, d) && WritePa(w) != ArgsPa(w, d))
  }

  predicate ContractValid(w: Contract) {
    && Magic(w) == MAGIC && Abi(w) == ABI && Nonce(w) != 0
    && Reserved(w) == 0 && WbIndex(w) <= 7 && NcIndex(w) <= 7
    && WbIndex(w) != NcIndex(w) && PaValid(HeapPa(w))
    && (WritePa(w) != 0 ==> PaValid(WritePa(w)) && WritePa(w) != HeapPa(w))
    && (forall d :: 0 <= d < DOMAINS ==> DomainValid(w, d))
  }

  // ---- the optional three-nginx extension, as the 26 words of struct ud_social_extra ----

  const EXTRA_WORDS: nat := 26

  type Extra = x: seq<Word> | |x| == EXTRA_WORDS witness seq(EXTRA_WORDS, _ => 0)

  function ExtraNonce(x: Extra): (v: Word) { x[0] }
  function ExtraAbi(x: Extra): (v: nat) { x[1] % HALF }
  function ExtraCount(x: Extra): (v: nat) { x[1] / HALF }
  function ExtraTable(x: Extra, e: nat, l: nat): (v: Word) requires e < EXTRA_DOMAINS && l < LEVELS { x[2 + 6 * e + l] }
  function ExtraCode(x: Extra, e: nat): (v: Word) requires e < EXTRA_DOMAINS { x[6 + 6 * e] }
  function ExtraStack(x: Extra, e: nat): (v: Word) requires e < EXTRA_DOMAINS { x[7 + 6 * e] }

  /** `pa` is none of the pages of the base contract. */
  predicate ApartFromBase(w: Contract, pa: Word) {
    && pa != HeapPa(w)
    && (forall d :: 0 <= d < DOMAINS ==> pa != CodePa(w, d) && pa != StackPa(w, d) && pa != ArgsPa(w, d))
    && (forall d, l | 0 <= d < DOMAINS && 0 <= l < LEVELS :: pa != TablePa(w, d, l))
  }

  predicate ExtraDomainValid(w: Contract, x: Extra, e: nat)
    requires e < EXTRA_DOMAINS
  {
    var code, stack := ExtraCode(x, e), ExtraStack(x, e);
    && PaValid(code) && PaValid(stack) && code != stack
    && ApartFromBase(w, code) && ApartFromBase(w, stack)
    && (forall j :: 0 <= j < EXTRA_DOMAINS && j != e ==>
         code != ExtraCode(x, j) && code != ExtraStack(x, j) && stack != ExtraCode(x, j) && stack != ExtraStack(x, j))
    && (forall j, k | 0 <= j < EXTRA_DOMAINS && 0 <= k < LEVELS ::
         code != ExtraTable(x, j, k) && stack != ExtraTable(x, j, k))
    && (forall l :: 0 <= l < LEVELS ==> PaValid(ExtraTable(x, e, l)) && ApartFromBase(w, ExtraTable(x, e, l)))
    && (forall l, j, k | 0 <= l < LEVELS && 0 <= j < EXTRA_DOMAINS && 0 <= k < LEVELS ::
         j != e || k != l ==> ExtraTable(x, e, l) != ExtraTable(x, j, k))
  }

  /** The domain of the base contract an extra entry stands in for. */
  function ExtraEntry(e: nat): (d: nat)
    ensures d < DOMAINS
  {
    if e % 2 == 1 then LEAF else MIDDLE
  }

  /** The base contract with one domain's code, stack and tables replaced by an extra entry's. */
  function Adapted(w: Contract, x: Extra, e: nat): (r: Contract)
    requires e < EXTRA_DOMAINS
  {
    var d := ExtraEntry(e);
    w[4 + 4 * d := ExtraTable(x, e, 0)][5 + 4 * d := ExtraTable(x, e, 1)]
     [6 + 4 * d := ExtraTable(x, e, 2)][7 + 4 * d := ExtraTable(x, e, 3)]
     [21 + d := ExtraCode(x, e)][25 + d := ExtraStack(x, e)]
  }

  predicate ExtraAccepted(w: Contract, x: Extra, e: nat)
    requires e < EXTRA_DOMAINS
  {
    && WritePa(w) == 0
    && ExtraAbi(x) == EXTRA_ABI && ExtraCount(x) == EXTRA_DOMAINS && ExtraNonce(x) == Nonce(w)
    && ContractValid(w)
    && (forall j :: 0 <= j < EXTRA_DOMAINS ==> ExtraDomainValid(w, x, j))
    && ContractValid(Adapted(w, x, e))
  }
}
