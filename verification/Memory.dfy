/** The shared heap, cut into pages, and the sizes the runtime fixes for it. */
module Memory {

  const PAGE_SIZE: nat := 0x1000
  const HEAP_SIZE: nat := 512 * 1024
  const NUM_PAGES: nat := HEAP_SIZE / PAGE_SIZE

  type Page = p: nat | p < NUM_PAGES
  type Offset = o: nat | o < PAGE_SIZE

  /** An address inside the heap. A cell holds one integer; an object wider than one byte
      lives in the cell of its first byte. */
  datatype Address = At(page: Page, offset: Offset)

  type PageData = d: seq<int> | |d| == PAGE_SIZE witness seq(PAGE_SIZE, _ => 0)
  const ZERO_PAGE: PageData := seq(PAGE_SIZE, _ => 0)
  type Heap = h: seq<PageData> | |h| == NUM_PAGES witness seq(NUM_PAGES, _ => ZERO_PAGE)

  /** The copy-on-write pages of one process: a page outside the domain reads through to the
      shared backing page. */
  type Copies = map<Page, PageData>

  function ViewPage(h: Heap, copies: Copies, p: Page): PageData {
    if p in copies then copies[p] else h[p]
  }

  /** What a process with these private copies sees of the heap. */
  function Overlay(h: Heap, copies: Copies): Heap {
    seq(NUM_PAGES, p requires 0 <= p < NUM_PAGES => ViewPage(h, copies, p))
  }

  function Read(h: Heap, a: Address): int {
    h[a.page][a.offset]
  }

  function Write(h: Heap, a: Address, v: int): Heap {
    h[a.page := h[a.page][a.offset := v]]
  }

  // ---- page versions: a page absent from a table counts as version 0 ----

  type Versions = map<Page, nat>

  function Version(t: Versions, p: Page): nat {
    if p in t then t[p] else 0
  }
}
