/**
 * The pagination control: the previous/next targets it computes from the
 * current page, and the six button slots it renders. The page items, the
 * hook's current page and its page count come from a pagination hook that
 * is not part of this model; they are taken here as an opaque input.
 */
module Pagination {

  const FirstPage: int := 1

  /** The control always renders this many slots, for indices 0 to 5. */
  const SlotCount: nat := 6

  /** What the hook says about one slot index: a navigation group, a gap,
      or a numbered page. */
  datatype PageKind = Previous | Gap | Next | Numbered(page: int)

  datatype PageItem = PageItem(page: PageKind, disabled: bool)

  /** The hook's output: its current page, its page count, and the item it
      reports for each slot index. */
  datatype HookResult = HookResult(currentPage: int, totalPages: int, pageItem: nat -> PageItem)

  /** A rendered round button: the page a click asks for, and its flags. */
  datatype Button = Button(target: int, disabled: bool, active: bool)

  /** One rendered slot. */
  datatype Slot =
    | FirstAndPrev(first: Button, prev: Button)
    | Ellipsis
    | NextAndLast(next: Button, last: Button)
    | PageLink(button: Button)

  function Max(a: int, b: int): int { if a < b then b else a }
  function Min(a: int, b: int): int { if a < b then a else b }

  /** `Math.max(pageNo - 1, firstPage)`: one page back, never before page 1. */
  function PrevPage(pageNo: int): (r: int)
    ensures r >= FirstPage
    ensures pageNo >= FirstPage + 1 ==> r == pageNo - 1
    ensures pageNo <= FirstPage ==> r == FirstPage
  {
    Max(pageNo - 1, FirstPage)
  }

  /** `Math.min(pageNo + 1, totalPages)`: one page on, never past the last. */
  function NextPage(pageNo: int, totalPages: int): (r: int)
    ensures r <= totalPages
    ensures pageNo < totalPages ==> r == pageNo + 1
    ensures pageNo >= totalPages ==> r == totalPages
  {
    Min(pageNo + 1, totalPages)
  }

  /** From any page inside the range, both neighbours stay inside it. */
  lemma NeighboursInRange(pageNo: int, totalPages: int)
    requires FirstPage <= pageNo <= totalPages
    ensures FirstPage <= PrevPage(pageNo) <= totalPages
    ensures FirstPage <= NextPage(pageNo, totalPages) <= totalPages
  {
  }

  /** With no pages at all, "next" targets page 0. */
  lemma NextPageWithoutPages(pageNo: int)
    requires pageNo >= 0
    ensures NextPage(pageNo, 0) == 0
  {
  }

  /** The slot for index i: the kind the hook reports selects the markup. */
  function RenderSlot(pageNo: int, hook: HookResult, i: nat): (r: Slot)
    ensures r.FirstAndPrev? <==> hook.pageItem(i).page.Previous?
    ensures r.Ellipsis? <==> hook.pageItem(i).page.Gap?
    ensures r.NextAndLast? <==> hook.pageItem(i).page.Next?
    ensures r.PageLink? <==> hook.pageItem(i).page.Numbered?
    ensures r.FirstAndPrev? ==> r.first.target == FirstPage && r.prev.target == PrevPage(pageNo)
    ensures r.NextAndLast? ==> r.last.target == hook.totalPages &&
                               r.next.target == NextPage(pageNo, hook.totalPages)
  {
    var item := hook.pageItem(i);
    match item.page
    case Previous =>
      FirstAndPrev(Button(FirstPage, item.disabled, false), Button(PrevPage(pageNo), item.disabled, false))
    case Gap => Ellipsis
    case Next =>
      NextAndLast(Button(NextPage(pageNo, hook.totalPages), item.disabled, false),
                  Button(hook.totalPages, item.disabled, false))
    case Numbered(p) => PageLink(Button(p, false, p == hook.currentPage))
  }

  /** The `map` over a six-element array. The "first" button always targets
      page 1 and the "last" button always the hook's page count; first and
      previous share the item's disabled flag, as do next and last; a
      numbered button is never disabled, targets its page, and is active
      exactly when that page is the hook's current page. */
  function Render(pageNo: int, hook: HookResult): (r: seq<Slot>)
    ensures |r| == SlotCount
    ensures forall i :: 0 <= i < |r| ==>
              (r[i].FirstAndPrev? <==> hook.pageItem(i).page.Previous?) &&
              (r[i].Ellipsis? <==> hook.pageItem(i).page.Gap?) &&
              (r[i].NextAndLast? <==> hook.pageItem(i).page.Next?) &&
              (r[i].PageLink? <==> hook.pageItem(i).page.Numbered?)
    ensures forall i :: 0 <= i < |r| && r[i].FirstAndPrev? ==>
              r[i].first.target == FirstPage && r[i].prev.target == PrevPage(pageNo) &&
              r[i].first.disabled == r[i].prev.disabled == hook.pageItem(i).disabled
    ensures forall i :: 0 <= i < |r| && r[i].NextAndLast? ==>
              r[i].next.target == NextPage(pageNo, hook.totalPages) &&
              r[i].last.target == hook.totalPages &&
              r[i].next.disabled == r[i].last.disabled == hook.pageItem(i).disabled
    ensures forall i :: 0 <= i < |r| && r[i].PageLink? ==>
              r[i].button.target == hook.pageItem(i).page.page && !r[i].button.disabled &&
              (r[i].button.active <==> r[i].button.target == hook.currentPage)
  {
    seq(SlotCount, i requires 0 <= i < SlotCount => RenderSlot(pageNo, hook, i))
  }

  /** Every page a navigation button targets lies in [1, totalPages]. */
  predicate NavigationInRange(s: Slot, totalPages: int) {
    match s
    case FirstAndPrev(first, prev) =>
      FirstPage <= first.target <= totalPages && FirstPage <= prev.target <= totalPages
    case NextAndLast(next, last) =>
      FirstPage <= next.target <= totalPages && FirstPage <= last.target <= totalPages
    case _ => true
  }

  /** From a page inside the range, no navigation button leaves it. */
  lemma RenderedNavigationInRange(pageNo: int, hook: HookResult)
    requires FirstPage <= pageNo <= hook.totalPages
    ensures forall i :: 0 <= i < SlotCount ==> NavigationInRange(Render(pageNo, hook)[i], hook.totalPages)
  {
    var r := Render(pageNo, hook);
    NeighboursInRange(pageNo, hook.totalPages);
    forall i | 0 <= i < SlotCount
      ensures NavigationInRange(r[i], hook.totalPages)
    {
    }
  }
}
