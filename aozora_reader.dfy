/**
 * The reader screen (src/hud/pages/aozora-reader.ts): one work split into
 * pages, a header with the title and "page/total", and a body with the
 * current page between navigation hints. Click turns forward, double click
 * back; every shown page is saved as reading progress.
 */
module AozoraReader {
  import opened Wrappers
  import opened HudTypes
  import opened Base
  import opened Text
  import opened Pagination
  import opened Progress
  import opened AozoraRepository

  const HEADER_HEIGHT: int := 34
  const BACK_HINT: string := "*ダブルクリックで戻る"
  const NEXT_HINT: string := "*クリックで次のページ"

  /** clampPageIndex: the nearest index of an existing page. */
  function ClampPageIndex(index: int, pageCount: nat): (k: int)
    requires pageCount >= 1
    ensures 0 <= k < pageCount
    ensures 0 <= index < pageCount ==> k == index
    ensures index < 0 ==> k == 0
    ensures index >= pageCount ==> k == pageCount - 1
  {
    if index < 0 then 0
    else if index > pageCount - 1 then pageCount - 1
    else index
  }

  /** A reader reopened at the page its progress record holds shows that
      page again. */
  lemma ResumeShowsSavedPage(slot: Slot, bookId: string, pageIndex: int, pageCount: nat, now: int)
    requires 0 <= pageIndex < pageCount
    ensures ProgressOf(SavedSlot(slot, bookId, pageIndex, pageCount, now), bookId).Some?
    ensures ClampPageIndex(ProgressOf(SavedSlot(slot, bookId, pageIndex, pageCount, now), bookId).value.pageIndex, pageCount) == pageIndex
  {

  }

  /** The lines of the body, without the empty ones. */
  function NonEmpty(lines: seq<string>): (r: seq<string>)
    ensures forall i :: 0 <= i < |r| ==> r[i] != []
    ensures forall x :: x in r <==> x in lines && x != []
    ensures |lines| == 1 ==> r == (if lines[0] == [] then [] else lines)
  {
    if lines == [] then []
    else if lines[0] == [] then NonEmpty(lines[1..])
    else [lines[0]] + NonEmpty(lines[1..])
  }

  /** The filter keeps the order and the repetitions of the lines it keeps. */
  lemma {:induction false} NonEmptyConcat(a: seq<string>, b: seq<string>)
    ensures NonEmpty(a + b) == NonEmpty(a) + NonEmpty(b)
  {
    if a == [] {
      assert a + b == b;
    } else {
      assert (a + b)[1..] == a[1..] + b;
      NonEmptyConcat(a[1..], b);
    }
  }

  /** The body text: the back hint from the second page on, the page, and
      the next-page hint, blank-line separated. */
  function BodyContent(pageIndex: int, page: string): (s: string)
    ensures page != [] ==>
      s == (if pageIndex >= 1 then BACK_HINT + "\n\n" else "") + page + "\n\n" + NEXT_HINT
    ensures page == [] ==>
      s == (if pageIndex >= 1 then BACK_HINT + "\n\n" else "") + NEXT_HINT
  {
    var topHint := if pageIndex >= 1 then BACK_HINT else "";
    JoinedBody(topHint, page);
    Join(NonEmpty([topHint, page, NEXT_HINT]), "\n\n")
  }

  /** Filtering then joining the three body lines, case by case. */
  lemma JoinedBody(topHint: string, page: string)
    ensures Join(NonEmpty([topHint, page, NEXT_HINT]), "\n\n")
      == (if topHint != [] then topHint + "\n\n" else "") + (if page != [] then page + "\n\n" else "") + NEXT_HINT
  {
    var lines := [topHint, page, NEXT_HINT];
    assert lines[1..] == [page, NEXT_HINT];
    assert lines[1..][1..] == [NEXT_HINT];
    assert [NEXT_HINT][1..] == [];
    assert NonEmpty([NEXT_HINT]) == [NEXT_HINT];
    var rest := NonEmpty([page, NEXT_HINT]);
    assert rest == (if page != [] then [page, NEXT_HINT] else [NEXT_HINT]);
    if page != [] {
      assert [page, NEXT_HINT][1..] == [NEXT_HINT];
      assert Join(rest, "\n\n") == page + "\n\n" + NEXT_HINT;
    }
    if topHint != [] {
      assert NonEmpty(lines) == [topHint] + rest;
      assert ([topHint] + rest)[1..] == rest;
    }
  }

  /** The header text: "<title>  <page number>/<page count>". */
  function HeaderContent(title: string, pageIndex: nat, pageCount: nat): string {
    title + "  " + NatToString(pageIndex + 1) + "/" + NatToString(pageCount)
  }

  /** render, for a work titled `title` split into `pages` and shown at
      `pageIndex`: the header (not capturing) over the body (capturing). */
  function ReaderDescription(title: string, pages: seq<string>, pageIndex: int): (d: RenderDescription)
    ensures WellFormed(d) && d.containerTotalNum == 2
    ensures |d.textObject| == 2 && d.imageObject == [] && d.listObject == []
    ensures d.textObject[0].containerID == 1 && d.textObject[0].containerName == "hdr"
    ensures d.textObject[1].containerID == 2 && d.textObject[1].containerName == "body"
    ensures 0 <= pageIndex < |pages| ==>
      d.textObject[0].content == HeaderContent(title, pageIndex, |pages|)
      && d.textObject[1].content == BodyContent(pageIndex, pages[pageIndex])
    ensures d.textObject[0].isEventCapture == 0 && d.textObject[1].isEventCapture == 1
    ensures d.textObject[0].yPosition + d.textObject[0].height == d.textObject[1].yPosition
    ensures d.textObject[1].yPosition + d.textObject[1].height == GLASS_SCREEN_HEIGHT
  {
    var currentPage := if 0 <= pageIndex < |pages| then pages[pageIndex] else "";
    var shownIndex: nat := if pageIndex >= 0 then pageIndex else 0;
    RenderDescription(
      2,
      [ TextContainer(12, 0, GLASS_SCREEN_WIDTH - 24, HEADER_HEIGHT, 0, 5, 2,
          1, "hdr", HeaderContent(title, shownIndex, |pages|), 0),
        TextContainer(12, HEADER_HEIGHT, GLASS_SCREEN_WIDTH - 24, GLASS_SCREEN_HEIGHT - HEADER_HEIGHT, 0, 5, 2,
          2, "body", BodyContent(pageIndex, currentPage), 1) ],
      [], [])
  }

  class AozoraReaderPage {
    const base: BasePage
    const work: Work
    const pages: seq<string>
    var currentPageIndex: int
    /** Whether an onProgressChanged callback was given, and how often it ran. */
    const hasObserver: bool
    var notifications: nat
    /** The browser storage the progress goes to. */
    const store: ProgressStore

    /** The page list is the pagination of the work, and the index points
        at one of its pages. */
    predicate Valid()
      reads this
    {
      pages == PagesOf(work.content) && 0 <= currentPageIndex < |pages|
    }

    constructor(work: Work, initialPageIndex: int, store: ProgressStore, hasObserver: bool)
      ensures Valid()
      ensures this.work == work && this.store == store && this.hasObserver == hasObserver
      ensures currentPageIndex == ClampPageIndex(initialPageIndex, |PagesOf(work.content)|)
      ensures notifications == 0
      ensures fresh(base) && base.loadPage.None? && base.bridge == null
    {
      base := new BasePage();
      this.work := work;
      var pages := PaginateWorkText(work.content);
      PagesOfProperties(work.content);
      this.pages := pages;
      currentPageIndex := ClampPageIndex(initialPageIndex, |pages|);
      this.hasObserver := hasObserver;
      notifications := 0;
      this.store := store;
    }

    /** render: the header and the body for the current page. */
    function Render(): RenderDescription
      reads this
    {
      ReaderDescription(work.summary.title, pages, currentPageIndex)
    }

    /** persistProgress: save (work id, current index, page count) at time
        `now`, then notify the observer if there is one. */
    method PersistProgress(now: int)
      modifies this, store
      ensures store.slot == SavedSlot(old(store.slot), work.summary.id, currentPageIndex, |pages|, now)
      ensures notifications == old(notifications) + (if hasObserver then 1 else 0)
      ensures currentPageIndex == old(currentPageIndex)
    {
      store.Save(work.summary.id, currentPageIndex, |pages|, now);
      if hasObserver {
        notifications := notifications + 1;
      }
    }

    /** refresh: without a bridge nothing is shown and nothing saved;
        otherwise rebuild the screen, then save the progress. */
    method Refresh(now: int)
      modifies this, store, base.bridge
      ensures currentPageIndex == old(currentPageIndex)
      ensures base.bridge == null ==> unchanged(this, store)
      ensures base.bridge != null ==>
        && base.bridge.calls == old(base.bridge.calls) + [RebuildPageContainer(Render())]
        && store.slot == SavedSlot(old(store.slot), work.summary.id, currentPageIndex, |pages|, now)
        && notifications == old(notifications) + (if hasObserver then 1 else 0)
    {
      if base.bridge == null {
        return;
      }
      base.bridge.Call(RebuildPageContainer(Render()));
      PersistProgress(now);
    }

    /** onClick: on the last page nothing happens; otherwise move one page
        on and refresh. */
    method OnClick(event: SysItemEvent, env: Env)
      requires Valid()
      modifies this, store, base.bridge
      ensures Valid()
      ensures old(currentPageIndex) == |pages| - 1 ==>
        unchanged(this, store) && (base.bridge != null ==> base.bridge.calls == old(base.bridge.calls))
      ensures old(currentPageIndex) < |pages| - 1 ==>
        && currentPageIndex == old(currentPageIndex) + 1
        && (base.bridge == null ==> unchanged(store) && notifications == old(notifications))
        && (base.bridge != null ==>
              && base.bridge.calls == old(base.bridge.calls) + [RebuildPageContainer(Render())]
              && store.slot == SavedSlot(old(store.slot), work.summary.id, currentPageIndex, |pages|, env.now)
              && store.Get(work.summary.id) == Some(ReadingProgress(currentPageIndex, |pages|, env.now))
              && notifications == old(notifications) + (if hasObserver then 1 else 0))
    {
      if currentPageIndex >= |pages| - 1 {
        return;
      }
      currentPageIndex := currentPageIndex + 1;
      Refresh(env.now);
    }

    /** onDoubleClick: on the first page nothing happens; otherwise move one
        page back and refresh. */
    method OnDoubleClick(event: SysItemEvent, env: Env)
      requires Valid()
      modifies this, store, base.bridge
      ensures Valid()
      ensures old(currentPageIndex) == 0 ==>
        unchanged(this, store) && (base.bridge != null ==> base.bridge.calls == old(base.bridge.calls))
      ensures old(currentPageIndex) > 0 ==>
        && currentPageIndex == old(currentPageIndex) - 1
        && (base.bridge == null ==> unchanged(store) && notifications == old(notifications))
        && (base.bridge != null ==>
              && base.bridge.calls == old(base.bridge.calls) + [RebuildPageContainer(Render())]
              && store.slot == SavedSlot(old(store.slot), work.summary.id, currentPageIndex, |pages|, env.now)
              && store.Get(work.summary.id) == Some(ReadingProgress(currentPageIndex, |pages|, env.now))
              && notifications == old(notifications) + (if hasObserver then 1 else 0))
    {
      if currentPageIndex <= 0 {
        return;
      }
      currentPageIndex := currentPageIndex - 1;
      Refresh(env.now);
    }

    /** afterRender: save the progress of the page first shown. */
    method AfterRender(env: Env)
      requires Valid()
      modifies this, store
      ensures Valid()
      ensures currentPageIndex == old(currentPageIndex)
      ensures store.slot == SavedSlot(old(store.slot), work.summary.id, currentPageIndex, |pages|, env.now)
      ensures store.Get(work.summary.id) == Some(ReadingProgress(currentPageIndex, |pages|, env.now))
      ensures notifications == old(notifications) + (if hasObserver then 1 else 0)
    {
      PersistProgress(env.now);
    }
  }
}
