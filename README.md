# even-aozora-reader, modelled in Dafny

This project models the core of even-aozora-reader. The app reads public-domain Japanese texts from the Aozora
Bunko archive on a pair of smart glasses with a 576 × 288 heads-up display (HUD). The model covers these parts:

- **Pagination** (`pagination.dfy`). A work's text is split into pages of at most 2000 code points. First, CR-LF
  pairs become LF and surrounding whitespace is trimmed. Empty text becomes one placeholder page.
- **Reading-progress store** (`progress.dfy`). One persisted map from work id to page index, page count and time
  stamp. It is a class whose storage slot the save and remove operations rewrite.
- **Repository** (`repository.dfy`):
  - It validates and copies the work summaries a search returns.
  - It normalises fetched text: line endings, runs of blank lines, trimming.
  - A blank query answers nothing without a request. Results without a text file are dropped.
  - It keeps two process-wide caches: summaries by id and texts by id.
- **HUD pages** (`base_page.dfy`, `splash_text.dfy`, `test_text.dfy`, `test_list.dfy`, `test_image.dfy`,
  `test_layout.dfy`, `test_audio.dfy`, `aozora_reader.dfy`). Each page is a class:
  - Its fields are the page's own state.
  - Its `Render` is the screen description it produces.
  - Its handlers change the state and make calls on the device bridge.
  - The shared part of every page (`BasePage`) is a field `base` of each page.
- **Page manager** (`page_manager.dfy`). It routes each hardware event to exactly one handler of the current page,
  following the listener's precedence. It swaps pages when a handler asks for one: attach the page, render it,
  send the description, run the after-render step.

The device bridge is modelled as the log of the calls made on it (`HudTypes.Bridge.calls`). The listener
registrations are log entries too, so "loading a page registers no listener again" is a statement about the log.

Values from outside the program arrive as parameters:
- HTTP responses (`Fetched`);
- the storage slot's parse outcome (`Slot`);
- clock readings, the downloaded image bytes, whether the audio-control call completed without throwing (a call that resolves to `false` counts as completed), and the id of
  a new interval timer (`HudTypes.Env`).

`paginateWorkText` replaces only CR-LF pairs
(`src/reader/pagination.ts:4`), so a bare CR is kept and counts as a code point. The repository's `normalizeAozoraText`
also replaces bare CRs, so texts that come through the repository contain no CR when they are paginated.

While the repository's caches are valid (`Repository.Valid`), its "summary cache missing" error cannot arise. Every
text is cached right after its summary, and nothing is ever evicted. `FetchWorkContentById` proves this as
`id in old(contentCache) ==> r.Ok?`.

## Model

| member | source | states |
|---|---|---|
| `Text.Trim` | src/reader/pagination.ts:4 | The result neither starts nor ends with whitespace. It is the slice of the input right after the leading whitespace, and only whitespace follows it. It is empty exactly when the input is all whitespace. |
| `Text.TrimKeepsNonWhitespace` | src/reader/pagination.ts:4 | Trimming drops whitespace only: the visible characters stay, in order. |
| `Text.ReplaceCrlf` | src/reader/pagination.ts:4 | Each CR-LF pair becomes one LF, so the result is shorter by exactly the number of pairs. Only CRs are removed. A lone code point, a bare CR included, is kept, and text without a CR comes back unchanged. |
| `Text.ReplaceCrlfConcat` | src/reader/pagination.ts:4 | The rewrite works piece by piece when the cut does not split a CR-LF pair. With the one- and two-code-point cases above, this fixes the result on every string (proof by induction). |
| `Text.ReplaceCr` | src/repositories/aozora-repository.ts:86 | Same length and no CR left. Every CR becomes an LF in its place, and every other code point stays in place. |
| `Text.ReplaceCrKeepsNonWhitespace` | src/repositories/aozora-repository.ts:86 | Turning CRs into LFs adds, drops or moves no visible character (proof by induction). |
| `Text.NatToString` | src/hud/pages/test-text.ts:23 | Template-literal printing of a count: at least one decimal digit and no leading zero. |
| `Text.DecimalRoundTrip` | src/hud/pages/test-text.ts:23 | Reading the printed digits back gives the number (proof by induction). |
| `Text.NatToStringInjective` | src/hud/pages/aozora-reader.ts:66 | Different page numbers print differently. |
| `Pagination.ChunksConcat` | src/reader/pagination.ts:10-12 | Joining the chunks the loop produces gives back the normalised text. |
| `Pagination.ChunksSizes` | src/reader/pagination.ts:10-12 | Every page holds 1 to 2000 code points, and every page but the last holds exactly 2000. |
| `Pagination.ChunksCount` | src/reader/pagination.ts:10-12 | There are ceil(L / 2000) pages for a text of L code points. |
| `Pagination.PagesOfProperties` | src/reader/pagination.ts:3-15 | Never zero pages. Empty normalised text gives the single placeholder page. Otherwise the pages concatenate to the normalised text, number ceil(L / 2000), and have the sizes above. |
| `Pagination.PaginateWorkText` | src/reader/pagination.ts:3-15 | The loop over i = 0, 2000, 4000, … returns exactly the pages of the specification function `PagesOf`. |
| `Pagination.GetWorkPageCount` | src/reader/pagination.ts:17-19 | At least 1, equal to the number of pages, and ceil(L / 2000) for non-empty text. |
| `Progress.ProgressMapOf` | src/reader/progress.ts:11-22 | A missing or empty item, unparsable text, or a non-object value reads as the empty map. A stored object reads as itself. |
| `Progress.ProgressOf` | src/reader/progress.ts:24-28 | A record is found exactly when the id is a key of the map read, and it is that key's record. |
| `Progress.SavedSlot` | src/reader/progress.ts:30-45 | After a save the slot holds an object. The id maps to the new record, every other id keeps its record, and the keys grow by the id only. |
| `Progress.RemovedSlot` | src/reader/progress.ts:47-55 | An absent id leaves the slot untouched, with no write. Otherwise the id is gone, the keys shrink by it, and the other records stay. |
| `Progress.SaveThenRemove` | src/reader/progress.ts:30-55 | Removing a just-saved record restores every other id's lookup, and the id itself then has no record. |
| `Progress.SaveOverwrites` | src/reader/progress.ts:35-44 | Saving the same id twice equals saving only the second record. |
| `Progress.ProgressStore.constructor` | src/reader/progress.ts:11-22 | The store reads whatever the storage slot held when it was opened. |
| `Progress.ProgressStore.Save` | src/reader/progress.ts:30-45 | The new slot is `SavedSlot` of the old one, and reading the id back gives the saved record. |
| `Progress.ProgressStore.Remove` | src/reader/progress.ts:47-55 | The new slot is `RemovedSlot` of the old one. There is no write when the id is absent, and afterwards the id has no record. |
| `AozoraRepository.SummaryRoundTrip` | src/repositories/aozora-repository.ts:32-55 | Every summary, written as JSON, passes `isAozoraSummary`, and `normalizeSummary` gives it back unchanged. |
| `AozoraRepository.NormalizeKeepsSummaryFields` | src/repositories/aozora-repository.ts:45-55 | Normalising a valid value keeps exactly its fields among the seven summary keys, unchanged, and drops all others. |
| `AozoraRepository.ValidSummaries` | src/repositories/aozora-repository.ts:72-74 | Every result is the normalisation of an input item that passed the check, and every such item's normalisation is in the result. A one-item array gives its normalisation exactly when the item passes. |
| `AozoraRepository.ValidSummariesConcat` | src/repositories/aozora-repository.ts:72-74 | Filter-then-map works item by item and keeps the array's order and repetitions: the result for a + b is the result for a followed by the result for b (proof by induction). |
| `AozoraRepository.WithTextFile` | src/repositories/aozora-repository.ts:118 | A summary is kept exactly when it was in the input and has a non-empty text-file URL. A one-item list keeps its item exactly when it has one. |
| `AozoraRepository.WithTextFileConcat` | src/repositories/aozora-repository.ts:118 | The filter keeps order and repetitions: the result for a + b is the result for a followed by the result for b (proof by induction). |
| `AozoraRepository.CacheAll` | src/repositories/aozora-repository.ts:76-78 | Afterwards the cache's keys are the old keys plus the batch's ids. Ids outside the batch keep their entries. A cache whose entries sit under their own ids stays so. |
| `AozoraRepository.CacheAllLastWins` | src/repositories/aozora-repository.ts:76-78 | An id maps to the last item of the batch that carries it (proof by induction). |
| `AozoraRepository.CollapseBlankLinesProperties` | src/repositories/aozora-repository.ts:87 | No run of three line feeds is left, no CR is added, and the first code point is kept. Only line feeds are removed, so every other code point survives in order. A text without such a run is left unchanged. |
| `AozoraRepository.CollapseLeavesNoTriple` | src/repositories/aozora-repository.ts:87 | No run of three line feeds survives; the first code point and the absence of CRs are kept (proof by induction). |
| `AozoraRepository.CollapseKeepsOtherChars` | src/repositories/aozora-repository.ts:87 | Deleting the line feeds from the input and from the output gives the same string (proof by induction). |
| `AozoraRepository.CollapseFixesNoTriple` | src/repositories/aozora-repository.ts:87 | A text without a run of three line feeds is its own collapse (proof by induction). |
| `AozoraRepository.CollapseRun` | src/repositories/aozora-repository.ts:87 | A maximal run of n line feeds becomes two when n is three or more and stays as it is otherwise; the rest is collapsed on its own. |
| `AozoraRepository.NormalizeAozoraTextProperties` | src/repositories/aozora-repository.ts:83-89 | Normalised text has no CR, no run of three line feeds and no surrounding whitespace. It shows exactly the visible characters of the input, in order, and normalising it again changes nothing. |
| `AozoraRepository.NormalizeKeepsVisibleText` | src/repositories/aozora-repository.ts:83-89 | No step of the normaliser adds, drops or moves a visible character. |
| `AozoraRepository.NormalizeFixesNormalText` | src/repositories/aozora-repository.ts:83-89 | A text without CR, without a run of three line feeds and without surrounding whitespace is its own normalisation. |
| `AozoraRepository.NormalizeIsNormal` | src/repositories/aozora-repository.ts:83-89 | Every output of the normaliser is in that normal form. |
| `AozoraRepository.TrimIsNormal` | src/repositories/aozora-repository.ts:88 | Trimming a text without CRs or runs of three line feeds puts it in normal form. |
| `AozoraRepository.Repository.constructor` | src/repositories/aozora-repository.ts:26-27 | Both caches start empty. |
| `AozoraRepository.Repository.FetchSearchItems` | src/repositories/aozora-repository.ts:57-81 | One request with the trimmed query and limit 100. A failed call and a body without an `items` array give their two errors and cache nothing. Otherwise it returns the valid normalised summaries and caches each by id in order. |
| `AozoraRepository.Repository.SearchWorks` | src/repositories/aozora-repository.ts:112-119 | A blank query gives `[]` with no request and no state change. Otherwise one search request is sent and the text cache is untouched. A failed call or a body without an `items` array gives the matching error and leaves the summary cache as it was. A good response gives exactly the valid summaries that have a text-file URL, and caches every valid summary, in order, including those the filter drops. |
| `AozoraRepository.Repository.FetchWorkContentById` | src/repositories/aozora-repository.ts:91-142 | A cached text is answered from the caches with no request. Otherwise: one request; the call and shape errors; the summary cached under the response's id; the empty-text error; the text cached. A returned work is in both caches under its own id. |
| `AozoraRepository.Repository.ListWorks` | src/repositories/aozora-repository.ts:144-146 | No works, no request and no state change. |
| `AozoraRepository.Repository.GetWorkById` | src/repositories/aozora-repository.ts:148-150 | Same as fetching by id. A cache hit is answered unchanged. A miss sends one request. A failed call or a malformed body gives its error and changes neither cache. A good body caches the summary under the response's id, then gives the empty-text error, or caches and returns the text. |
| `Base.BasePage.constructor` | src/hud/pages/base.ts:12-16 | No load function and no bridge. The default container is id 1, "default-container". |
| `Base.BasePage.Init` | src/hud/pages/base.ts:18-21 | Keeps exactly the load function and the bridge handed over. |
| `Base.BasePage.Request` | src/hud/pages/base.ts:10-13 | A page swap is requested exactly when a load function has been handed over, and it names the given page. |
| `Base.BasePage.OnScrollUp` | src/hud/pages/base.ts:23-25 | The default handler changes nothing. |
| `Base.BasePage.OnScrollDown` | src/hud/pages/base.ts:27-29 | The default handler changes nothing. |
| `Base.BasePage.OnClick` | src/hud/pages/base.ts:31-33 | The default handler changes nothing. |
| `Base.BasePage.OnDoubleClick` | src/hud/pages/base.ts:35-37 | The default handler changes nothing. |
| `Base.BasePage.OnListSelect` | src/hud/pages/base.ts:39-41 | The default handler changes nothing. |
| `Base.BasePage.OnAudio` | src/hud/pages/base.ts:43-45 | The default handler changes nothing. |
| `Base.BasePage.AfterRender` | src/hud/pages/base.ts:49 | The default after-render step changes nothing. |
| `SplashPage.SplashText.constructor` | src/hud/pages/splash-text.ts:11-14 | Keeps the splash text and starts with no load function and no bridge. |
| `SplashPage.SplashText.Render` | src/hud/pages/splash-text.ts:16-40 | Three stacked thirds of the screen with distinct ids 1, 2 and 3, named "default-container-item-N". Only the middle one shows the text and captures events. |
| `TestTextPage.TestText.constructor` | src/hud/pages/test-text.ts:10-12 | Both counters start at 0. |
| `TestTextPage.TestText.OnScrollDown` | src/hud/pages/test-text.ts:14-16 | Asks for the test list through the load function, if one was handed over. |
| `TestTextPage.TestText.OnClick` | src/hud/pages/test-text.ts:18-26 | The click count goes up by one. With a bridge, container 1 is patched to "click: N". |
| `TestTextPage.TestText.OnDoubleClick` | src/hud/pages/test-text.ts:28-36 | The double-click count goes up by one. With a bridge, container 2 is patched to "double click: N". |
| `TestTextPage.TestText.Render` | src/hud/pages/test-text.ts:38-62 | Three containers with distinct ids 1, 2 and 3, named "item-N", all showing the idle text. Only the second captures events. |
| `TestListPage.SelectedItem` | src/hud/pages/test-list.ts:18-20 | A missing index selects the first entry. An index outside the list, negative included, selects nothing. |
| `TestListPage.MenuTargets` | src/hud/pages/test-list.ts:24-85 | Ten entries. Exactly entries 1 to 5 open a page, and each opens a different one. |
| `TestListPage.TestList.constructor` | src/hud/pages/test-list.ts:16 | No entries before the first render. |
| `TestListPage.TestList.OnListSelect` | src/hud/pages/test-list.ts:18-21 | Runs the selected entry's action: a page request only for a page-opening entry, and only with a load function. Before a render nothing happens. |
| `TestListPage.TestList.Render` | src/hud/pages/test-list.ts:23-111 | Installs the ten entries. One full-screen list container, id 1, capturing events, whose item names are the entries' names. |
| `TestImagePage.CenteredImage` | src/hud/pages/test-image.ts:22-39 | The image lies inside the screen, and its left/right and top/bottom margins differ by at most one pixel. |
| `TestImagePage.TestImage.constructor` | src/hud/pages/test-image.ts:9-20 | Starts with no load function and no bridge. |
| `TestImagePage.TestImage.Render` | src/hud/pages/test-image.ts:11-39 | One 100 × 100 image container at (238, 94), id 1. |
| `TestImagePage.TestImage.AfterRender` | src/hud/pages/test-image.ts:41-71 | With a bridge and a successful download, exactly one image upload to the default container. Otherwise no call. |
| `TestLayoutPage.LayoutFor` | src/hud/pages/test-layout.ts:21-28 | The two columns and the gap span the width, the right column starts after the gap, and the columns differ by at most one pixel. The left column's two parts span the height. |
| `TestLayoutPage.Prepend` | src/hud/pages/test-layout.ts:152-156 | The new message goes on top, older lines move down by one, and at most `cap` lines are kept. |
| `TestLayoutPage.FeedShowsNewest` | src/hud/pages/test-layout.ts:129-159 | A pane that received messages m1 … mk shows the newest `cap` of them, newest first (proof by induction). |
| `TestLayoutPage.PaneContent` | src/hud/pages/test-layout.ts:64-67 | The placeholder while a pane is empty. Otherwise the pane's lines joined by line feeds, which is the single line when there is one. |
| `TestLayoutPage.TestLayout.constructor` | src/hud/pages/test-layout.ts:30-34 | No timer, tick 0, empty panes, capture on the left. |
| `TestLayoutPage.LayoutDescription` | src/hud/pages/test-layout.ts:36-87 | Three containers with distinct ids 101, 102 and 103. The panes show their `PaneContent`. Exactly one pane, the active one, captures events. The image sits above the left pane and the right pane to the right of the gap, all inside the screen. |
| `TestLayoutPage.TestLayout.ChatUpdates` | src/hud/pages/test-layout.ts:161-175 | One upgrade per text container of the render, with the same ids in the same order. A pane with lines is patched with exactly what a fresh render shows; an empty pane is cleared instead of showing its placeholder. |
| `TestLayoutPage.TestLayout.PushNextMessages` | src/hud/pages/test-layout.ts:129-159 | The tick goes up by one, each pane gets its new message on top, and the panes are cut to 5 and 12 lines. With a bridge both panes are sent. |
| `TestLayoutPage.TestLayout.AfterRender` | src/hud/pages/test-layout.ts:89-92 | The image tile is uploaded. A failed download with a bridge stops the step with nothing changed. Otherwise the feed restarts: one push and a new timer id. |
| `TestLayoutPage.TestLayout.OnDoubleClick` | src/hud/pages/test-layout.ts:94-97 | Stops the feed, then asks for the test list. |
| `TestLayoutPage.TestLayout.OnClick` | src/hud/pages/test-layout.ts:99-112 | Without a bridge nothing happens. Otherwise the capture flips, the screen is rebuilt, the image is re-sent and, if that succeeded, both panes are patched. |
| `TestAudioPage.Sample` | src/hud/pages/test-audio.ts:156-159 | A little-endian signed 16-bit sample in [-32768, 32768) that agrees with the raw bytes modulo 2^16. |
| `TestAudioPage.Samples` | src/hud/pages/test-audio.ts:151-161 | One sample per whole byte pair. An odd last byte is ignored. |
| `TestAudioPage.HighestReached` | src/hud/pages/test-audio.ts:163-165 | The highest level up to k that the frame's root-mean-square (RMS) value reaches, and none above it. |
| `TestAudioPage.VolumePercent` | src/hud/pages/test-audio.ts:163-165 | The volume is a percentage, capped at 100. |
| `TestAudioPage.VolumeMonotone` | src/hud/pages/test-audio.ts:150-166 | A frame with a larger sum of squares never reads a lower volume. |
| `TestAudioPage.SilenceReadsZero` | src/hud/pages/test-audio.ts:150-166 | A frame of zero bytes reads volume 0. |
| `TestAudioPage.SquareSum` | src/hud/pages/test-audio.ts:154-161 | The stride-2 loop computes the sum of the squared samples. |
| `TestAudioPage.CalculateVolumePercent` | src/hud/pages/test-audio.ts:150-166 | A frame under one sample reads 0. Otherwise the volume of its samples, at most 100. |
| `TestAudioPage.Smooth` | src/hud/pages/test-audio.ts:52-54 | Rounds 0.75·old + 0.25·new to the nearest integer, halves up. The result lies between the old and the new value. |
| `TestAudioPage.Level` | src/hud/pages/test-audio.ts:107 | The shown level is the volume clamped to 0..100. |
| `TestAudioPage.BarFill` | src/hud/pages/test-audio.ts:108 | The filled cells are the nearest integer to 24 · level / 100, at most 24. |
| `TestAudioPage.BarFillMonotone` | src/hud/pages/test-audio.ts:107-108 | A higher level never fills fewer cells. |
| `TestAudioPage.Bar` | src/hud/pages/test-audio.ts:109-112 | 24 cells: the filled ones heavy, the rest light. |
| `TestAudioPage.ContentLines` | src/hud/pages/test-audio.ts:114-120 | Five lines: the "audio monitor" header, the microphone state, the clamped level, the bar and the "double tap: back" hint. |
| `TestAudioPage.TestAudio.constructor` | src/hud/pages/test-audio.ts:17-19 | Microphone off, volume 0, last drawn at 0. |
| `TestAudioPage.AudioDescription` | src/hud/pages/test-audio.ts:21-40 | One full-screen text container, id 1, capturing events, showing the composed monitor text. |
| `TestAudioPage.TestAudio.SetMicEnabled` | src/hud/pages/test-audio.ts:77-87 | Without a bridge nothing happens. Otherwise one audio-control call, and the flag is the request when the call completes and off when it throws; the value the call resolves to is ignored. |
| `TestAudioPage.TestAudio.UpdateDisplay` | src/hud/pages/test-audio.ts:89-104 | Redraws exactly when forced or at least 120 ms after the last drawing, and then records the time. Otherwise nothing changes. |
| `TestAudioPage.TestAudio.OnAudio` | src/hud/pages/test-audio.ts:47-57 | Frames under 2 bytes change nothing. Otherwise the frame's volume is blended in, the volume stays a percentage, and the display is redrawn if due. The microphone flag never changes, and without a bridge the last drawing time is kept. |
| `TestAudioPage.TestAudio.OnClick` | src/hud/pages/test-audio.ts:59-70 | Flips the microphone, or turns it off if the audio-control call throws, then redraws at once. |
| `TestAudioPage.TestAudio.OnDoubleClick` | src/hud/pages/test-audio.ts:63-75 | With a bridge, one `AudioControl(false)` call turns the microphone off. Without one, the flag is kept. Then it asks for the test list. |
| `TestAudioPage.TestAudio.AfterRender` | src/hud/pages/test-audio.ts:42-45 | Turns the microphone on, then draws at once. |
| `AozoraReader.ClampPageIndex` | src/hud/pages/aozora-reader.ts:86-90 | Always an existing page index. A valid index is kept, and indices below or above the range go to the first or the last page. |
| `AozoraReader.ResumeShowsSavedPage` | src/hud/pages/aozora-reader.ts:17-27 | A reader reopened at the saved page index shows the saved page. |
| `AozoraReader.NonEmpty` | src/hud/pages/aozora-reader.ts:49-50 | Exactly the non-empty lines are kept. A single line is kept exactly when it is not empty. |
| `AozoraReader.NonEmptyConcat` | src/hud/pages/aozora-reader.ts:49-50 | The filter keeps the order and the repetitions of the kept lines (proof by induction). |
| `AozoraReader.BodyContent` | src/hud/pages/aozora-reader.ts:47-51 | The back hint appears only from the second page on, then the page, then the next-page hint, separated by blank lines. |
| `AozoraReader.AozoraReaderPage.constructor` | src/hud/pages/aozora-reader.ts:17-27 | The pages are the work's pagination, and the start index is the clamped initial index. |
| `AozoraReader.ReaderDescription` | src/hud/pages/aozora-reader.ts:45-84 | A header, id 1 "hdr", showing "title  k/N" and not capturing, right above a body, id 2 "body", showing the current page with its hints and capturing; the body reaches the bottom of the screen. |
| `AozoraReader.AozoraReaderPage.PersistProgress` | src/hud/pages/aozora-reader.ts:98-101 | Saves (work id, current index, page count) and notifies the observer once, if there is one. |
| `AozoraReader.AozoraReaderPage.Refresh` | src/hud/pages/aozora-reader.ts:92-96 | Without a bridge nothing is shown or saved. Otherwise the screen is rebuilt, then the progress is saved. |
| `AozoraReader.AozoraReaderPage.OnClick` | src/hud/pages/aozora-reader.ts:29-33 | On the last page nothing changes. Otherwise the index moves one page on. With a bridge, the screen is rebuilt, the slot is the old one with this work's record replaced (other works keep theirs), and the observer is notified once if there is one. |
| `AozoraReader.AozoraReaderPage.OnDoubleClick` | src/hud/pages/aozora-reader.ts:35-39 | On the first page nothing changes. Otherwise the index moves one page back. With a bridge, the screen is rebuilt, the slot is the old one with this work's record replaced (other works keep theirs), and the observer is notified once if there is one. |
| `AozoraReader.AozoraReaderPage.AfterRender` | src/hud/pages/aozora-reader.ts:41-43 | The shown page stays, and it is saved as the work's progress; other works keep their records. |
| `PageManager.Route` | src/hud/page-manager.ts:24-48 | For each handler, the exact events that reach it. List beats text, text beats system, system beats audio. Other text or system event types reach nothing, and an untyped system event is a click. |
| `PageManager.MakePage` | src/hud/pages/test-list.ts:24-85 | A fresh, valid, unattached page of the kind the request names, in the initial state of that kind. |
| `PageManager.PageManager.constructor` | src/hud/page-manager.ts:13-15 | Keeps the bridge. No page yet. |
| `PageManager.PageManager.RenderPage` | src/hud/page-manager.ts:51 | The description is the page's own render in its state before the call (`RenderOf`), and it is well formed. Only the test list changes state, installing its menu. |
| `PageManager.PageManager.AfterRenderPage` | src/hud/page-manager.ts:57 | The page's after-render step ran (`AfterRendered`): the image upload, the layout feed's first push and timer, the microphone turned on, or the reader's progress saved, with exactly the bridge calls of that step. No listener is registered. |
| `PageManager.PageManager.AfterRenderLayout` | src/hud/pages/test-layout.ts:89-92 | The layout test's after-render step, stated against the panes, tick and timer it had before. |
| `PageManager.PageManager.Attach` | src/hud/page-manager.ts:60-62 | The page becomes current and holds this manager's bridge and load function. |
| `PageManager.PageManager.Present` | src/hud/page-manager.ts:49-56 | The page becomes current, and exactly one call is made: the start-up or rebuild call carrying its render. |
| `PageManager.PageManager.Show` | src/hud/page-manager.ts:60-65 | The page becomes current, the first call carries its render, and the calls after it are those of its after-render step. |
| `PageManager.PageManager.Init` | src/hud/page-manager.ts:17-58 | Two listener registrations, then the start-up call carrying the page's render, then exactly the calls of its after-render step, with no further registration. |
| `PageManager.PageManager.Load` | src/hud/page-manager.ts:60-66 | The page becomes current, the first call rebuilds the screen with its render, then its after-render step runs. No listener is registered. |
| `PageManager.PageManager.HandleClick` | src/hud/page-manager.ts:41 | The page's own click handler ran (`Clicked`): the text test's count and patch, the layout's capture flip and redraw, the microphone toggle, or the reader's page turn. Other pages change nothing. |
| `PageManager.PageManager.ClickLayout` | src/hud/pages/test-layout.ts:99-112 | The layout test's click: the capture flips, the screen is rebuilt, and with an image the tile and both panes are sent. |
| `PageManager.PageManager.ClickReader` | src/hud/pages/aozora-reader.ts:29-33 | The reader turns to the next page if there is one (`PageTurned`): rebuilt, saved and reported; otherwise nothing changes. |
| `PageManager.PageManager.HandleDoubleClick` | src/hud/page-manager.ts:43 | The page's own double-click handler ran (`DoubleClicked`): the text test's count and patch, the layout or audio test stopping and asking for the list, or the reader's page turn back. Other pages change nothing. |
| `PageManager.PageManager.DoubleClickText` | src/hud/pages/test-text.ts:28-36 | The double-click count goes up by one and container 2 shows it. |
| `PageManager.PageManager.DoubleClickLayout` | src/hud/pages/test-layout.ts:94-97 | The feed stops, nothing is sent, and the test list is requested. |
| `PageManager.PageManager.DoubleClickAudio` | src/hud/pages/test-audio.ts:63-75 | The microphone is turned off with one call, and the test list is requested. |
| `PageManager.PageManager.DoubleClickReader` | src/hud/pages/aozora-reader.ts:35-39 | The reader turns to the previous page if there is one (`PageTurned`): rebuilt, saved and reported; otherwise nothing changes. |
| `PageManager.PageManager.HandleListSelect` | src/hud/page-manager.ts:27 | Only the test list reacts: it requests the page of the selected entry, if that entry opens one and a load function was handed over. |
| `PageManager.PageManager.HandleScrollDown` | src/hud/page-manager.ts:33 | Only the text test reacts: it requests the test list through its load function. |
| `PageManager.PageManager.HandleAudio` | src/hud/page-manager.ts:46 | Only the audio test reacts (`AudioReceived`): the frame's volume is blended in and the monitor redrawn when due. Other pages change nothing. |
| `PageManager.PageManager.HandleEvent` | src/hud/page-manager.ts:26-47 | Exactly the handler the event was routed to ran (`Fired`), with that handler's effect on the page, its calls and its request, and no other. |
| `PageManager.PageManager.FireOnCurrent` | src/hud/page-manager.ts:24-48 | The routed handler of the current page ran (`Fired`). The page stays current, the manager stays valid, and only list select, scroll down and double click can request a page. |
| `PageManager.PageManager.LoadAfterHandler` | src/hud/page-manager.ts:60-66 | Loading the requested page leaves the handler's effect on the old page as it was, and the new page is loaded (`Loaded`). |
| `PageManager.PageManager.LoadRequested` | src/hud/page-manager.ts:60-66 | A page asked for through the load function is built fresh, of the named kind, becomes current, and is loaded (`Loaded`): the rebuild carries its first render and then its after-render step runs. Nothing is registered. |
| `PageManager.PageManager.Dispatch` | src/hud/page-manager.ts:24-48 | With no page nothing happens. Otherwise the handler `Route` picks runs on the current page with exactly its effect (`Fired`), and its calls are logged first. A requested page is then built fresh, of the named kind, and loaded after them. The manager stays valid and no listener is registered. |

## Left out

- HTTP requests, `response.ok` and `response.json()`. A response is an input (`Fetched`), and a failed call or an
  unreadable body is `FetchFailed`.
- `window.localStorage` and `JSON.parse`/`JSON.stringify`. The slot is modelled by what reading it yields (`Slot`).
- A storage slot holding a JSON array is not modelled. `typeof [] === "object"`, so the source would treat it as a
  map.
- Ids that name a property of `Object.prototype` ("toString", "__proto__", …). The progress map is a plain object, so in
  the app such an id can find an inherited property, or a save under it is not kept; the model treats every id as an
  ordinary key.
- Numbers in stored records are integers. Non-integer and non-numeric values are not modelled.
- `fetchAndResizePngToContainer` (fetch, canvas, PNG encoding). Its outcome is `Env.image`, and a failure is `None`.
- `Date.now()` and the `hh:mm:ss` formatting. They are the inputs `Env.now` and `Env.clock`.
- `setInterval`/`clearInterval`. The timer id is the input `Env.timerId`, and a timer firing is a call to
  `PushNextMessages`. The 1200 ms period is not modelled.
- Asynchronous interleaving. Every awaited call completes before the next event. A rejected fire-and-forget
  promise ends its step, as the failed image download does.
- `toUint8Array`: base64 strings and number arrays in the audio payload are not decoded. The payload arrives as
  bytes.
- `TestAudioPage.VolumePercent`: defined by exact real arithmetic. Double-precision rounding of `Math.sqrt` and of
  the division is not modelled, so the model can differ from the app by one percent when the exact value lies on a
  rounding boundary.
- The listener bodies for device status and all `console.log`/`console.warn` output.
- The `borderRdaius` property of the list container.
- `GLASS_SCREEN_WIDTH` and `GLASS_SCREEN_HEIGHT`. The constants module that defines them is not part of this model,
  and the glasses' 576 × 288 display is assumed. The layout geometry is stated for every width and height.
- Strings are sequences of Unicode scalar values, so `Array.from` splitting by code point is exact. Lone surrogates
  cannot be represented.
- `src/main.tsx`, `src/App.tsx`, `src/components/text.tsx`, `src/utils.ts` and `scripts/evenhub-qr.ts`. The reader
  page is created outside the core, so `PageManager.Load` accepts any valid page.
