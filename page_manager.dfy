/**
 * The page manager (src/hud/page-manager.ts): it owns the bridge, keeps
 * the page on screen, routes every hardware event to one handler of that
 * page, and swaps pages on request: make the new page current, hand it the
 * load function and the bridge, render it, send the description, then run
 * its after-render step.
 */
module PageManager {
  import opened Wrappers
  import opened HudTypes
  import opened Base
  import opened SplashPage
  import opened TestListPage
  import opened TestTextPage
  import opened TestImagePage
  import opened TestLayoutPage
  import opened TestAudioPage
  import opened AozoraReader
  import opened Text
  import opened Progress

  /** The handlers an event can reach. */
  datatype Handler = ListSelect | ScrollUp | ScrollDown | Click | DoubleClick | AudioFrame

  /** The onEvenHubEvent listener's choice: a list event wins over a text
      event, which wins over a system event, which wins over audio; a text
      or system event of another type reaches no handler, and a system
      event without a type counts as a click. */
  function Route(ev: EvenHubEvent): (h: Option<Handler>)
    ensures h == Some(ListSelect) <==> ev.listEvent.Some?
    ensures h == Some(ScrollUp) <==>
      ev.listEvent.None? && ev.textEvent.Some? && ev.textEvent.value.eventType == Some(ScrollTopEvent)
    ensures h == Some(ScrollDown) <==>
      ev.listEvent.None? && ev.textEvent.Some? && ev.textEvent.value.eventType == Some(ScrollBottomEvent)
    ensures h == Some(Click) <==>
      ev.listEvent.None? && ev.textEvent.None? && ev.sysEvent.Some?
      && (ev.sysEvent.value.eventType == Some(ClickEvent) || ev.sysEvent.value.eventType.None?)
    ensures h == Some(DoubleClick) <==>
      ev.listEvent.None? && ev.textEvent.None? && ev.sysEvent.Some?
      && ev.sysEvent.value.eventType == Some(DoubleClickEvent)
    ensures h == Some(AudioFrame) <==>
      ev.listEvent.None? && ev.textEvent.None? && ev.sysEvent.None? && ev.audioEvent.Some?
  {
    if ev.listEvent.Some? then Some(ListSelect)
    else if ev.textEvent.Some? then
      (match ev.textEvent.value.eventType
       case Some(ScrollTopEvent) => Some(ScrollUp)
       case Some(ScrollBottomEvent) => Some(ScrollDown)
       case _ => None)
    else if ev.sysEvent.Some? then
      (match ev.sysEvent.value.eventType
       case Some(ClickEvent) => Some(Click)
       case None => Some(Click)
       case Some(DoubleClickEvent) => Some(DoubleClick)
       case _ => None)
    else if ev.audioEvent.Some? then Some(AudioFrame)
    else None
  }

  /** Any page the manager can show. */
  datatype Page =
    | Splash(splash: SplashText)
    | List(list: TestList)
    | TextTest(text: TestText)
    | ImageTest(image: TestImage)
    | Layout(layout: TestLayout)
    | Audio(audio: TestAudio)
    | Reader(reader: AozoraReaderPage)
  {
    /** The shared part of the page. */
    function Base(): BasePage {
      match this
      case Splash(s) => s.base
      case List(l) => l.base
      case TextTest(t) => t.base
      case ImageTest(i) => i.base
      case Layout(y) => y.base
      case Audio(a) => a.base
      case Reader(r) => r.base
    }

    /** The objects the page's handlers may change: the page itself, and
        the progress store for the reader. */
    function Objects(): (os: set<object>)
      ensures forall o :: o in os ==> !(o is PageManager) && !(o is Bridge) && !(o is BasePage)
    {
      match this
      case Splash(s) => {s}
      case List(l) => {l}
      case TextTest(t) => {t}
      case ImageTest(i) => {i}
      case Layout(y) => {y}
      case Audio(a) => {a}
      case Reader(r) => {r, r.store}
    }

    function Repr(): set<object> {
      Objects() + {Base()}
    }

    predicate Valid()
      reads Repr()
    {
      match this
      case Layout(y) => y.Valid()
      case Audio(a) => a.Valid()
      case Reader(r) => r.Valid()
      case _ => true
    }

    /** The fields of the page that render, afterRender and the handlers
        change, as a value. */
    function State(): (st: PageState)
      reads Objects()
      ensures Fits(st)
    {
      match this
      case Splash(_) => NoState
      case List(l) => ListState(l.items)
      case TextTest(t) => TextState(t.clickNum, t.doubleClickNum)
      case ImageTest(_) => NoState
      case Layout(y) => LayoutState(y.timerId, y.tick, y.leftLines, y.rightLines, y.activeCapture)
      case Audio(a) => AudioState(a.micEnabled, a.smoothedVolume, a.lastDrawAt)
      case Reader(r) => ReaderState(r.currentPageIndex, r.store.slot, r.notifications)
    }

    /** `st` has the shape of this page's state. */
    predicate Fits(st: PageState) {
      match this
      case Splash(_) => st.NoState?
      case List(_) => st.ListState?
      case TextTest(_) => st.TextState?
      case ImageTest(_) => st.NoState?
      case Layout(_) => st.LayoutState?
      case Audio(_) => st.AudioState?
      case Reader(_) => st.ReaderState?
    }
  }

  /** The mutable fields of each kind of page. */
  datatype PageState =
    | NoState
    | ListState(items: seq<ListItem>)
    | TextState(clickNum: nat, doubleClickNum: nat)
    | LayoutState(timerId: Option<int>, tick: nat, leftLines: seq<string>, rightLines: seq<string>, activeCapture: Side)
    | AudioState(micEnabled: bool, smoothedVolume: int, lastDrawAt: int)
    | ReaderState(currentPageIndex: int, slot: Slot, notifications: nat)

  /** The state a page is constructed in, for each request. */
  function InitialState(req: PageRequest): PageState {
    match req
    case SplashRequest(_) => NoState
    case TestListRequest => ListState([])
    case TestTextRequest => TextState(0, 0)
    case TestImageRequest => NoState
    case TestLayoutRequest => LayoutState(None, 0, [], [], Left)
    case TestAudioRequest => AudioState(false, 0, 0)
  }

  /** What render changes: the test list installs its menu. */
  function Rendering(st: PageState): PageState {
    if st.ListState? then ListState(MENU_ITEMS) else st
  }

  /** What `render()` of page `p` returns when the page is in state `st`. */
  function RenderOf(p: Page, st: PageState): RenderDescription
    requires p.Fits(st)
  {
    match p
    case Splash(s) =>
      RenderDescription(3,
        [SplashContainer(s.base, s.splashText, 0), SplashContainer(s.base, s.splashText, 1), SplashContainer(s.base, s.splashText, 2)],
        [], [])
    case List(l) =>
      RenderDescription(1, [], [],
        [ListContainer(l.base.defaultContainerId, l.base.defaultContainerName,
           0, 0, GLASS_SCREEN_WIDTH, GLASS_SCREEN_HEIGHT, 1, 13, 5, 1,
           ListItemContainer(1, GLASS_SCREEN_WIDTH - 14, 1, ItemNames(MENU_ITEMS)))])
    case TextTest(_) =>
      RenderDescription(3, [TestTextContainer(0), TestTextContainer(1), TestTextContainer(2)], [], [])
    case ImageTest(i) =>
      RenderDescription(1, [], [CenteredImage(i.base, GLASS_SCREEN_WIDTH, GLASS_SCREEN_HEIGHT, IMAGE_SIDE)], [])
    case Layout(_) => LayoutDescription(st.leftLines, st.rightLines, st.activeCapture)
    case Audio(_) => AudioDescription(st.micEnabled, st.smoothedVolume)
    case Reader(r) => ReaderDescription(r.work.summary.title, r.pages, st.currentPageIndex)
  }

  /** The effect of `afterRender()` on page `p`, attached to a bridge and
      previously in state `st`: the page's state now and the bridge calls
      made, in order. */
  predicate AfterRendered(p: Page, st: PageState, env: Env, calls: seq<BridgeCall>)
    requires p.Fits(st)
    reads p.Repr()
  {
    match p
    case ImageTest(i) =>
      calls == (if env.image.Some?
                then [UpdateImageRawData(i.base.defaultContainerId, i.base.defaultContainerName, env.image.value)]
                else [])
    case Layout(y) =>
      if env.image.None? then p.State() == st && calls == []
      else
        && y.tick == st.tick + 1 && y.timerId == Some(env.timerId) && y.activeCapture == st.activeCapture
        && y.leftLines == Prepend(st.leftLines, LeftMessage(env.clock, y.tick), LEFT_LINES_KEPT)
        && y.rightLines == Prepend(st.rightLines, RightMessage(env.clock, y.tick), RIGHT_LINES_KEPT)
        && calls == [UpdateImageRawData(IMAGE_CONTAINER_ID, IMAGE_CONTAINER_NAME, env.image.value)] + y.ChatUpdates()
    case Audio(a) =>
      && a.micEnabled == env.audioControlOk && a.smoothedVolume == st.smoothedVolume && a.lastDrawAt == env.now
      && calls == [AudioControl(true), TextContainerUpgrade(AUDIO_CONTAINER_ID, ComposeContent(a.micEnabled, a.smoothedVolume))]
    case Reader(r) =>
      && r.currentPageIndex == st.currentPageIndex
      && r.store.slot == SavedSlot(st.slot, r.work.summary.id, r.currentPageIndex, |r.pages|, env.now)
      && r.notifications == st.notifications + (if r.hasObserver then 1 else 0)
      && calls == []
    case _ => p.State() == st && calls == []
  }

  /** A freshly constructed page `p` for request `req` was loaded: the
      screen was rebuilt with its first render, then its afterRender ran. */
  predicate Loaded(p: Page, req: PageRequest, env: Env, calls: seq<BridgeCall>)
    requires Builds(req, p)
    reads p.Repr()
  {
    && |calls| >= 1
    && calls[0] == RebuildPageContainer(RenderOf(p, InitialState(req)))
    && AfterRendered(p, Rendering(InitialState(req)), env, calls[1..])
  }

  /** The reader moved to page `target` if there is one: rebuilt, saved and
      reported; otherwise nothing changed. */
  predicate PageTurned(r: AozoraReaderPage, index: int, slot: Slot, notifications: nat, target: int, env: Env, calls: seq<BridgeCall>)
    reads r, r.store
  {
    if 0 <= target < |r.pages| then
      && r.currentPageIndex == target
      && r.store.slot == SavedSlot(slot, r.work.summary.id, target, |r.pages|, env.now)
      && r.notifications == notifications + (if r.hasObserver then 1 else 0)
      && calls == [RebuildPageContainer(r.Render())]
    else
      r.currentPageIndex == index && r.store.slot == slot && r.notifications == notifications && calls == []
  }

  /** Establishes `PageTurned` from the reader's fields, case by case. */
  lemma PageTurnedIntro(r: AozoraReaderPage, index: int, slot: Slot, notifications: nat, target: int, env: Env, calls: seq<BridgeCall>)
    requires 0 <= target < |r.pages| ==>
      && r.currentPageIndex == target
      && r.store.slot == SavedSlot(slot, r.work.summary.id, target, |r.pages|, env.now)
      && r.notifications == notifications + (if r.hasObserver then 1 else 0)
      && calls == [RebuildPageContainer(r.Render())]
    requires !(0 <= target < |r.pages|) ==>
      r.currentPageIndex == index && r.store.slot == slot && r.notifications == notifications && calls == []
    ensures PageTurned(r, index, slot, notifications, target, env, calls)
  {
  }

  /** The effect of `onClick` on page `p`, previously in state `st`. */
  predicate Clicked(p: Page, st: PageState, env: Env, calls: seq<BridgeCall>)
    requires p.Fits(st)
    reads p.Repr()
  {
    match p
    case TextTest(t) =>
      && t.clickNum == st.clickNum + 1 && t.doubleClickNum == st.doubleClickNum
      && calls == [TextContainerUpgrade(1, "click: " + NatToString(t.clickNum))]
    case Layout(y) =>
      && y.activeCapture == (if st.activeCapture == Left then Right else Left)
      && y.timerId == st.timerId && y.tick == st.tick && y.leftLines == st.leftLines && y.rightLines == st.rightLines
      && calls == [RebuildPageContainer(y.Render())]
           + (if env.image.Some?
              then [UpdateImageRawData(IMAGE_CONTAINER_ID, IMAGE_CONTAINER_NAME, env.image.value)] + y.ChatUpdates()
              else [])
    case Audio(a) =>
      && a.micEnabled == (!st.micEnabled && env.audioControlOk)
      && a.smoothedVolume == st.smoothedVolume && a.lastDrawAt == env.now
      && calls == [AudioControl(!st.micEnabled), TextContainerUpgrade(AUDIO_CONTAINER_ID, ComposeContent(a.micEnabled, a.smoothedVolume))]
    case Reader(r) => PageTurned(r, st.currentPageIndex, st.slot, st.notifications, st.currentPageIndex + 1, env, calls)
    case _ => p.State() == st && calls == []
  }

  /** The effect of `onDoubleClick` on page `p`, previously in state `st`,
      and the page it asks for. */
  predicate DoubleClicked(p: Page, st: PageState, env: Env, calls: seq<BridgeCall>, request: Option<PageRequest>)
    requires p.Fits(st)
    reads p.Repr()
  {
    match p
    case TextTest(t) =>
      && t.doubleClickNum == st.doubleClickNum + 1 && t.clickNum == st.clickNum
      && calls == [TextContainerUpgrade(2, "double click: " + NatToString(t.doubleClickNum))]
      && request.None?
    case Layout(y) =>
      && y.timerId.None? && y.tick == st.tick && y.leftLines == st.leftLines && y.rightLines == st.rightLines
      && y.activeCapture == st.activeCapture
      && calls == []
      && request == y.base.Request(TestListRequest)
    case Audio(a) =>
      && !a.micEnabled && a.smoothedVolume == st.smoothedVolume && a.lastDrawAt == st.lastDrawAt
      && calls == [AudioControl(false)]
      && request == a.base.Request(TestListRequest)
    case Reader(r) =>
      PageTurned(r, st.currentPageIndex, st.slot, st.notifications, st.currentPageIndex - 1, env, calls) && request.None?
    case _ => p.State() == st && calls == [] && request.None?
  }

  /** The page `onListSelect` of page `p` asks for. */
  predicate ListSelected(p: Page, e: ListItemEvent, request: Option<PageRequest>)
    reads p.Repr()
  {
    match p
    case List(l) =>
      var item := SelectedItem(l.items, e);
      request == if item.Some? && item.value.action.Load? then l.base.Request(item.value.action.page) else None
    case _ => request.None?
  }

  /** The page `onScrollDown` of page `p` asks for. */
  predicate ScrolledDown(p: Page, request: Option<PageRequest>)
    reads p.Repr()
  {
    match p
    case TextTest(t) => request == t.base.Request(TestListRequest)
    case _ => request.None?
  }

  /** The effect of `onAudio` on page `p`, previously in state `st`. */
  predicate AudioReceived(p: Page, st: PageState, e: AudioEventPayload, env: Env, calls: seq<BridgeCall>)
    requires p.Fits(st)
    reads p.Repr()
  {
    match p
    case Audio(a) =>
      if |e.audioPcm| < 2 then p.State() == st && calls == []
      else
        && a.micEnabled == st.micEnabled
        && a.smoothedVolume == Smooth(st.smoothedVolume, VolumePercent(SquareSumOf(Samples(e.audioPcm)), |e.audioPcm| / 2))
        && if env.now - st.lastDrawAt >= DRAW_INTERVAL_MS
           then a.lastDrawAt == env.now
                && calls == [TextContainerUpgrade(AUDIO_CONTAINER_ID, ComposeContent(a.micEnabled, a.smoothedVolume))]
           else a.lastDrawAt == st.lastDrawAt && calls == []
    case _ => p.State() == st && calls == []
  }

  /** Handler `h` of page `p`, previously in state `st`, ran on event `ev`:
      the page's state now, the bridge calls it made and the page it asks
      for. */
  predicate Fired(p: Page, h: Handler, ev: EvenHubEvent, env: Env, st: PageState, calls: seq<BridgeCall>, request: Option<PageRequest>)
    requires p.Fits(st)
    reads p.Repr()
  {
    match h
    case ListSelect =>
      ev.listEvent.Some? && ListSelected(p, ev.listEvent.value, request) && p.State() == st && calls == []
    case ScrollUp => p.State() == st && calls == [] && request.None?
    case ScrollDown => ScrolledDown(p, request) && p.State() == st && calls == []
    case Click => Clicked(p, st, env, calls) && request.None?
    case DoubleClick => DoubleClicked(p, st, env, calls, request)
    case AudioFrame =>
      ev.audioEvent.Some? && AudioReceived(p, st, ev.audioEvent.value, env, calls) && request.None?
  }

  /** The page a request names, as the handler would construct it. */
  predicate Builds(req: PageRequest, p: Page) {
    match req
    case SplashRequest(t) => p.Splash? && p.splash.splashText == t
    case TestListRequest => p.List?
    case TestTextRequest => p.TextTest?
    case TestImageRequest => p.ImageTest?
    case TestLayoutRequest => p.Layout?
    case TestAudioRequest => p.Audio?
  }

  /** `after` is `before` followed by calls none of which registers a
      listener. */
  predicate ExtendsWithoutRegistration(before: seq<BridgeCall>, after: seq<BridgeCall>) {
    && |before| <= |after|
    && after[..|before|] == before
    && forall i :: |before| <= i < |after| ==> !after[i].IsRegistration()
  }

  lemma ExtendsTransitive(a: seq<BridgeCall>, b: seq<BridgeCall>, c: seq<BridgeCall>)
    requires ExtendsWithoutRegistration(a, b) && ExtendsWithoutRegistration(b, c)
    ensures ExtendsWithoutRegistration(a, c)
  {

  }

  /** Construct the page a request names: a fresh page, not yet
      initialised. */
  method MakePage(req: PageRequest) returns (p: Page)
    ensures Builds(req, p)
    ensures p.State() == InitialState(req)
    ensures fresh(p.Repr())
    ensures p.Valid()
    ensures p.Base().loadPage.None? && p.Base().bridge == null
  {
    match req
    case SplashRequest(t) =>
      var s := new SplashText(t);
      p := Splash(s);
    case TestListRequest =>
      var l := new TestList();
      p := List(l);
    case TestTextRequest =>
      var t := new TestText();
      p := TextTest(t);
    case TestImageRequest =>
      var i := new TestImage();
      p := ImageTest(i);
    case TestLayoutRequest =>
      var y := new TestLayout();
      p := Layout(y);
    case TestAudioRequest =>
      var a := new TestAudio();
      p := Audio(a);
  }

  class PageManager {
    const bridge: Bridge
    var currentPage: Option<Page>

    constructor(bridge: Bridge)
      ensures this.bridge == bridge && currentPage.None?
    {
      this.bridge := bridge;
      currentPage := None;
    }

    /** The page on screen is valid, uses this manager's bridge and loads
        other pages through this manager. */
    predicate Valid()
      reads this, if currentPage.Some? then currentPage.value.Repr() else {}
    {
      currentPage.Some? ==>
        && currentPage.value.Valid()
        && currentPage.value.Base().bridge == bridge
        && currentPage.value.Base().loadPage == Some(Loader(this))
    }

    /** page.render(): the description of the page in its current state;
        only the test list changes, installing its menu. */
    method RenderPage(p: Page) returns (d: RenderDescription)
      requires p.Valid()
      modifies p.Objects()
      ensures d == RenderOf(p, old(p.State()))
      ensures p.State() == Rendering(old(p.State()))
      ensures WellFormed(d)
      ensures p.Valid()
    {
      match p
      case Splash(s) =>
        d := s.Render();
        assert d.textObject == [SplashContainer(s.base, s.splashText, 0), SplashContainer(s.base, s.splashText, 1), SplashContainer(s.base, s.splashText, 2)];
      case List(l) =>
        d := l.Render();
      case TextTest(t) =>
        d := t.Render();
        assert d.textObject == [TestTextContainer(0), TestTextContainer(1), TestTextContainer(2)];
      case ImageTest(i) =>
        d := i.Render();
      case Layout(y) =>
        d := y.Render();
      case Audio(a) =>
        d := a.Render();
      case Reader(r) =>
        d := r.Render();
    }

    /** page.afterRender(), for a page already handed this manager's bridge. */
    method AfterRenderPage(p: Page, env: Env)
      requires p.Valid() && p.Base().bridge == bridge
      modifies bridge, p.Objects()
      ensures p.Valid()
      ensures ExtendsWithoutRegistration(old(bridge.calls), bridge.calls)
      ensures AfterRendered(p, old(p.State()), env, bridge.calls[|old(bridge.calls)|..])
    {
      match p
      case ImageTest(i) =>
        i.AfterRender(env);
      case Layout(y) =>
        AfterRenderLayout(y, env);
      case Audio(a) =>
        a.AfterRender(env);
      case Reader(r) =>
        r.AfterRender(env);
      case _ =>
    }

    /** afterRender of the layout test, within the manager's bridge log. */
    method AfterRenderLayout(y: TestLayout, env: Env)
      requires y.Valid() && y.base.bridge == bridge
      modifies bridge, y
      ensures y.Valid()
      ensures ExtendsWithoutRegistration(old(bridge.calls), bridge.calls)
      ensures AfterRendered(Layout(y), LayoutState(old(y.timerId), old(y.tick), old(y.leftLines), old(y.rightLines), old(y.activeCapture)),
        env, bridge.calls[|old(bridge.calls)|..])
    {
      y.AfterRender(env);
    }

    /** The shared part of init and load: make `p` current and hand it the
        load function and the bridge. */
    method Attach(p: Page)
      requires p.Valid()
      modifies this, p.Base()
      ensures currentPage == Some(p)
      ensures Valid()
    {
      currentPage := Some(p);
      p.Base().Init(Loader(this), bridge);
    }

    /** Attach `p`, render it and hand the description to the bridge: as the
        start-up page when `startup` holds, as a rebuild otherwise. */
    method Present(p: Page, startup: bool) returns (rendered: RenderDescription)
      requires p.Valid()
      modifies this, bridge, p.Repr()
      ensures currentPage == Some(p) && Valid()
      ensures rendered == RenderOf(p, old(p.State()))
      ensures p.State() == Rendering(old(p.State()))
      ensures bridge.calls == old(bridge.calls)
        + [if startup then CreateStartUpPageContainer(rendered) else RebuildPageContainer(rendered)]
    {
      ghost var st := p.State();
      Attach(p);
      assert p.State() == st;
      rendered := RenderPage(p);
      bridge.Call(if startup then CreateStartUpPageContainer(rendered) else RebuildPageContainer(rendered));
    }

    /** The common tail of init and load: present `p`, then run its
        after-render step. */
    method Show(p: Page, env: Env, startup: bool) returns (rendered: RenderDescription)
      requires p.Valid()
      modifies this, bridge, p.Repr()
      ensures currentPage == Some(p) && Valid()
      ensures rendered == RenderOf(p, old(p.State()))
      ensures |bridge.calls| > |old(bridge.calls)|
      ensures bridge.calls[|old(bridge.calls)|]
        == if startup then CreateStartUpPageContainer(rendered) else RebuildPageContainer(rendered)
      ensures AfterRendered(p, Rendering(old(p.State())), env, bridge.calls[|old(bridge.calls)| + 1..])
      ensures ExtendsWithoutRegistration(old(bridge.calls), bridge.calls)
    {
      rendered := Present(p, startup);
      ghost var presented := bridge.calls;
      AfterRenderPage(p, env);
      assert bridge.calls[..|presented|] == presented;
      assert bridge.calls[|old(bridge.calls)|] == presented[|old(bridge.calls)|];
      ExtendsTransitive(old(bridge.calls), presented, bridge.calls);
    }

    /** init: register the two listeners, attach the page, render it as the
        start-up page, then run its after-render step. */
    method Init(p: Page, env: Env) returns (rendered: RenderDescription)
      requires p.Valid()
      modifies this, bridge, p.Repr()
      ensures currentPage == Some(p) && Valid()
      ensures rendered == RenderOf(p, old(p.State()))
      ensures |bridge.calls| >= |old(bridge.calls)| + 3
      ensures bridge.calls[..|old(bridge.calls)| + 3]
        == old(bridge.calls) + [OnDeviceStatusChanged, OnEvenHubEvent, CreateStartUpPageContainer(rendered)]
      ensures AfterRendered(p, Rendering(old(p.State())), env, bridge.calls[|old(bridge.calls)| + 3..])
      ensures ExtendsWithoutRegistration(bridge.calls[..|old(bridge.calls)| + 2], bridge.calls)
    {
      ghost var st := p.State();
      bridge.Call(OnDeviceStatusChanged);
      bridge.Call(OnEvenHubEvent);
      ghost var registered := bridge.calls;
      assert p.State() == st;
      rendered := Show(p, env, true);
      assert bridge.calls[..|registered|] == registered;
      assert bridge.calls[..|old(bridge.calls)| + 3] == registered + [bridge.calls[|registered|]];
    }

    /** load: attach the page, rebuild the screen with its description,
        then run its after-render step; no listener is registered again. */
    method Load(p: Page, env: Env) returns (rendered: RenderDescription)
      requires p.Valid()
      modifies this, bridge, p.Repr()
      ensures currentPage == Some(p) && Valid()
      ensures rendered == RenderOf(p, old(p.State()))
      ensures |bridge.calls| > |old(bridge.calls)|
      ensures bridge.calls[|old(bridge.calls)|] == RebuildPageContainer(rendered)
      ensures AfterRendered(p, Rendering(old(p.State())), env, bridge.calls[|old(bridge.calls)| + 1..])
      ensures ExtendsWithoutRegistration(old(bridge.calls), bridge.calls)
    {
      rendered := Show(p, env, false);
    }

    /** onClick of page `p`: only the text test, the layout test, the audio
        test and the reader override it. */
    method HandleClick(p: Page, e: SysItemEvent, env: Env)
      requires p.Valid() && p.Base().bridge == bridge
      modifies bridge, p.Objects()
      ensures p.Valid()
      ensures ExtendsWithoutRegistration(old(bridge.calls), bridge.calls)
      ensures Clicked(p, old(p.State()), env, bridge.calls[|old(bridge.calls)|..])
    {
      match p {
        case TextTest(t) =>
          t.OnClick(e);
        case Layout(y) =>
          ClickLayout(y, e, env);
        case Audio(a) =>
          a.OnClick(e, env);
        case Reader(r) =>
          ClickReader(r, e, env);
        case _ =>
      }
    }

    /** onClick of the layout test, within the manager's bridge log. */
    method ClickLayout(y: TestLayout, e: SysItemEvent, env: Env)
      requires y.Valid() && y.base.bridge == bridge
      modifies bridge, y
      ensures y.Valid()
      ensures ExtendsWithoutRegistration(old(bridge.calls), bridge.calls)
      ensures Clicked(Layout(y), old(Layout(y).State()), env, bridge.calls[|old(bridge.calls)|..])
    {
      y.OnClick(e, env);
    }

    /** onClick of the reader, within the manager's bridge log. */
    method ClickReader(r: AozoraReaderPage, e: SysItemEvent, env: Env)
      requires r.Valid() && r.base.bridge == bridge
      modifies bridge, r, r.store
      ensures r.Valid()
      ensures ExtendsWithoutRegistration(old(bridge.calls), bridge.calls)
      ensures PageTurned(r, old(r.currentPageIndex), old(r.store.slot), old(r.notifications), old(r.currentPageIndex) + 1,
        env, bridge.calls[|old(bridge.calls)|..])
    {
      ghost var before, i0, s0, n0 := bridge.calls, r.currentPageIndex, r.store.slot, r.notifications;
      r.OnClick(e, env);
      if i0 < |r.pages| - 1 {
        assert bridge.calls[|before|..] == [RebuildPageContainer(r.Render())];
      } else {
        assert bridge.calls[|before|..] == [];
      }
      PageTurnedIntro(r, i0, s0, n0, i0 + 1, env, bridge.calls[|before|..]);
    }

    /** onDoubleClick of page `p`; the layout and audio tests go back to the
        test list. */
    method HandleDoubleClick(p: Page, e: SysItemEvent, env: Env) returns (request: Option<PageRequest>)
      requires p.Valid() && p.Base().bridge == bridge
      modifies bridge, p.Objects()
      ensures p.Valid()
      ensures ExtendsWithoutRegistration(old(bridge.calls), bridge.calls)
      ensures DoubleClicked(p, old(p.State()), env, bridge.calls[|old(bridge.calls)|..], request)
    {
      request := None;
      match p {
        case TextTest(t) =>
          DoubleClickText(t, e, env);
        case Layout(y) =>
          request := DoubleClickLayout(y, e, env);
        case Audio(a) =>
          request := DoubleClickAudio(a, e, env);
        case Reader(r) =>
          DoubleClickReader(r, e, env);
        case _ =>
      }
    }

    /** onDoubleClick of the text test, within the manager's bridge log. */
    method DoubleClickText(t: TestText, e: SysItemEvent, env: Env)
      requires t.base.bridge == bridge
      modifies bridge, t
      ensures ExtendsWithoutRegistration(old(bridge.calls), bridge.calls)
      ensures DoubleClicked(TextTest(t), TextState(old(t.clickNum), old(t.doubleClickNum)), env, bridge.calls[|old(bridge.calls)|..], None)
    {
      t.OnDoubleClick(e);
    }

    /** onDoubleClick of the layout test: stop the feed, back to the list. */
    method DoubleClickLayout(y: TestLayout, e: SysItemEvent, env: Env) returns (request: Option<PageRequest>)
      requires y.Valid() && y.base.bridge == bridge
      modifies y
      ensures y.Valid()
      ensures DoubleClicked(Layout(y), LayoutState(old(y.timerId), old(y.tick), old(y.leftLines), old(y.rightLines), old(y.activeCapture)),
        env, bridge.calls[|old(bridge.calls)|..], request)
    {
      request := y.OnDoubleClick(e);
    }

    /** onDoubleClick of the audio test: turn the microphone off, back to
        the list. */
    method DoubleClickAudio(a: TestAudio, e: SysItemEvent, env: Env) returns (request: Option<PageRequest>)
      requires a.Valid() && a.base.bridge == bridge
      modifies bridge, a
      ensures a.Valid()
      ensures ExtendsWithoutRegistration(old(bridge.calls), bridge.calls)
      ensures DoubleClicked(Audio(a), AudioState(old(a.micEnabled), old(a.smoothedVolume), old(a.lastDrawAt)),
        env, bridge.calls[|old(bridge.calls)|..], request)
    {
      request := a.OnDoubleClick(e, env);
    }

    /** onDoubleClick of the reader, within the manager's bridge log. */
    method DoubleClickReader(r: AozoraReaderPage, e: SysItemEvent, env: Env)
      requires r.Valid() && r.base.bridge == bridge
      modifies bridge, r, r.store
      ensures r.Valid()
      ensures ExtendsWithoutRegistration(old(bridge.calls), bridge.calls)
      ensures PageTurned(r, old(r.currentPageIndex), old(r.store.slot), old(r.notifications), old(r.currentPageIndex) - 1,
        env, bridge.calls[|old(bridge.calls)|..])
    {
      ghost var before, i0, s0, n0 := bridge.calls, r.currentPageIndex, r.store.slot, r.notifications;
      r.OnDoubleClick(e, env);
      if i0 > 0 {
        assert bridge.calls[|before|..] == [RebuildPageContainer(r.Render())];
      } else {
        assert bridge.calls[|before|..] == [];
      }
      PageTurnedIntro(r, i0, s0, n0, i0 - 1, env, bridge.calls[|before|..]);
    }

    /** onListSelect of page `p`: only the test list overrides it. */
    method HandleListSelect(p: Page, e: ListItemEvent) returns (request: Option<PageRequest>)
      ensures ListSelected(p, e, request)
    {
      request := None;
      if p.List? {
        request := p.list.OnListSelect(e);
      }
    }

    /** onScrollDown of page `p`: only the text test overrides it. */
    method HandleScrollDown(p: Page, e: TextItemEvent) returns (request: Option<PageRequest>)
      ensures ScrolledDown(p, request)
    {
      request := None;
      if p.TextTest? {
        request := p.text.OnScrollDown(e);
      }
    }

    /** onAudio of page `p`: only the audio test overrides it. */
    method HandleAudio(p: Page, e: AudioEventPayload, env: Env)
      requires p.Valid() && p.Base().bridge == bridge
      modifies bridge, p.Objects()
      ensures p.Valid()
      ensures ExtendsWithoutRegistration(old(bridge.calls), bridge.calls)
      ensures AudioReceived(p, old(p.State()), e, env, bridge.calls[|old(bridge.calls)|..])
    {
      if p.Audio? {
        p.audio.OnAudio(e, env);
      }
    }

    /** Run handler `h` of page `p` on the payload `Route` chose it for. */
    method HandleEvent(p: Page, h: Handler, ev: EvenHubEvent, env: Env) returns (request: Option<PageRequest>)
      requires Route(ev) == Some(h)
      requires p.Valid() && p.Base().bridge == bridge
      modifies bridge, p.Objects()
      ensures p.Valid()
      ensures ExtendsWithoutRegistration(old(bridge.calls), bridge.calls)
      ensures Fired(p, h, ev, env, old(p.State()), bridge.calls[|old(bridge.calls)|..], request)
    {
      request := None;
      match h
      case ListSelect =>
        request := HandleListSelect(p, ev.listEvent.value);
      case ScrollUp =>
      case ScrollDown =>
        request := HandleScrollDown(p, ev.textEvent.value);
      case Click =>
        HandleClick(p, ev.sysEvent.value, env);
      case DoubleClick =>
        request := HandleDoubleClick(p, ev.sysEvent.value, env);
      case AudioFrame =>
        HandleAudio(p, ev.audioEvent.value, env);
    }

    /** The onEvenHubEvent listener: route the event to the current page
        (nothing happens before a page is attached); when the handler asks
        for another page, construct it and load it. `handled` is what the
        handler sent to the bridge. */
    method Dispatch(ev: EvenHubEvent, env: Env) returns (fired: Option<Handler>, loaded: Option<PageRequest>, ghost handled: seq<BridgeCall>)
      requires Valid()
      modifies this, bridge, if currentPage.Some? then currentPage.value.Repr() else {}
      ensures Valid()
      ensures old(currentPage).None? ==> fired.None? && loaded.None? && unchanged(this) && bridge.calls == old(bridge.calls)
      ensures old(currentPage).Some? ==> fired == Route(ev)
      ensures fired.None? ==> loaded.None? && handled == []
      ensures |old(bridge.calls)| + |handled| <= |bridge.calls|
      ensures bridge.calls[..|old(bridge.calls)| + |handled|] == old(bridge.calls) + handled
      ensures old(currentPage).Some? && fired.Some? ==>
        Fired(old(currentPage).value, fired.value, ev, env, old(currentPage.value.State()), handled, loaded)
      ensures loaded.None? ==> currentPage == old(currentPage) && bridge.calls == old(bridge.calls) + handled
      ensures loaded.Some? ==>
        && currentPage.Some? && Builds(loaded.value, currentPage.value) && fresh(currentPage.value.Repr())
        && Loaded(currentPage.value, loaded.value, env, bridge.calls[|old(bridge.calls)| + |handled|..])
      ensures ExtendsWithoutRegistration(old(bridge.calls), bridge.calls)
    {
      fired, loaded, handled := None, None, [];
      if currentPage.None? {
        return;
      }
      fired := Route(ev);
      if fired.None? {
        return;
      }
      loaded := FireOnCurrent(fired.value, ev, env);
      handled := bridge.calls[|old(bridge.calls)|..];
      assert bridge.calls == old(bridge.calls) + handled;
      if loaded.Some? {
        ghost var afterHandler := bridge.calls;
        LoadAfterHandler(loaded.value, env, old(currentPage.value), fired.value, ev, old(currentPage.value.State()), handled);
        ExtendsTransitive(old(bridge.calls), afterHandler, bridge.calls);
      }
    }

    /** Run handler `h` of the current page; the page stays current and
        the manager stays valid. */
    method FireOnCurrent(h: Handler, ev: EvenHubEvent, env: Env) returns (request: Option<PageRequest>)
      requires Route(ev) == Some(h)
      requires Valid() && currentPage.Some?
      modifies bridge, currentPage.value.Objects()
      ensures Valid()
      ensures ExtendsWithoutRegistration(old(bridge.calls), bridge.calls)
      ensures Fired(currentPage.value, h, ev, env, old(currentPage.value.State()), bridge.calls[|old(bridge.calls)|..], request)
      ensures request.Some? ==> h == ListSelect || h == ScrollDown || h == DoubleClick
    {
      request := HandleEvent(currentPage.value, h, ev, env);
    }

    /** Load the page handler `h` of page `p` asked for; what the handler
        did to `p` stays as it was. */
    method LoadAfterHandler(req: PageRequest, env: Env, ghost p: Page, ghost h: Handler, ghost ev: EvenHubEvent,
                            ghost st: PageState, ghost calls: seq<BridgeCall>)
      requires p.Fits(st) && Fired(p, h, ev, env, st, calls, Some(req))
      modifies this, bridge
      ensures Fired(p, h, ev, env, st, calls, Some(req))
      ensures currentPage.Some? && Builds(req, currentPage.value) && fresh(currentPage.value.Repr())
      ensures Valid()
      ensures ExtendsWithoutRegistration(old(bridge.calls), bridge.calls)
      ensures Loaded(currentPage.value, req, env, bridge.calls[|old(bridge.calls)|..])
    {
      LoadRequested(req, env);
    }

    /** `this.loadPage?.(new Page())` inside a handler: construct the page
        the request names and load it. */
    method LoadRequested(req: PageRequest, env: Env)
      modifies this, bridge
      ensures currentPage.Some? && Builds(req, currentPage.value) && fresh(currentPage.value.Repr())
      ensures Valid()
      ensures ExtendsWithoutRegistration(old(bridge.calls), bridge.calls)
      ensures Loaded(currentPage.value, req, env, bridge.calls[|old(bridge.calls)|..])
    {
      var next := MakePage(req);
      var _ := Load(next, env);
    }
  }
}
