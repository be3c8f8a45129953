/**
 * The part every HUD page shares (src/hud/pages/base.ts): the load function
 * and bridge handed over by `init`, the default container identity, and the
 * default handlers, which do nothing. A concrete page holds one of these as
 * its `base`.
 */
module Base {
  import opened Wrappers
  import opened HudTypes

  /** The page-swap capability `init` hands over: the `load` of the manager
      `owner`. */
  datatype Loader = Loader(owner: object)

  /** A page a handler asks to be loaded through `loadPage`. */
  datatype PageRequest =
    | SplashRequest(splashText: string)
    | TestListRequest
    | TestTextRequest
    | TestImageRequest
    | TestLayoutRequest
    | TestAudioRequest

  class BasePage {
    var loadPage: Option<Loader>
    var bridge: Bridge?
    const defaultContainerId: int := 1
    const defaultContainerName: string := "default-container"

    constructor()
      ensures loadPage == None && bridge == null
    {
      loadPage := None;
      bridge := null;
    }

    /** init: keep exactly the given load function and bridge. */
    method Init(loadPage: Loader, bridge: Bridge)
      modifies this
      ensures this.loadPage == Some(loadPage) && this.bridge == bridge
    {
      this.loadPage := Some(loadPage);
      this.bridge := bridge;
    }

    /** `this.loadPage?.(page)`: the swap is requested only once a load
        function has been handed over. */
    function Request(page: PageRequest): (r: Option<PageRequest>)
      reads this
      ensures r.Some? <==> loadPage.Some?
      ensures r.Some? ==> r.value == page
    {
      if loadPage.Some? then Some(page) else None
    }

    // The default handlers only log, so they change nothing.

    method OnScrollUp(event: TextItemEvent)
      ensures unchanged(this)
    {
    }

    method OnScrollDown(event: TextItemEvent)
      ensures unchanged(this)
    {
    }

    method OnClick(event: SysItemEvent)
      ensures unchanged(this)
    {
    }

    method OnDoubleClick(event: SysItemEvent)
      ensures unchanged(this)
    {
    }

    method OnListSelect(event: ListItemEvent)
      ensures unchanged(this)
    {
    }

    method OnAudio(event: AudioEventPayload)
      ensures unchanged(this)
    {
    }

    method AfterRender()
      ensures unchanged(this)
    {
    }
  }
}
