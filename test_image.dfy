/**
 * The image test screen (src/hud/pages/test-image.ts): one image container
 * centred on the screen, filled after rendering with a downloaded picture.
 * The download and the canvas resize are outside the model; their outcome
 * arrives as `Env.image`.
 */
module TestImagePage {
  import opened Wrappers
  import opened HudTypes
  import opened Base

  /** IMAGE_WIDTH and IMAGE_HEIGHT: 100, or less on a smaller screen. */
  const IMAGE_SIDE: int := Min(100, Min(GLASS_SCREEN_WIDTH, GLASS_SCREEN_HEIGHT))

  /** The one image container of `render`, for a screen of width `w` and
      height `h` and an image side `side`. */
  function CenteredImage(base: BasePage, w: int, h: int, side: int): (c: ImageContainer)
    requires 0 <= side <= w && side <= h
    ensures c.containerID == base.defaultContainerId && c.containerName == base.defaultContainerName
    ensures c.width == side && c.height == side
    // centred: the margins on either side differ by at most one pixel
    ensures 0 <= c.xPosition && c.xPosition + c.width <= w
    ensures 0 <= (w - (c.xPosition + c.width)) - c.xPosition <= 1
    ensures 0 <= c.yPosition && c.yPosition + c.height <= h
    ensures 0 <= (h - (c.yPosition + c.height)) - c.yPosition <= 1
  {
    ImageContainer(base.defaultContainerId, base.defaultContainerName, (w - side) / 2, (h - side) / 2, side, side)
  }

  class TestImage {
    const base: BasePage

    constructor()
      ensures fresh(base) && base.loadPage.None? && base.bridge == null
    {
      base := new BasePage();
    }

    /** render: a single image container, 100 by 100, centred. */
    function Render(): (d: RenderDescription)
      reads this
      ensures WellFormed(d)
      ensures d.containerTotalNum == 1 && d.textObject == [] && d.listObject == []
      ensures |d.imageObject| == 1
      ensures d.imageObject[0] == CenteredImage(base, GLASS_SCREEN_WIDTH, GLASS_SCREEN_HEIGHT, IMAGE_SIDE)
      ensures d.imageObject[0].width == 100 && d.imageObject[0].height == 100
      ensures d.imageObject[0].xPosition == 238 && d.imageObject[0].yPosition == 94
    {
      RenderDescription(1, [], [CenteredImage(base, GLASS_SCREEN_WIDTH, GLASS_SCREEN_HEIGHT, IMAGE_SIDE)], [])
    }

    /** afterRender (sendTestImage): without a bridge nothing happens; when
        the download fails nothing is sent; otherwise the bytes go to the
        default container. */
    method AfterRender(env: Env)
      modifies base.bridge
      ensures base.bridge != null ==>
        base.bridge.calls == old(base.bridge.calls)
          + (if env.image.Some?
             then [UpdateImageRawData(base.defaultContainerId, base.defaultContainerName, env.image.value)]
             else [])
    {
      if base.bridge == null {
        return;
      }
      if env.image.None? {
        return;
      }
      base.bridge.Call(UpdateImageRawData(base.defaultContainerId, base.defaultContainerName, env.image.value));
    }
  }
}
