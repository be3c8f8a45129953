/**
 * The splash screen (src/hud/pages/splash-text.ts): three stacked text
 * containers, the middle one showing the splash text and capturing events.
 */
module SplashPage {
  import opened HudTypes
  import opened Base
  import opened Text

  /** The container the splash loop builds for position `idx` (0, 1, 2). */
  function SplashContainer(base: BasePage, splashText: string, idx: nat): TextContainer {
    TextContainer(
      20, idx * (GLASS_SCREEN_HEIGHT / 3), GLASS_SCREEN_WIDTH - 40, GLASS_SCREEN_HEIGHT / 3,
      0, 5, 2,
      idx + 1, base.defaultContainerName + "-item-" + NatToString(idx + 1),
      if idx == 1 then splashText else "",
      if idx == 1 then 1 else 0)
  }

  class SplashText {
    const base: BasePage
    const splashText: string

    constructor(splashText: string)
      ensures this.splashText == splashText
      ensures fresh(base) && base.loadPage.None? && base.bridge == null
    {
      this.splashText := splashText;
      base := new BasePage();
    }

    /** render: `[1, 2, 3].forEach((id, idx) => push(...))`. Ids 1, 2, 3 in
        order; only the middle container carries the text and captures
        events; names are "default-container-item-1" to "-3". */
    method Render() returns (d: RenderDescription)
      ensures WellFormed(d)
      ensures d.containerTotalNum == 3 && |d.textObject| == 3
      ensures d.imageObject == [] && d.listObject == []
      ensures forall i :: 0 <= i < 3 ==>
        && d.textObject[i].containerID == i + 1
        && d.textObject[i].containerName == "default-container-item-" + NatToString(i + 1)
        && d.textObject[i].content == (if i == 1 then splashText else "")
        && d.textObject[i].isEventCapture == (if i == 1 then 1 else 0)
        && d.textObject[i].yPosition == i * (GLASS_SCREEN_HEIGHT / 3)
      ensures forall i :: 0 <= i < 3 ==> d.textObject[i] == SplashContainer(base, splashText, i)
    {
      var textContainers: seq<TextContainer> := [];
      for idx := 0 to 3
        invariant |textContainers| == idx
        invariant forall i :: 0 <= i < idx ==> textContainers[i] == SplashContainer(base, splashText, i)
      {
        textContainers := textContainers + [SplashContainer(base, splashText, idx)];
      }
      d := RenderDescription(3, textContainers, [], []);
      assert ContainerIds(d) == [1, 2, 3];
    }
  }
}
