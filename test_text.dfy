/**
 * The text test screen (src/hud/pages/test-text.ts): click and double-click
 * counters shown by patching containers 1 and 2, scroll-down back to the
 * test list.
 */
module TestTextPage {
  import opened Wrappers
  import opened HudTypes
  import opened Base
  import opened Text

  /** The idle text every container starts with ("waiting for input"). */
  const IDLE_TEXT: string := "操作待機中"

  /** The container the render loop builds for position `idx` (0, 1, 2). */
  function TestTextContainer(idx: nat): TextContainer {
    TextContainer(
      20, idx * (GLASS_SCREEN_HEIGHT / 3), GLASS_SCREEN_WIDTH - 40, GLASS_SCREEN_HEIGHT / 3,
      0, 5, 2,
      idx + 1, "item-" + NatToString(idx + 1), IDLE_TEXT,
      if idx == 1 then 1 else 0)
  }

  class TestText {
    const base: BasePage
    var clickNum: nat
    var doubleClickNum: nat

    constructor()
      ensures clickNum == 0 && doubleClickNum == 0
      ensures fresh(base) && base.loadPage.None? && base.bridge == null
    {
      base := new BasePage();
      clickNum := 0;
      doubleClickNum := 0;
    }

    /** onScrollDown: ask for a new test list. */
    method OnScrollDown(event: TextItemEvent) returns (request: Option<PageRequest>)
      ensures request == base.Request(TestListRequest)
    {
      request := base.Request(TestListRequest);
    }

    /** onClick: count one more click and show the count in container 1. */
    method OnClick(event: SysItemEvent)
      modifies this, base.bridge
      ensures clickNum == old(clickNum) + 1 && doubleClickNum == old(doubleClickNum)
      ensures base.bridge != null ==>
        base.bridge.calls == old(base.bridge.calls) + [TextContainerUpgrade(1, "click: " + NatToString(clickNum))]
    {
      clickNum := clickNum + 1;
      if base.bridge != null {
        base.bridge.Call(TextContainerUpgrade(1, "click: " + NatToString(clickNum)));
      }
    }

    /** onDoubleClick: count one more double click and show it in container 2. */
    method OnDoubleClick(event: SysItemEvent)
      modifies this, base.bridge
      ensures doubleClickNum == old(doubleClickNum) + 1 && clickNum == old(clickNum)
      ensures base.bridge != null ==>
        base.bridge.calls == old(base.bridge.calls) + [TextContainerUpgrade(2, "double click: " + NatToString(doubleClickNum))]
    {
      doubleClickNum := doubleClickNum + 1;
      if base.bridge != null {
        base.bridge.Call(TextContainerUpgrade(2, "double click: " + NatToString(doubleClickNum)));
      }
    }

    /** render: three containers with ids 1, 2, 3, all showing the idle
        text; only the second captures events. */
    method Render() returns (d: RenderDescription)
      ensures WellFormed(d)
      ensures d.containerTotalNum == 3 && |d.textObject| == 3
      ensures d.imageObject == [] && d.listObject == []
      ensures forall i :: 0 <= i < 3 ==>
        && d.textObject[i].containerID == i + 1
        && d.textObject[i].containerName == "item-" + NatToString(i + 1)
        && d.textObject[i].content == IDLE_TEXT
        && d.textObject[i].isEventCapture == (if i == 1 then 1 else 0)
      ensures forall i :: 0 <= i < 3 ==> d.textObject[i] == TestTextContainer(i)
    {
      var textContainers: seq<TextContainer> := [];
      for idx := 0 to 3
        invariant |textContainers| == idx
        invariant forall i :: 0 <= i < idx ==> textContainers[i] == TestTextContainer(i)
      {
        textContainers := textContainers + [TestTextContainer(idx)];
      }
      d := RenderDescription(3, textContainers, [], []);
      assert ContainerIds(d) == [1, 2, 3];
    }
  }
}
