/**
 * The test menu (src/hud/pages/test-list.ts): one full-screen list of ten
 * entries; selecting an entry either only logs or asks for another test
 * page through `loadPage`.
 */
module TestListPage {
  import opened Wrappers
  import opened HudTypes
  import opened Base

  /** What selecting an entry does: log its name, or request a page. */
  datatype ItemAction = LogOnly | Load(page: PageRequest)

  datatype ListItem = ListItem(name: string, action: ItemAction)

  /** The entries `render` installs, in display order. */
  const MENU_ITEMS: seq<ListItem> := [
    ListItem("test1", LogOnly),
    ListItem("splash-text", Load(SplashRequest("loading"))),
    ListItem("test-text", Load(TestTextRequest)),
    ListItem("test-image", Load(TestImageRequest)),
    ListItem("test-layout", Load(TestLayoutRequest)),
    ListItem("test-audio", Load(TestAudioRequest)),
    ListItem("test6", LogOnly),
    ListItem("test7", LogOnly),
    ListItem("test8    ", LogOnly),
    ListItem("test9", LogOnly)
  ]

  function ItemNames(items: seq<ListItem>): (names: seq<string>)
    ensures |names| == |items|
    ensures forall i :: 0 <= i < |items| ==> names[i] == items[i].name
  {
    seq(|items|, i requires 0 <= i < |items| => items[i].name)
  }

  /** The entry `onListSelect` acts on: a missing index means the first
      entry, and an index outside the list (negative included) selects
      nothing. */
  function SelectedItem(items: seq<ListItem>, event: ListItemEvent): (r: Option<ListItem>)
    ensures event.currentSelectItemIndex.None? && |items| > 0 ==> r == Some(items[0])
    ensures event.currentSelectItemIndex.Some? ==>
      (r.Some? <==> 0 <= event.currentSelectItemIndex.value < |items|)
    ensures event.currentSelectItemIndex.Some? && r.Some? ==>
      r.value == items[event.currentSelectItemIndex.value]
    ensures r.Some? ==> r.value in items
  {
    var selectedIndex := if event.currentSelectItemIndex.Some? then event.currentSelectItemIndex.value else 0;
    if 0 <= selectedIndex < |items| then Some(items[selectedIndex]) else None
  }

  /** Exactly the entries at positions 1 to 5 open another page, and each
      opens a different one. */
  lemma MenuTargets()
    ensures |MENU_ITEMS| == 10
    ensures forall i :: 0 <= i < |MENU_ITEMS| ==> (MENU_ITEMS[i].action.Load? <==> 1 <= i <= 5)
    ensures forall i, j :: 1 <= i < j <= 5 ==> MENU_ITEMS[i].action != MENU_ITEMS[j].action
  {
  }

  class TestList {
    const base: BasePage
    var items: seq<ListItem>

    constructor()
      ensures items == []
      ensures fresh(base) && base.loadPage.None? && base.bridge == null
    {
      base := new BasePage();
      items := [];
    }

    /** onListSelect: run the selected entry's action; before the first
        render there are no entries and nothing happens. */
    method OnListSelect(event: ListItemEvent) returns (request: Option<PageRequest>)
      ensures var item := SelectedItem(items, event);
        request == if item.Some? && item.value.action.Load? then base.Request(item.value.action.page) else None
      ensures request.Some? ==> base.loadPage.Some?
      ensures items == [] ==> request == None
    {
      var selectedIndex := if event.currentSelectItemIndex.Some? then event.currentSelectItemIndex.value else 0;
      if 0 <= selectedIndex < |items| {
        match items[selectedIndex].action
        case LogOnly =>
          request := None;
        case Load(page) =>
          request := base.Request(page);
      } else {
        request := None;
      }
    }

    /** render: install the menu entries and describe one list container
        covering the whole screen whose item names are the entries' names. */
    method Render() returns (d: RenderDescription)
      modifies this
      ensures items == MENU_ITEMS
      ensures WellFormed(d)
      ensures d.containerTotalNum == 1 && d.textObject == [] && d.imageObject == []
      ensures |d.listObject| == 1
      ensures var l := d.listObject[0];
        && l.containerID == base.defaultContainerId && l.containerName == base.defaultContainerName
        && l.xPosition == 0 && l.yPosition == 0
        && l.width == GLASS_SCREEN_WIDTH && l.height == GLASS_SCREEN_HEIGHT
        && l.borderWidth == 1 && l.borderColor == 13 && l.paddingLength == 5 && l.isEventCapture == 1
        && l.itemContainer == ListItemContainer(1, GLASS_SCREEN_WIDTH - 14, 1, ItemNames(items))
    {
      items := MENU_ITEMS;
      var list := ListContainer(
        base.defaultContainerId, base.defaultContainerName,
        0, 0, GLASS_SCREEN_WIDTH, GLASS_SCREEN_HEIGHT,
        1, 13, 5, 1,
        ListItemContainer(1, GLASS_SCREEN_WIDTH - 14, 1, ItemNames(items)));
      d := RenderDescription(1, [], [], [list]);
    }
  }
}
