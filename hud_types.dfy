/**
 * What the HUD pages exchange with the device bridge: the screen size, the
 * render descriptions (fixed-position text, image and list containers),
 * the hardware events, and the bridge itself, modelled as the log of the
 * calls made on it.
 */
module HudTypes {
  import opened Wrappers

  /** The glasses' display, in pixels. */
  const GLASS_SCREEN_WIDTH: int := 576
  const GLASS_SCREEN_HEIGHT: int := 288

  /** `Math.min` on two integers. */
  function Min(a: int, b: int): int {
    if a <= b then a else b
  }

  type Byte = x: int | 0 <= x < 256

  datatype TextContainer = TextContainer(
    xPosition: int, yPosition: int, width: int, height: int,
    borderWidth: int, borderColor: int, paddingLength: int,
    containerID: int, containerName: string, content: string, isEventCapture: int)

  datatype ImageContainer = ImageContainer(
    containerID: int, containerName: string,
    xPosition: int, yPosition: int, width: int, height: int)

  datatype ListItemContainer = ListItemContainer(
    itemCount: int, itemWidth: int, isItemSelectBorderEn: int, itemName: seq<string>)

  datatype ListContainer = ListContainer(
    containerID: int, containerName: string,
    xPosition: int, yPosition: int, width: int, height: int,
    borderWidth: int, borderColor: int, paddingLength: int, isEventCapture: int,
    itemContainer: ListItemContainer)

  /** RebuildPageContainer / CreateStartUpPageContainer payload. */
  datatype RenderDescription = RenderDescription(
    containerTotalNum: int,
    textObject: seq<TextContainer>,
    imageObject: seq<ImageContainer>,
    listObject: seq<ListContainer>)

  function ContainerIds(d: RenderDescription): seq<int> {
    (seq(|d.textObject|, i requires 0 <= i < |d.textObject| => d.textObject[i].containerID))
    + (seq(|d.imageObject|, i requires 0 <= i < |d.imageObject| => d.imageObject[i].containerID))
    + (seq(|d.listObject|, i requires 0 <= i < |d.listObject| => d.listObject[i].containerID))
  }

  /** The two invariants every description keeps: `containerTotalNum`
      counts the containers supplied, and their ids are distinct. */
  predicate WellFormed(d: RenderDescription) {
    var ids := ContainerIds(d);
    && d.containerTotalNum == |ids|
    && forall i, j :: 0 <= i < j < |ids| ==> ids[i] != ids[j]
  }

  /** OsEventTypeList, as far as the manager tells its members apart. */
  datatype OsEventType = ClickEvent | ScrollTopEvent | ScrollBottomEvent | DoubleClickEvent | OtherEvent(code: int)

  datatype ListItemEvent = ListItemEvent(currentSelectItemIndex: Option<int>)
  datatype TextItemEvent = TextItemEvent(eventType: Option<OsEventType>)
  datatype SysItemEvent = SysItemEvent(eventType: Option<OsEventType>)

  /** The audio payload, already as bytes; decoding other encodings is not
      part of this model. */
  datatype AudioEventPayload = AudioEventPayload(audioPcm: seq<Byte>)

  /** One event of the unified hardware-event stream: any of the four
      payloads may be present. */
  datatype EvenHubEvent = EvenHubEvent(
    listEvent: Option<ListItemEvent>,
    textEvent: Option<TextItemEvent>,
    sysEvent: Option<SysItemEvent>,
    audioEvent: Option<AudioEventPayload>)

  /** The calls made on the bridge, listener registrations included. */
  datatype BridgeCall =
    | OnDeviceStatusChanged
    | OnEvenHubEvent
    | CreateStartUpPageContainer(startUp: RenderDescription)
    | RebuildPageContainer(rebuild: RenderDescription)
    | TextContainerUpgrade(containerID: int, content: string)
    | UpdateImageRawData(imageContainerID: int, imageContainerName: string, imageData: seq<Byte>)
    | AudioControl(enabled: bool)
  {
    predicate IsRegistration() {
      OnDeviceStatusChanged? || OnEvenHubEvent?
    }
  }

  /** The device bridge: every call is appended to `calls`. */
  class Bridge {
    var calls: seq<BridgeCall>

    constructor()
      ensures calls == []
    {
      calls := [];
    }

    method Call(c: BridgeCall)
      modifies this
      ensures calls == old(calls) + [c]
    {
      calls := calls + [c];
    }
  }

  /** What the outside world supplies to one step: the clock in
      milliseconds, the wall-clock time as "hh:mm:ss", the outcome of an
      image download (None when it failed), whether the audio-control call
      completed without throwing (a call that resolves to false still counts
      as completed), and the id a new interval timer receives. */
  datatype Env = Env(
    now: int,
    clock: string,
    image: Option<seq<Byte>>,
    audioControlOk: bool,
    timerId: int)
}
