/**
 * The main window's bookkeeping: the camera list in the combo box, the
 * capture thread's running flag, the detection switch, the two hand-off
 * queues and the path of a frame from the camera to the widget. Qt, the
 * thread bodies and the network are left to the modules this one uses.
 */
module Window {
  import opened Wrappers
  import opened PyJson
  import opened Frames
  import opened LatestValue
  import opened CameraDevice
  import opened DetectionOverlay
  import opened Render
  import opened RtcSender

  // ---------------------------------------------------------------------------
  // The camera list

  /** A combo-box entry: its text and its item data, the device index (-1 for "close"). */
  datatype Item = Item(text: string, data: int)

  /** A device as `Camera.devices()` lists it. */
  datatype Device = Device(index: int, name: Option<string>)

  const CloseItem := Item("close", -1)

  /** A device's name, or "Camera <index>" when it has none. */
  function DisplayName(d: Device): string
  {
    if d.name.Some? then d.name.value else "Camera " + Decimal(d.index)
  }

  function DeviceItem(d: Device): Item
  {
    Item(DisplayName(d), d.index)
  }

  /** Two unnamed devices with different indices never share a display name. */
  lemma UnnamedDevicesDistinct(a: Device, b: Device)
    requires a.name.None? && b.name.None? && a.index != b.index
    ensures DisplayName(a) != DisplayName(b)
  {
    if DisplayName(a) == DisplayName(b) {
      var p := "Camera ";
      assert Decimal(a.index) == DisplayName(a)[|p|..];
      assert Decimal(b.index) == DisplayName(b)[|p|..];
      DecimalInjective(a.index, b.index);
    }
  }

  /** Whether a refresh keeps the current entry on top: there is one, and it is not "close". */
  predicate Keeps(current: Option<Item>)
  {
    current.Some? && current.value.text != "close"
  }

  /** Every device, in order. */
  function Listed(devices: seq<Device>): seq<Item>
  {
    seq(|devices|, i requires 0 <= i < |devices| => DeviceItem(devices[i]))
  }

  /** The devices whose display name differs from `name`, in order. */
  function OtherDevices(devices: seq<Device>, name: string): seq<Item>
  {
    if devices == [] then []
    else
      var last := devices[|devices| - 1];
      OtherDevices(devices[..|devices| - 1], name) + (if DisplayName(last) != name then [DeviceItem(last)] else [])
  }

  /** The entries of the combo box after a refresh, given the entry that was current. */
  function CameraList(current: Option<Item>, devices: seq<Device>): seq<Item>
  {
    if Keeps(current) then [current.value, CloseItem] + OtherDevices(devices, current.value.text)
    else [CloseItem] + Listed(devices)
  }

  /** Filtering by name keeps exactly the listed devices whose name differs. */
  lemma {:induction false} OtherDevicesMembers(devices: seq<Device>, name: string, x: Item)
    ensures x in OtherDevices(devices, name) <==> x in Listed(devices) && x.text != name
    decreases |devices|
  {
    if devices != [] {
      var init := devices[..|devices| - 1];
      OtherDevicesMembers(init, name, x);
      ListedSnoc(devices);
    }
  }

  /** `a` is `b` with some entries left out and the rest kept in their order. */
  predicate Subsequence<T(==)>(a: seq<T>, b: seq<T>)
    decreases |b|
  {
    if a == [] then true
    else if b == [] then false
    else
      || (a[|a| - 1] == b[|b| - 1] && Subsequence(a[..|a| - 1], b[..|b| - 1]))
      || Subsequence(a, b[..|b| - 1])
  }

  /** Filtering by name keeps the devices in the order they are listed. */
  lemma {:induction false} OtherDevicesInOrder(devices: seq<Device>, name: string)
    ensures Subsequence(OtherDevices(devices, name), Listed(devices))
    decreases |devices|
  {
    if devices != [] {
      var init, last := devices[..|devices| - 1], devices[|devices| - 1];
      OtherDevicesInOrder(init, name);
      ListedSnoc(devices);
      var a, b := OtherDevices(devices, name), Listed(devices);
      assert b[..|b| - 1] == Listed(init);
      if DisplayName(last) != name {
        assert a == OtherDevices(init, name) + [DeviceItem(last)];
        assert a[..|a| - 1] == OtherDevices(init, name);
      } else {
        assert a == OtherDevices(init, name);
      }
    }
  }

  lemma ListedSnoc(devices: seq<Device>)
    requires devices != []
    ensures Listed(devices) == Listed(devices[..|devices| - 1]) + [DeviceItem(devices[|devices| - 1])]
  {
  }

  /**
   * A refresh either starts over with "close" and every device, or keeps the
   * current entry first, then "close", then exactly the devices that do not
   * repeat its name, in their order.
   */
  lemma CameraListShape(current: Option<Item>, devices: seq<Device>)
    ensures !Keeps(current) ==>
      var r := CameraList(current, devices);
      |r| == |devices| + 1 && r[0] == CloseItem && forall i :: 0 <= i < |devices| ==> r[i + 1] == DeviceItem(devices[i])
    ensures Keeps(current) ==>
      var r := CameraList(current, devices);
      && |r| >= 2 && r[0] == current.value && r[1] == CloseItem
      && (forall k :: 2 <= k < |r| ==> r[k].text != current.value.text)
      && (forall x :: x in r[2..] <==> x in Listed(devices) && x.text != current.value.text)
      && Subsequence(r[2..], Listed(devices))
  {
    if Keeps(current) {
      var r := CameraList(current, devices);
      var others := OtherDevices(devices, current.value.text);
      assert r[2..] == others;
      OtherDevicesInOrder(devices, current.value.text);
      forall x
        ensures x in r[2..] <==> x in Listed(devices) && x.text != current.value.text
      {
        OtherDevicesMembers(devices, current.value.text, x);
      }
      forall k | 2 <= k < |r|
        ensures r[k].text != current.value.text
      {
        assert r[k] == others[k - 2];
        OtherDevicesMembers(devices, current.value.text, r[k]);
      }
    }
  }

  /** Pressing "Refresh" twice with the same devices gives the same list the second time. */
  lemma RefreshIsStable(current: Option<Item>, devices: seq<Device>)
    ensures CameraList(Some(CameraList(current, devices)[0]), devices) == CameraList(current, devices)
  {
    if !Keeps(current) {
      assert CameraList(current, devices)[0] == CloseItem;
    }
  }

  /** The loops of `updateCameraList` that fill the cleared combo box. */
  method BuildCameraList(current: Option<Item>, devices: seq<Device>) returns (items: seq<Item>)
    ensures items == CameraList(current, devices)
  {
    if !Keeps(current) {
      items := [CloseItem];
      for i := 0 to |devices|
        invariant items == [CloseItem] + Listed(devices[..i])
      {
        items := items + [DeviceItem(devices[i])];
      }
      assert devices[..|devices|] == devices;
    } else {
      var name := current.value.text;
      items := [current.value, CloseItem];
      for i := 0 to |devices|
        invariant items == [current.value, CloseItem] + OtherDevices(devices[..i], name)
      {
        assert devices[..i + 1][..i] == devices[..i];
        if DisplayName(devices[i]) != name {
          items := items + [DeviceItem(devices[i])];
        }
      }
      assert devices[..|devices|] == devices;
    }
  }

  // ---------------------------------------------------------------------------
  // The window

  /** The side effects of the window's handlers, in the order they happen. */
  datatype Step =
    | ThreadStopped(joined: Option<nat>)   // the flag cleared, and the thread joined if one was held
    | CameraClosed
    | CameraOpenTried(index: int)
    | ThreadStarted(serial: nat)
    | WidgetCleared

  /** The frame shown: the captured frame's copy with the overlay's calls drawn on it. */
  function Shown(frame: Image, b: Batch): Image
  {
    frame.(drawn := frame.drawn + b.draws)
  }

  class MainWindow {
    const camera: Camera
    const camWidget: RenderWidget
    const rtcSender: RTCSender
    const camToRtcQueue: SlotQueue<Image>
    const rtcToCamQueue: SlotQueue<Payload>
    /** `readFrameThread`: the serial number of the capture thread held, if any. */
    var readFrameThread: Option<nat>
    var readFrameThreadIsRunning: bool
    var rtcSenderIsRunning: bool
    /** The combo box: its entries and its current index, -1 when nothing is current. */
    var items: seq<Item>
    var currentIndex: int
    /** How many capture threads were started; the next one gets this serial number. */
    var threadsStarted: nat
    ghost var trace: seq<Step>

    /**
     * The parts are each consistent; a thread is held exactly while its
     * running flag is set, and then the camera is open.
     */
    ghost predicate Valid()
      reads this, camera, camera.handles, camWidget, rtcSender
    {
      && camera.Valid() && camWidget.Valid() && rtcSender.Valid()
      && (readFrameThreadIsRunning <==> readFrameThread.Some?)
      && (readFrameThreadIsRunning ==> camera.IsOpened())
      && (readFrameThread.Some? ==> readFrameThread.value < threadsStarted)
      && -1 <= currentIndex < |items|
    }

    /** The entry that is current, if any. */
    function Current(): Option<Item>
      reads this
    {
      if 0 <= currentIndex < |items| then Some(items[currentIndex]) else None
    }

    /** The window as created: no camera open, nothing running, and the camera list filled once. */
    constructor (windowWidth: nat, windowHeight: nat, devices: seq<Device>)
      ensures Valid()
      ensures fresh(camera) && fresh(camWidget) && fresh(rtcSender) && fresh(camToRtcQueue) && fresh(rtcToCamQueue)
      ensures camera.cam == None && !camera.IsOpened()
      ensures rtcSender.topicOffer == OfferTopic(DefaultPrefix) && rtcSender.topicAnswer == AnswerTopic(DefaultPrefix)
      ensures camToRtcQueue.item == None && rtcToCamQueue.item == None
      ensures !readFrameThreadIsRunning && readFrameThread == None && !rtcSenderIsRunning
      ensures items == CameraList(None, devices) && currentIndex == 0
    {
      camera := new Camera(None, false);
      camWidget := new RenderWidget(windowWidth, windowHeight);
      rtcSender := new RTCSender(DefaultPrefix);
      camToRtcQueue := new SlotQueue<Image>();
      rtcToCamQueue := new SlotQueue<Payload>();
      readFrameThread := None;
      readFrameThreadIsRunning := false;
      rtcSenderIsRunning := false;
      items := [];
      currentIndex := -1;
      threadsStarted := 0;
      trace := [];
      new;
      UpdateCameraList(devices);
    }

    /** `updateCameraList`: the list is rebuilt around the current entry, which stays current. */
    method UpdateCameraList(devices: seq<Device>)
      requires -1 <= currentIndex < |items|
      modifies this`items, this`currentIndex
      ensures items == CameraList(old(Current()), devices)
      ensures currentIndex == 0
      ensures Keeps(old(Current())) ==> Current() == old(Current())
    {
      var current := Current();
      items := BuildCameraList(current, devices);
      currentIndex := 0;
      CameraListShape(current, devices);
    }

    /** The user picks an entry; Qt makes it current before it signals. */
    method SetCurrentIndex(index: int)
      requires -1 <= index < |items|
      modifies this`currentIndex
      ensures currentIndex == index
    {
      currentIndex := index;
    }

    /** `stopReadFrameThreadFunction`: clear the flag, then join and drop the thread if one is held. */
    method StopReadFrameThread()
      modifies this`readFrameThreadIsRunning, this`readFrameThread, this`trace
      ensures !readFrameThreadIsRunning && readFrameThread == None
      ensures trace == old(trace) + [ThreadStopped(old(readFrameThread))]
    {
      readFrameThreadIsRunning := false;
      trace := trace + [ThreadStopped(readFrameThread)];
      if readFrameThread.Some? {
        readFrameThread := None;
      }
    }

    /** The "close" entry of `cameraListCurrentChanged`: stop a running capture, close the camera, clear the widget. */
    method CloseChosen()
      requires Valid()
      modifies this`readFrameThreadIsRunning, this`readFrameThread, this`trace, camera, camera.handles
      modifies camWidget`width, camWidget`height, camWidget`currentFormat, camWidget`scaleX, camWidget`scaleY
      modifies camWidget`gl, camWidget`textureY, camWidget`textureU, camWidget`textureV, camWidget`yuvPlanes
      ensures Valid()
      ensures trace == old(trace) + (if old(readFrameThreadIsRunning) then [ThreadStopped(old(readFrameThread))] else [])
                                  + [CameraClosed, WidgetCleared]
      ensures !readFrameThreadIsRunning && camera.cam == None
      ensures camWidget.Held() == [None, None, None] && camWidget.currentFormat == None
    {
      if readFrameThreadIsRunning {
        StopReadFrameThread();
      }
      camera.Close();
      trace := trace + [CameraClosed];
      camWidget.Clear();
      trace := trace + [WidgetCleared];
    }

    /** A device entry of `cameraListCurrentChanged`: stop a running capture, then open, then start a thread only on success. */
    method OpenChosen(index: int, opens: bool)
      requires Valid()
      modifies this`readFrameThreadIsRunning, this`readFrameThread, this`trace, this`threadsStarted, camera, camera.handles
      ensures Valid()
      ensures trace == old(trace) + (if old(readFrameThreadIsRunning) then [ThreadStopped(old(readFrameThread))] else [])
                                  + [CameraOpenTried(index)]
                                  + (if opens then [ThreadStarted(old(threadsStarted))] else [])
      ensures readFrameThreadIsRunning <==> opens
      ensures opens ==> readFrameThread == Some(old(threadsStarted)) && camera.IsOpened() && camera.cam.value.index == index
      ensures !opens ==> camera.cam == None
    {
      if readFrameThreadIsRunning {
        StopReadFrameThread();
      }
      var ok := camera.Open(index, opens);
      trace := trace + [CameraOpenTried(index)];
      if ok {
        readFrameThreadIsRunning := true;
        readFrameThread := Some(threadsStarted);
        trace := trace + [ThreadStarted(threadsStarted)];
        threadsStarted := threadsStarted + 1;
      }
    }

    /**
     * `cameraListCurrentChanged`; `opens` is whether the chosen device opens.
     * With no current entry nothing happens; otherwise the entry's text
     * decides between closing and opening the device its data names.
     */
    method CameraListCurrentChanged(opens: bool)
      requires Valid()
      modifies this`readFrameThreadIsRunning, this`readFrameThread, this`trace, this`threadsStarted
      modifies camera, camera.handles
      modifies camWidget`width, camWidget`height, camWidget`currentFormat, camWidget`scaleX, camWidget`scaleY
      modifies camWidget`gl, camWidget`textureY, camWidget`textureU, camWidget`textureV, camWidget`yuvPlanes
      ensures Valid()
      ensures old(currentIndex) == -1 ==>
        && trace == old(trace) && readFrameThread == old(readFrameThread)
        && readFrameThreadIsRunning == old(readFrameThreadIsRunning) && camera.cam == old(camera.cam)
      ensures old(Current()).Some? && old(Current()).value.text == "close" ==>
        && trace == old(trace) + (if old(readFrameThreadIsRunning) then [ThreadStopped(old(readFrameThread))] else [])
                               + [CameraClosed, WidgetCleared]
        && !readFrameThreadIsRunning && camera.cam == None
        && camWidget.Held() == [None, None, None] && camWidget.currentFormat == None
      ensures old(Current()).Some? && old(Current()).value.text != "close" ==>
        && trace == old(trace) + (if old(readFrameThreadIsRunning) then [ThreadStopped(old(readFrameThread))] else [])
                               + [CameraOpenTried(old(Current()).value.data)]
                               + (if opens then [ThreadStarted(old(threadsStarted))] else [])
        && (readFrameThreadIsRunning <==> opens)
        && (opens ==> readFrameThread == Some(old(threadsStarted)) && camera.IsOpened()
                      && camera.cam.value.index == old(Current()).value.data)
        && (!opens ==> camera.cam == None)
    {
      if currentIndex == -1 {
        return;
      }
      var item := items[currentIndex];
      if item.text == "close" {
        CloseChosen();
      } else {
        OpenChosen(item.data, opens);
      }
    }

    /**
     * `openOrCloseDetection`; `raises` is whether `rtcSender.open` raises.
     * A running sender is closed. Otherwise the sender is opened only with
     * the camera open, and counts as running only if opening did not raise.
     */
    method OpenOrCloseDetection(raises: bool) returns (task: Option<RunTask>)
      requires Valid()
      modifies this`rtcSenderIsRunning, rtcSender`running, rtcSender`pc, rtcSender`closes
      ensures Valid()
      ensures old(rtcSenderIsRunning) ==>
        && !rtcSenderIsRunning && task == None
        && !rtcSender.running && rtcSender.pc == None
        && rtcSender.closes == AfterClose(old(rtcSender.closes), old(rtcSender.pc))
      ensures !old(rtcSenderIsRunning) ==>
        && rtcSender.running == old(rtcSender.running) && rtcSender.pc == old(rtcSender.pc)
        && rtcSender.closes == old(rtcSender.closes)
        && (rtcSenderIsRunning <==> camera.IsOpened() && !raises)
        && (task.Some? <==> rtcSenderIsRunning)
        && (task.Some? ==> fresh(task.value) && task.value.sender == rtcSender && task.value.phase == Scheduled)
    {
      task := None;
      if rtcSenderIsRunning {
        rtcSender.Close();
        rtcSenderIsRunning := false;
        return;
      }
      if !camera.IsOpened() {
        return;
      }
      if !raises {
        var t := rtcSender.Open();
        task := Some(t);
        rtcSenderIsRunning := true;
      }
    }

    /** `readCameraCallBack`: the newest captured frame, taken out of its slot, while the camera is open. */
    method ReadCameraCallBack() returns (r: Option<Image>)
      modifies camToRtcQueue
      ensures camera.IsOpened() ==> r == old(camToRtcQueue.item) && camToRtcQueue.item == None
      ensures !camera.IsOpened() ==> r == None && camToRtcQueue.item == old(camToRtcQueue.item)
    {
      if !camera.IsOpened() {
        return None;
      }
      r := camToRtcQueue.GetNowait();
    }

    /** `readRTCFunc`: a data-channel message replaces whatever message was waiting. */
    method ReadRTCFunc(msg: Payload)
      modifies rtcToCamQueue
      ensures rtcToCamQueue.item == Some(msg)
    {
      PutLatest(rtcToCamQueue, msg);
    }

    /**
     * `onFrameArrived`: the waiting message, if any, is drawn on a copy of
     * the frame, and the copy is handed to the widget as BGR24 with the
     * frame's own width and height, whatever the overlay did. `outcome` is
     * `None` when the frame has fewer than two dimensions and unpacking
     * its shape raises.
     */
    method OnFrameArrived(frame: Image, textWidth: TextWidth) returns (b: Batch, outcome: Option<Outcome>)
      requires Valid()
      modifies rtcToCamQueue
      modifies camWidget`width, camWidget`height, camWidget`currentFormat, camWidget`scaleX, camWidget`scaleY
      modifies camWidget`gl, camWidget`textureY, camWidget`textureU, camWidget`textureV, camWidget`yuvPlanes
      ensures Valid()
      ensures b == Overlay(old(rtcToCamQueue.item), textWidth) && rtcToCamQueue.item == None
      ensures outcome.Some? <==> |frame.shape| >= 2
      ensures |frame.shape| >= 2 && frame.shape[0] > 0 && frame.shape[1] > 0 ==>
        && camWidget.width == frame.shape[1] && camWidget.height == frame.shape[0]
        && camWidget.currentFormat == Some(BGR24)
      ensures |frame.shape| >= 2 && frame.shape[0] > 0 && frame.shape[1] > 0 && outcome == Some(Ok) ==>
        && camWidget.textureY.Some? && camWidget.textureY.value.source == Shown(frame, b)
        && camWidget.textureY.value.upload == UploadBGR && camWidget.textureU == None
    {
      var slot := rtcToCamQueue.GetNowait();
      b := Annotate(slot, textWidth);
      var display := Shown(frame, b);
      if |display.shape| < 2 {
        return b, None;
      }
      var h, w := display.shape[0], display.shape[1];
      var o := camWidget.SetTextureData(NdArray(display), w, h, BGR24);
      outcome := Some(o);
    }

    /** `closeEvent`: stop the capture and close the camera, so no capture handle is left unreleased. */
    method CloseEvent()
      requires Valid()
      modifies this`readFrameThreadIsRunning, this`readFrameThread, this`trace, camera, camera.handles
      ensures Valid()
      ensures !readFrameThreadIsRunning && readFrameThread == None && camera.cam == None
      ensures forall h :: h in camera.handles ==> h.releases == 1
      ensures trace == old(trace) + [ThreadStopped(old(readFrameThread)), CameraClosed]
    {
      StopReadFrameThread();
      camera.Close();
      trace := trace + [CameraClosed];
    }
  }
}
