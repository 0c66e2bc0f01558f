# Oral endoscope client — a verified model of its core

The client shows a live camera picture in an OpenGL widget. It streams the
same frames to a detection server over WebRTC, with MQTT used for signalling.
The detections that come back over a data channel are drawn on top of the
picture. This project models the sequential logic inside that shell and proves
properties of it:

- **the two one-slot hand-off queues and `put_latest`** (`LatestValue`): a producer never blocks, and only the newest item is ever seen;
- **the detection overlay of `onFrameArrived`** (`PyJson`, `Frames`, `DetectionOverlay`, `OverlaySamples`):
  - an already-parsed JSON payload becomes a list of OpenCV drawing calls;
  - the per-entry skip rules follow the code;
  - the whole-batch abort follows the code;
  - Python's own `int()`, `str.lower()` and `str(int)` are written out;
- **the main window's bookkeeping** (`Window`):
  - the camera list built by `updateCameraList`;
  - the capture-thread flag in `cameraListCurrentChanged`, `stopReadFrameThreadFunction` and `closeEvent`;
  - the detection switch `openOrCloseDetection`;
  - the two callbacks handed to the sender;
  - a frame's path to the widget;
- **the render widget** (`Render`):
  - the letterbox scale rule;
  - the buffer checks and texture bookkeeping of `setTextureData`;
  - `clear`;
  - the repaint decision of `paintGL`;
  - a ghost log of texture creations and destructions, which shows that old textures are always destroyed before new ones are created and that none is leaked;
- **the camera wrapper** (`CameraDevice`): every capture handle is released exactly once;
- **the WebRTC sender** (`RtcSender`):
  - the MQTT topic names;
  - `CameraTrack.recv`'s bounded polling with its black-frame fallback;
  - `close` and the `finally` teardown of `_run`, with no peer connection ever closed twice;
  - the steps of `_run`, with the network reduced to the outcome each step observes.

A few behaviours of the code are easy to misread; the model states them as the code has them:

- **Failed reads.** `Camera.read` raises on a failed read; it does not retry. The capture thread that would see the exception is not modelled.
- **Starting detection.** The detection button simply toggles the sender on and off, and the sender's `start` only schedules its task. No error is reported for a second start, and no session state or status callback exists.
- **Malformed detections.** Only a bad `bbox` is skipped with a warning. Any other exception ends the whole batch, and the calls already made stay drawn. Such exceptions come from a non-dict entry, a non-str class name, a confidence that `.2f` cannot format (a non-number, or an int too large for a float), an infinite coordinate, or a coordinate OpenCV refuses.
- **Scale bounds.** A window of width 0 gives a letterbox scale of 0, and a window of height 0 makes `updateAspectRatio` raise ZeroDivisionError.
- **Failed rescale.** `setTextureData` stores the new size and pixel format before it rescales. When the window has height 0, the rescale raises ZeroDivisionError before the old textures are dropped. Switching from RGB to YUV420P in such a window leaves the format set to YUV420P with only the RGB texture held, so the next repaint faults for want of the U and V textures.
- **RGB check.** The RGB/BGR check only looks at the number of dimensions and the channel count, not at `h` and `w`, whatever its error message says.

## Model

| member | source | states |
|---|---|---|
| LatestValue.SlotQueue.constructor | MainWindow.py:54-55 | each hand-off queue is created empty |
| LatestValue.SlotQueue.PutNowait | MainWindow.py:382-384 | raises Full exactly when the slot is taken, and then changes nothing; otherwise the item is stored |
| LatestValue.SlotQueue.GetNowait | MainWindow.py:386 | hands out what the slot held (None for Empty) and leaves it empty |
| LatestValue.PutLatest | MainWindow.py:378-388 | after `put_latest(q, x)` the queue holds exactly `x`, whatever it held before; the loop ends after at most one drop |
| LatestValue.LastPutWins | MainWindow.py:378-388 | after a run of puts with no get in between, only the last item is observable; an empty run changes nothing |
| LatestValue.AfterPutsAppend | MainWindow.py:378-388 | a run of puts splits at any point into two runs |
| LatestValue.PutEach | MainWindow.py:207 | putting items one by one leaves the slot as the run-of-puts specification says |
| PyJson.DigitChar | MainWindow.py:150 | a digit value below ten is written as the digit character of that value |
| PyJson.Digits | MainWindow.py:150 | `str(n)` for a natural number is non-empty, all digits, and has no leading zero |
| PyJson.DigitsRoundTrip | MainWindow.py:150 | reading back the digits of `str(n)` gives `n` |
| PyJson.DecimalSign | MainWindow.py:150 | a printed int starts with '-' exactly when it is negative |
| PyJson.DecimalInjective | MainWindow.py:150 | two different ints never print alike |
| PyJson.Trunc | MainWindow.py:243 | `int()` of a float truncates toward zero: the result lies within one of the value, on the zero side |
| PyJson.TrimStart | MainWindow.py:243 | `int()` strips leading whitespace: the result is a suffix that does not start with whitespace, and every character removed is whitespace |
| PyJson.TrimEnd | MainWindow.py:243 | `int()` strips trailing whitespace: the result is a prefix that does not end with whitespace, and every character removed is whitespace |
| PyJson.NoUnderscoresAppend | MainWindow.py:243 | dropping underscores from two strings joined is dropping them from each and joining |
| PyJson.DropUnderscores | MainWindow.py:243 | the digits of a grouped literal are its characters other than `_`, in their order, and all of them are digits |
| PyJson.ParseInt | MainWindow.py:243 | `int()` of a str yields an int or a ValueError, never an OverflowError |
| PyJson.ParseSigned | MainWindow.py:243 | a stripped literal, with its optional sign, converts to an int or is rejected, never overflowing; what the sign does is stated by ParseSignedOfNegative and ParseSignedOfDigits |
| PyJson.ParseDigits | MainWindow.py:243 | an unsigned literal converts to a non-negative int or is rejected |
| PyJson.DigitsHaveNoDoubleUnderscore | MainWindow.py:243 | a plain digit run satisfies the underscore rule of an int literal |
| PyJson.NoUnderscoresOfDigits | MainWindow.py:243 | a plain digit run has no underscores to drop |
| PyJson.ParseDigitsOfDigits | MainWindow.py:243 | a digit run within the 4300-digit limit converts to its value |
| PyJson.ParseDigitsOfGrouped | MainWindow.py:243 | a grouped literal within the 4300-digit limit converts to the value of its digits, underscores left out |
| PyJson.NoDoubleUnderscoreJoin | MainWindow.py:243 | one `_` between two groups that neither start nor end with `_` keeps the underscore rule |
| PyJson.JoinIsGrouped | MainWindow.py:243 | two digit groups joined by one `_` form a valid literal |
| PyJson.JoinWithoutUnderscore | MainWindow.py:243 | dropping the `_` between two digit groups leaves the groups side by side |
| PyJson.UnderscoreBetweenGroups | MainWindow.py:243 | an underscore between two digit groups does not change the value: the literal converts to the value of the groups written together |
| PyJson.ThousandValue | MainWindow.py:243 | the digits "1000" have the value 1000 |
| PyJson.GroupedThousand | MainWindow.py:243 | `int("1_000")` is 1000 |
| PyJson.TrimOfUnpadded | MainWindow.py:243 | a string with no surrounding whitespace is not changed by stripping |
| PyJson.MinusSplits | MainWindow.py:243 | a literal starting with '-' is negative, with the rest as its digits |
| PyJson.ParseSignedOfNegative | MainWindow.py:243 | a '-' before a digit run negates its value |
| PyJson.ParseSignedOfDigits | MainWindow.py:243 | an unsigned digit run converts to its value |
| PyJson.ParseIntOfDecimal | MainWindow.py:243 | `int(str(n)) == n` for every int within the digit limit |
| PyJson.Lower | MainWindow.py:249 | `lower()` keeps the length and maps every ASCII capital to its small letter, position by position |
| DetectionOverlay.ConvertAll | MainWindow.py:243-246 | `map(int, bbox)` succeeds exactly when every corner converts, and then gives each corner's value; otherwise it stops at the first corner `int()` refuses |
| DetectionOverlay.Emit | MainWindow.py:259-297 | the calls are made in order: all are drawn exactly when OpenCV accepts each one; otherwise the first refused call raises, and the calls before it, each accepted, stay drawn |
| DetectionOverlay.AcceptedDraws | MainWindow.py:259-297 | an accepted entry makes three calls, or four exactly when it has an object id |
| DetectionOverlay.DrawnCalls | MainWindow.py:259-297 | an entry either draws or raises, never skips. It draws completely exactly when its confidence formats with `.2f` (a float, a bool, or an int below 2^1024 - 2^970 in magnitude, past which the conversion to float overflows) and every call is in range, and then it draws exactly its accepted calls. A confidence that does not format raises right after the box. Otherwise the first call OpenCV refuses raises, and the calls before it, all accepted, stay drawn |
| DetectionOverlay.EmitAfterFirst | MainWindow.py:259-297 | once the first call is made, the rest run in order: all are drawn exactly when each is in range, otherwise the drawn part is the prefix before the first refused call |
| DetectionOverlay.ThenAssociative | MainWindow.py:235-306 | chaining entries' contributions is associative |
| DetectionOverlay.DecodeAppend | MainWindow.py:235-306 | decoding a list split in two is decoding the first part, then the second unless the first aborted |
| DetectionOverlay.DecodeSingle | MainWindow.py:235-306 | a one-entry list contributes exactly that entry's result |
| DetectionOverlay.DecodeIsFold | MainWindow.py:235-306 | the loop over `detections` with the overlay's entry step is the batch specification |
| DetectionOverlay.FoldStep | MainWindow.py:235-306 | the rest of the loop from entry `i` is entry `i`'s contribution followed by the rest from `i + 1` |
| DetectionOverlay.SkippedEntryOnlyWarns | MainWindow.py:237-246 | an entry skipped for its bbox draws nothing and ends nothing, later entries are still drawn, and its warning is logged between the earlier and later ones |
| DetectionOverlay.AbortKeepsEarlierDraws | MainWindow.py:235-306 | an entry that raises ends the batch; the calls made by earlier entries, and its own calls before the exception, stay drawn, and no later entry is processed |
| DetectionOverlay.AcceptedDrawsShape | MainWindow.py:248-297 | per accepted entry: a thickness-3 box from (x1,y1) to (x2,y2); a filled black label background from (x1,y1-25); the label at (x1,y1-10); an `ID:` text at (x1,y2+20) exactly when `object_id` is present; red exactly when the lower-cased class name contains "cavity", green otherwise |
| DetectionOverlay.BoxCorners | MainWindow.py:243 | a box of four convertible corners converts to four ints |
| DetectionOverlay.DrawnEntryIsWellFormed | MainWindow.py:235-297 | an entry that draws completely is a dict with a four-element convertible box, a str class name and a confidence `.2f` can format (an int only below the float limit), and it draws its accepted calls, all in range |
| DetectionOverlay.EntryDrawnWhenWellFormed | MainWindow.py:235-297 | conversely, such an entry draws completely whenever OpenCV accepts every call |
| DetectionOverlay.ThenEntry | MainWindow.py:235-297 | one more entry adds its calls, adds its warning, or ends the batch with its partial calls |
| DetectionOverlay.DrawStep | MainWindow.py:235-297 | the loop's invariant is kept over one entry |
| DetectionOverlay.AddEntry | MainWindow.py:235-297 | one entry's step on a running batch gives its specified contribution, and ends the loop exactly when the entry raised |
| DetectionOverlay.DrawEntries | MainWindow.py:235-297 | the `for det in detections` loop, drawing entry by entry and stopping at an exception, produces the batch specification for any entry step |
| DetectionOverlay.DrawDetections | MainWindow.py:235-297 | the loop with the overlay's entry step produces exactly the decoded batch |
| DetectionOverlay.Annotate | MainWindow.py:220-306 | the `try` block produces the specified overlay; an empty slot, a falsy payload, undecodable bytes, a JSON decode failure or another ValueError from `json.loads` draw nothing; a JSON decode failure logs exactly one warning, and undecodable bytes or another ValueError end the batch as an error without a warning |
| OverlaySamples.CavityIsRed | MainWindow.py:252-254 | the class name "Cavity" is drawn red |
| OverlaySamples.CavityFieldsRead | MainWindow.py:237-250 | the sample entry's fields read as given, and it has no object id |
| OverlaySamples.CavityCorners | MainWindow.py:243 | the sample box converts to 10, 10, 50, 50 |
| OverlaySamples.CavityEntryReachesDraw | MainWindow.py:237-269 | the sample entry passes the box and class-name checks |
| OverlaySamples.CavityCallsDrawable | MainWindow.py:259-284 | every call of the sample entry is in range once its label width is |
| OverlaySamples.CavityEntry | MainWindow.py:235-297 | the sample entry draws completely |
| OverlaySamples.CavityDraws | MainWindow.py:259-266 | the sample entry makes three calls, the first a red thickness-3 box from (10,10) to (50,50) |
| OverlaySamples.DetectionListDecodes | MainWindow.py:230-235 | a parsed dict whose "detections" is a list gives that list decoded entry by entry |
| OverlaySamples.CavityPayloadDecodes | MainWindow.py:222-235 | a payload with a single detection contributes exactly that detection's result |
| OverlaySamples.CavitySample | MainWindow.py:220-297 | the one-cavity payload gives a red box, its label background and its label, with no warning and no abort |
| OverlaySamples.BadBoxSample | MainWindow.py:237-240 | a detection whose bbox is the string "bad" draws nothing and logs one bad-box warning |
| OverlaySamples.HugeFieldsRead | MainWindow.py:237-250 | the sample entry with a confidence of 2^1024 - 2^970 reads that confidence |
| OverlaySamples.HugeEntryReachesDraw | MainWindow.py:237-269 | that entry passes the box and class-name checks |
| OverlaySamples.HugeBox | MainWindow.py:259-266 | its first call is the red box from (10,10) to (50,50), which OpenCV accepts |
| OverlaySamples.HugeConfidenceEntry | MainWindow.py:259-269 | that entry draws its box, then formatting the confidence with `.2f` raises, so the entry stops with only the box drawn |
| CameraDevice.VideoCapture.constructor | Camera.py:15 | a new capture is unreleased and knows whether it opened |
| CameraDevice.VideoCapture.Release | Camera.py:40 | each `release()` is counted |
| CameraDevice.Camera.constructor | Camera.py:11-15 | with no index nothing is held; with one a new capture is held, opened or not |
| CameraDevice.Camera.Close | Camera.py:38-41 | the held capture is released once and dropped, other captures are untouched, and a second close releases nothing |
| CameraDevice.Camera.Open | Camera.py:27-36 | the old capture is released first; returns True and keeps the new capture exactly when it opened, otherwise releases it and holds none; exactly one capture is created |
| CameraDevice.Camera.Read | Camera.py:46-52 | a frame is returned exactly when the camera is open and the grab succeeds; otherwise the matching RuntimeError is raised, and never None |
| CameraDevice.Camera.Exit | Camera.py:17-24 | leaving a `with` block or deleting the camera releases every capture it ever created exactly once |
| Render.CreatesOfThree | RenderWidget.py:139-158 | creating the Y, U and V textures logs their creations in that order |
| Render.PresentOfThree | RenderWidget.py:69-71 | the textures held are those of the three slots that are set |
| Render.DestroysStep | RenderWidget.py:111-113 | the destroy loop's log grows by one destruction exactly when the slot visited holds a texture |
| Render.LiveAfterDestroys | RenderWidget.py:111-113 | destroying every held texture in turn removes exactly the held ones from the live set |
| Render.PresentSnoc | RenderWidget.py:111 | the textures held in a list are those of its prefix and its last slot |
| Render.LiveAfterDestroy | RenderWidget.py:113 | destroying a texture removes it from the live set |
| Render.LiveAfterDestroyOf | RenderWidget.py:111-113 | visiting a slot in the destroy loop removes its texture, if any, from the live set |
| Render.AppendDestroys | RenderWidget.py:111-113 | the destroy loop's log over a list is its log over the prefix followed by the last slot's destruction |
| Render.LiveAfterCreate | RenderWidget.py:121 | creating a texture adds it to the live set |
| Render.OneCreated | RenderWidget.py:121 | on an empty GPU, creating the RGB texture makes it the only live one |
| Render.ThreeCreated | RenderWidget.py:139-158 | on an empty GPU, creating the Y, U and V textures makes exactly them live |
| Render.ThreeLive | RenderWidget.py:139-158 | three creations add the three textures to the live set |
| Render.QuotientInUnit | RenderWidget.py:95-99 | the smaller aspect over the larger lies in [0, 1], and is positive when the smaller is |
| Render.ScalesLetterbox | RenderWidget.py:92-99 | with a video and a window of some height, both scales lie in [0, 1], one of them is 1, and the picture shown keeps the video's aspect ratio; both are positive when the window has a width |
| Render.UnscaledWithoutVideo | RenderWidget.py:89-91 | with no video size, both scales are 1.0 |
| Render.WideWindowHalvesWidth | RenderWidget.py:92-96 | a window twice as wide as the video's proportions halves the horizontal scale and keeps the vertical one at 1.0 |
| Render.RgbCheck | RenderWidget.py:118-119 | an RGB/BGR buffer is accepted exactly when it is an ndarray of three dimensions whose last one is 3; otherwise ValueError |
| Render.PlaneCheck | RenderWidget.py:135-137 | a plane passes exactly when it is an array of the expected shape; something that is not an array raises AttributeError |
| Render.YuvCheck | RenderWidget.py:132-137 | a YUV420P buffer is accepted exactly when it is a list of three arrays of shapes (h, w), (h//2, w//2), (h//2, w//2); AttributeError only when some plane is not an array |
| Render.Texture.constructor | RenderWidget.py:121-124 | a texture has the size, format and source it is created with |
| Render.RenderWidget.constructor | RenderWidget.py:60-73 | a new widget holds no texture, no size and no format, has both scales 1.0, and no texture is live |
| Render.RenderWidget.InitializeGL | RenderWidget.py:183-216 | after `initializeGL` the shader program exists |
| Render.RenderWidget.UpdateAspectRatio | RenderWidget.py:88-99 | the scales become those of the letterbox rule; a window of height 0 raises and leaves them |
| Render.RenderWidget.ResizeGL | RenderWidget.py:218-219 | after a resize the scales follow the new window size |
| Render.RenderWidget.DropTextures | RenderWidget.py:111-115 | every held texture is destroyed, in the order Y, U, V, and then all slots and the YUV planes are dropped; no texture is leaked |
| Render.RenderWidget.DestroyEach | RenderWidget.py:111-113 | the loop destroys exactly the textures present, in slot order |
| Render.RenderWidget.ReplaceTextures | RenderWidget.py:111-161 | every old texture is destroyed before any new one is created; then the per-format outcomes below |
| Render.RenderWidget.NewTexture | RenderWidget.py:121-124 | a fresh texture of the given size and format is created and logged |
| Render.RenderWidget.UploadRgb | RenderWidget.py:117-129 | on an accepted buffer, exactly one fresh RGB8 texture of width × height is held, uploaded as BGR exactly for BGR24; otherwise ValueError and no texture |
| Render.RenderWidget.UploadYuv | RenderWidget.py:131-161 | on an accepted buffer, Y is w × h and U and V are (w//2) × (h//2), all R8, and the planes are kept; otherwise the matching exception and no texture |
| Render.RenderWidget.CreateYuvTextures | RenderWidget.py:139-161 | the three textures are created with the right sizes and sources, and the planes are kept |
| Render.RenderWidget.SetTextureData | RenderWidget.py:101-166 | a non-positive size changes nothing; otherwise size and format are stored and the scales recomputed before any check; every old texture is destroyed before any new one is created, even when a ValueError follows; then the per-format outcomes above |
| Render.RenderWidget.Clear | RenderWidget.py:168-181 | every texture is destroyed; no textures and no YUV planes remain; size 0 by 0, no format, both scales 1.0 |
| Render.RenderWidget.PaintGL | RenderWidget.py:221-255 | nothing is drawn exactly when there is no shader program or no Y texture; YUV mode exactly for YUV420P, binding U and V only then; a repaint faults only in YUV mode with U or V missing |
| Render.ConsistentNeverFaults | RenderWidget.py:229-245 | a widget whose YUV textures are complete never faults on a repaint |
| RtcSender.OfferIsNotAnswer | RTCSender.py:75-76 | the offer is never published on a topic where an answer is awaited, whatever the prefixes |
| RtcSender.TopicsDeterminePrefix | RTCSender.py:75-76 | different prefixes give different offer topics and different answer topics |
| RtcSender.DefaultTopics | RTCSender.py:73-76 | the default topics are "user/aiwang23/offer" and "user/aiwang23/answer" |
| RtcSender.PollBudget | RTCSender.py:51-57 | the budget is the largest number of 5 ms polls that fit in one frame interval |
| RtcSender.Recv | RTCSender.py:53-64 | the read function is called at most budget times and stops at the first frame, which it returns; if none comes, all budget calls are made and a black 480x640x3 frame is returned |
| RtcSender.AnswerFields | RTCSender.py:174-180 | an answer is used exactly when one arrived, is non-empty, parses to a dict, and has "sdp" and "type" |
| RtcSender.RTCSender.constructor | RTCSender.py:73-79 | topics derive from the prefix; the broker is broker.emqx.io:8883; not running, and no connection held |
| RtcSender.RTCSender.Open | RTCSender.py:81-83 | `open` only schedules a new `_run` task and changes nothing else |
| RtcSender.RTCSender.Close | RTCSender.py:85-89 | not running; a held connection is closed exactly once and dropped; a second close closes nothing; no connection is ever closed twice |
| RtcSender.RTCSender.Teardown | RTCSender.py:190-194 | the `finally` block ends not running, and closes the connection only if it is still held, so `close` and the teardown never both close it |
| RtcSender.RunTask.constructor | RTCSender.py:83 | a scheduled task has not started and holds no connection |
| RtcSender.RunTask.Start | RTCSender.py:115-119 | the task sets running, whatever `close` did since `open`, and a new connection is created and held |
| RtcSender.RunTask.Negotiate | RTCSender.py:122-152 | on success the sender goes on to await the answer unchanged; if a step raises it is torn down |
| RtcSender.RunTask.ReceiveAnswer | RTCSender.py:154-182 | the remote description is set exactly when a usable answer arrived and setting it did not raise; otherwise the sender is torn down with no remote description |
| RtcSender.RunTask.Tick | RTCSender.py:185-194 | the keep-alive loop goes on exactly while running and the state is neither closed nor failed; otherwise the sender is torn down |
| Window.UnnamedDevicesDistinct | MainWindow.py:150 | two unnamed devices with different indices get different display names |
| Window.OtherDevicesMembers | MainWindow.py:155-159 | the filtered devices are exactly the listed ones whose display name differs from the current one |
| Window.OtherDevicesInOrder | MainWindow.py:155-159 | the filtered devices keep the order in which the devices are listed |
| Window.ListedSnoc | MainWindow.py:148-151 | listing devices one more at a time appends that device's entry |
| Window.CameraListShape | MainWindow.py:143-159 | without a current entry, or with "close" current: "close"(-1) then every device in order; otherwise the current entry, then "close", then exactly the devices whose name differs, in the order they are listed |
| Window.RefreshIsStable | MainWindow.py:143-159 | refreshing twice with the same devices gives the same list |
| Window.BuildCameraList | MainWindow.py:143-159 | the combo-box loops build exactly the specified list |
| Window.MainWindow.constructor | MainWindow.py:38-63 | the window starts with no camera open, no thread, the sender stopped, both queues empty, default topics, and the camera list filled once |
| Window.MainWindow.UpdateCameraList | MainWindow.py:138-161 | the list is rebuilt around the current entry, which stays current when it is kept |
| Window.MainWindow.SetCurrentIndex | MainWindow.py:164 | the chosen entry becomes current |
| Window.MainWindow.StopReadFrameThread | MainWindow.py:317-322 | the flag is cleared, then the thread held, if any, is joined and dropped |
| Window.MainWindow.CloseChosen | MainWindow.py:171-177 | a running capture is stopped, then the camera closed, then the widget cleared, in that order |
| Window.MainWindow.OpenChosen | MainWindow.py:179-193 | a running capture is stopped before the open; the flag is set and a new thread started exactly when the camera opened |
| Window.MainWindow.CameraListCurrentChanged | MainWindow.py:163-193 | index -1 does nothing; "close" closes; any other entry opens the device its data names |
| Window.MainWindow.OpenOrCloseDetection | MainWindow.py:324-376 | a running sender is closed and the flag cleared; otherwise the sender is opened only with the camera open, and the flag set only if `open` did not raise |
| Window.MainWindow.ReadCameraCallBack | MainWindow.py:347-353 | None when the camera is not open or the slot is empty; otherwise the held frame, which is taken out of the slot |
| Window.MainWindow.ReadRTCFunc | MainWindow.py:355-356 | a data-channel message replaces whatever message was waiting |
| Window.MainWindow.OnFrameArrived | MainWindow.py:211-315 | the waiting message is consumed and drawn as specified; whatever the overlay did, the frame goes to the widget with its own width and height and BGR24, and with the overlay's calls on it |
| Window.MainWindow.CloseEvent | MainWindow.py:65-68 | closing the window stops the capture and closes the camera, so every capture handle has been released exactly once |

## Left out

- The GLSL shaders and the YUV-to-RGB matrix, the vertex data of `initializeGL`, the GL context calls and the widget's `__del__`: these are GPU and foreign calls. Textures are objects known by identity, and a ghost log records their creations and destructions.
- Qt layout, styles, status texts, message boxes and signal wiring. `SetCurrentIndex` stands for the user picking an entry.
- The capture thread's body, the join timeout and `Event` semantics: these are concurrency. Only the running flag and the thread handle are kept. `Camera.read` raises on a failed grab, so a real capture thread ends there and leaves the flag set; the thread body is not part of this model.
- CameraDevice.VideoCapture: whether a capture is open is fixed when it is created; a device that stops delivering later (unplugged, say) only shows up as failed grabs.
- `Camera.devices`, which is platform enumeration. The device list is a parameter.
- aiortc, MQTT, TLS and asyncio: the peer connection's handlers, publish and subscribe, task scheduling, `av.VideoFrame` and the data-channel callbacks. Each `_run` step takes the outcome it observes as a parameter: whether negotiation raised, how the answer wait ended, whether setting the answer raised, and the connection state.
- `await self.pc.close()` in the teardown is treated as one atomic step with what follows it.
- `json.loads` and UTF-8 decoding: a payload is given already classified as falsy, undecodable, not JSON (JSONDecodeError), refused by `json.loads` with another ValueError (an int literal over 4300 digits), or parsed. The width that `cv2.getTextSize` reports is a parameter.
- The text of the `.2f` label and of `ID:<id>`: a caption records its parts, not its characters.
- Unicode in `int()` and `lower()`: only ASCII whitespace, digits and letters are handled.
- `Image` records a frame's shape, its pixel source and the drawing calls made on it; pixel values are not modelled.
- Scales are exact reals rather than floats.
- RtcSender.PollBudget: computed in exact arithmetic (`200 / fps`), not as the float expression the source evaluates, and only for a positive frame rate; the sender always uses 25 fps.
- The unsupported-format branch of `setTextureData` cannot be reached with the three-valued `PixelFormat`, and is not modelled.
- LatestValue.PutLatest: the `Empty` branch after a `Full` only happens when another thread empties the queue in between; the model is single-threaded, so the loop ends after at most one drop.
- ConfigClient.py, main.py and the demo blocks are not part of this model.
