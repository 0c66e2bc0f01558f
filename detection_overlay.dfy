/**
 * The detection overlay of `MainWindow.onFrameArrived`: the newest data-channel
 * payload, already parsed, becomes a list of OpenCV drawing calls on the copy of
 * the frame that is shown.
 */
module DetectionOverlay {
  import opened Wrappers
  import opened PyJson
  import opened Frames

  /** Width in pixels that `cv2.getTextSize` reports for a caption; font metrics are not modelled. */
  type TextWidth = Caption -> int

  /** What `rtcToCamQueue.get_nowait()` handed over, once its truthiness, UTF-8 decoding and `json.loads` are known. */
  datatype Payload =
    | Falsy              // None, "" or b"": nothing to draw
    | NotUtf8            // bytes that fail `.decode('utf-8')`
    | NotJson            // `json.loads` raised JSONDecodeError
    | JsonValueError     // `json.loads` raised another ValueError: an int literal over the 4300-digit limit
    | Parsed(doc: Json)

  /** The warnings the overlay logs and then carries on. */
  datatype Warning = BadBoxShape(bbox: Json) | BadBoxCoordinates(bbox: Json) | JsonDecodeFailed

  /** How the processing of one entry of `detections` ended. */
  datatype EntryResult =
    | Drawn(draws: seq<Draw>)      // every drawing call for the entry was made
    | Skipped(warning: Warning)    // `continue` after a warning, nothing drawn
    | Raised(partial: seq<Draw>)   // an exception escaped, after these calls were made

  /** `int()` over the corners left to right, as `x1, y1, x2, y2 = map(int, bbox)` does it. */
  datatype Corners = Ints(values: seq<int>) | StoppedAt(failure: IntConv)

  function ConvertAll(vs: seq<Json>): (r: Corners)
    ensures r.Ints? <==> forall i :: 0 <= i < |vs| ==> PyInt(vs[i]).Converted?
    ensures r.Ints? ==> |r.values| == |vs| && forall i :: 0 <= i < |vs| ==> PyInt(vs[i]) == Converted(r.values[i])
    ensures r.StoppedAt? ==>
      exists k :: 0 <= k < |vs| && PyInt(vs[k]) == r.failure && !r.failure.Converted?
        && forall i :: 0 <= i < k ==> PyInt(vs[i]).Converted?
  {
    if vs == [] then Ints([])
    else
      match PyInt(vs[0])
      case Converted(n) =>
        (match ConvertAll(vs[1..])
         case Ints(ns) => Ints([n] + ns)
         case StoppedAt(f) => StoppedAt(f))
      case failure => StoppedAt(failure)
  }

  /** The colour rule: a class name containing "cavity", in any case, is drawn red; every other one green. */
  function ClassColor(className: string): Color
  {
    if Contains(Lower(className), "cavity") then Red else Green
  }

  /** Drawing calls made one after another; the first one OpenCV refuses raises, keeping those before it. */
  function Emit(done: seq<Draw>, rest: seq<Draw>): (r: EntryResult)
    ensures r.Drawn? || r.Raised?
    ensures r.Drawn? <==> forall i :: 0 <= i < |rest| ==> Drawable(rest[i])
    ensures r.Drawn? ==> r.draws == done + rest
    ensures r.Raised? ==>
      var k := |r.partial| - |done|;
      0 <= k < |rest| && r.partial == done + rest[..k] && !Drawable(rest[k])
      && forall i :: 0 <= i < k ==> Drawable(rest[i])
    decreases |rest|
  {
    if rest == [] then Drawn(done)
    else if !Drawable(rest[0]) then Raised(done)
    else
      var r := Emit(done + [rest[0]], rest[1..]);
      assert forall i :: 1 <= i < |rest| ==> rest[i] == rest[1..][i - 1];
      assert r.Raised? ==> r.partial == done + rest[..|r.partial| - |done|] by {
        if r.Raised? {
          var k := |r.partial| - |done| - 1;
          assert rest[..k + 1] == [rest[0]] + rest[1..][..k];
        }
      }
      r
  }

  /** `det.get("bbox")` and the other fields an entry is read through, with their defaults. */
  function BoxValue(d: map<string, Json>): Json { Get(d, "bbox", JNull) }
  function ClassNameValue(d: map<string, Json>): Json { Get(d, "class_name", JStr("unknown")) }
  function ConfidenceValue(d: map<string, Json>): Json { Get(d, "confidence", JFloat(Finite(0.0))) }
  function ObjectIdValue(d: map<string, Json>): Json { Get(d, "object_id", JNull) }

  /** The calls for an entry whose box converted to `c` and whose class name is the str `className`. */
  function AcceptedDraws(d: map<string, Json>, c: seq<int>, className: string, width: TextWidth): (calls: seq<Draw>)
    requires |c| == 4
    ensures 3 <= |calls| <= 4
    ensures |calls| == 4 <==> ObjectIdValue(d) != JNull
  {
    var color := ClassColor(className);
    var caption := ClassCaption(className, ConfidenceValue(d));
    var objectId := ObjectIdValue(d);
    [ Box(Point(c[0], c[1]), Point(c[2], c[3]), color, 3),
      Box(Point(c[0], c[1] - 25), Point(c[0] + width(caption), c[1] - 5), Black, -1),
      Text(caption, Point(c[0], c[1] - 10), 0.7, color, 2) ]
    + (if objectId != JNull then [Text(IdCaption(objectId), Point(c[0], c[3] + 20), 0.6, White, 2)] else [])
  }

  /** One pass of the body of `for det in detections`. */
  function Entry(det: Json, width: TextWidth): EntryResult
  {
    if !det.JObj? then Raised([])                                  // `.get` on a non-dict
    else DictEntry(det.fields, width)
  }

  /** The box check: a list of exactly four elements, each accepted by `int()`. */
  function DictEntry(d: map<string, Json>, width: TextWidth): EntryResult
  {
    var bbox := BoxValue(d);
    if !bbox.JList? || |bbox.items| != 4 then Skipped(BadBoxShape(bbox))
    else
      match ConvertAll(bbox.items)
      case StoppedAt(Overflow) => Raised([])                       // OverflowError is not caught per entry
      case StoppedAt(_) => Skipped(BadBoxCoordinates(bbox))        // ValueError or TypeError
      case Ints(c) => NamedEntry(d, c, width)
  }

  /** `det.get("class_name", "unknown").lower()`, which raises for anything but a str. */
  function NamedEntry(d: map<string, Json>, c: seq<int>, width: TextWidth): EntryResult
    requires |c| == 4
  {
    var nameValue := ClassNameValue(d);
    if !nameValue.JStr? then Raised([]) else DrawnCalls(d, c, nameValue.s, width)
  }

  /** The drawing calls; formatting the confidence, between the box and the rest, may raise too. */
  function DrawnCalls(d: map<string, Json>, c: seq<int>, className: string, width: TextWidth): (r: EntryResult)
    requires |c| == 4
    ensures r.Drawn? ==> r.draws == AcceptedDraws(d, c, className, width)
    ensures r.Drawn? <==>
      FormatsAsFixed(ConfidenceValue(d)) && forall i :: 0 <= i < |AcceptedDraws(d, c, className, width)| ==> Drawable(AcceptedDraws(d, c, className, width)[i])
    ensures !FormatsAsFixed(ConfidenceValue(d)) ==>
      var box := AcceptedDraws(d, c, className, width)[0];
      r == if Drawable(box) then Raised([box]) else Raised([])
    ensures r.Drawn? || r.Raised?
    ensures FormatsAsFixed(ConfidenceValue(d)) && r.Raised? ==>
      var calls := AcceptedDraws(d, c, className, width);
      var k := |r.partial|;
      k < |calls| && r.partial == calls[..k] && !Drawable(calls[k])
      && forall i :: 0 <= i < k ==> Drawable(calls[i])
  {
    var calls := AcceptedDraws(d, c, className, width);
    if !Drawable(calls[0]) then Raised([])
    else if !FormatsAsFixed(ConfidenceValue(d)) then Raised([calls[0]])
    else
      EmitAfterFirst(calls);
      Emit([calls[0]], calls[1..])
  }

  /** Emitting the rest of a list of calls once its first call is made is emitting the whole list. */
  lemma EmitAfterFirst(calls: seq<Draw>)
    requires calls != [] && Drawable(calls[0])
    ensures var r := Emit([calls[0]], calls[1..]);
      && (r.Drawn? <==> forall i :: 0 <= i < |calls| ==> Drawable(calls[i]))
      && (r.Drawn? ==> r.draws == calls)
      && (r.Raised? ==>
        var k := |r.partial|;
        k < |calls| && r.partial == calls[..k] && !Drawable(calls[k])
        && forall i :: 0 <= i < k ==> Drawable(calls[i]))
  {
    var r := Emit([calls[0]], calls[1..]);
    assert [calls[0]] + calls[1..] == calls;
    assert forall i :: 1 <= i < |calls| ==> calls[i] == calls[1..][i - 1];
    if r.Raised? {
      assert calls[..|r.partial|] == [calls[0]] + calls[1..][..|r.partial| - 1];
    }
  }

  // ---------------------------------------------------------------------------
  // A batch of detections

  datatype End = Completed | Aborted

  /** What the overlay drew and logged; `Aborted` means an exception ended it and was logged as an error. */
  datatype Batch = Batch(draws: seq<Draw>, warnings: seq<Warning>, end: End)

  const NoOverlay := Batch([], [], Completed)

  /** `a` followed by `b`, unless `a` was ended by an exception. */
  function Then(a: Batch, b: Batch): Batch
  {
    if a.end == Aborted then a else Batch(a.draws + b.draws, a.warnings + b.warnings, b.end)
  }

  function Contribution(e: EntryResult): Batch
  {
    match e
    case Drawn(ds) => Batch(ds, [], Completed)
    case Skipped(w) => Batch([], [w], Completed)
    case Raised(p) => Batch(p, [], Aborted)
  }

  /** The whole `for det in detections` loop inside the `try`. */
  function Decode(dets: seq<Json>, width: TextWidth): Batch
  {
    if dets == [] then NoOverlay else Then(Contribution(Entry(dets[0], width)), Decode(dets[1..], width))
  }

  lemma ThenAssociative(a: Batch, b: Batch, c: Batch)
    ensures Then(Then(a, b), c) == Then(a, Then(b, c))
  {
  }

  /** Decoding splits at any point: the second half matters only if the first was not aborted. */
  lemma {:induction false} DecodeAppend(a: seq<Json>, b: seq<Json>, width: TextWidth)
    ensures Decode(a + b, width) == Then(Decode(a, width), Decode(b, width))
  {
    if a == [] {
      assert a + b == b;
      assert Then(NoOverlay, Decode(b, width)) == Decode(b, width);
    } else {
      assert (a + b)[0] == a[0] && (a + b)[1..] == a[1..] + b;
      DecodeAppend(a[1..], b, width);
      ThenAssociative(Contribution(Entry(a[0], width)), Decode(a[1..], width), Decode(b, width));
    }
  }

  lemma DecodeSingle(det: Json, width: TextWidth)
    ensures Decode([det], width) == Contribution(Entry(det, width))
  {
    var c := Contribution(Entry(det, width));
    assert Then(c, NoOverlay) == c by {
      assert c.draws + [] == c.draws && c.warnings + [] == c.warnings;
    }
  }

  /** The loop of `onFrameArrived` with the per-entry step left open: each entry's contribution, until one aborts. */
  function Fold(dets: seq<Json>, entryOf: Json -> EntryResult): Batch
  {
    if dets == [] then NoOverlay else Then(Contribution(entryOf(dets[0])), Fold(dets[1..], entryOf))
  }

  /** The per-entry step of `onFrameArrived` for a given text measure. */
  function EntryWith(width: TextWidth): Json -> EntryResult
  {
    det => Entry(det, width)
  }

  lemma {:induction false} DecodeIsFold(dets: seq<Json>, width: TextWidth)
    ensures Decode(dets, width) == Fold(dets, EntryWith(width))
    decreases |dets|
  {
    if dets != [] {
      DecodeIsFold(dets[1..], width);
    }
  }

  lemma FoldStep(dets: seq<Json>, i: nat, entryOf: Json -> EntryResult)
    requires i < |dets|
    ensures Fold(dets[i..], entryOf) == Then(Contribution(entryOf(dets[i])), Fold(dets[i + 1..], entryOf))
  {
    assert dets[i..][0] == dets[i] && dets[i..][1..] == dets[i + 1..];
  }

  /** A skipped entry only adds its warning: the entries after it are still drawn. */
  lemma SkippedEntryOnlyWarns(pre: seq<Json>, det: Json, post: seq<Json>, width: TextWidth)
    requires Entry(det, width).Skipped?
    ensures Decode(pre + [det] + post, width).draws == Decode(pre + post, width).draws
    ensures Decode(pre + [det] + post, width).end == Decode(pre + post, width).end
    ensures Decode(pre, width).end == Completed ==>
      Decode(pre + [det] + post, width).warnings
        == Decode(pre, width).warnings + [Entry(det, width).warning] + Decode(post, width).warnings
  {
    var a, p := Decode(pre, width), Decode(post, width);
    var d := Batch([], [Entry(det, width).warning], Completed);
    assert Decode([det], width) == d;
    DecodeAppend(pre + [det], post, width);
    DecodeAppend(pre, [det], width);
    DecodeAppend(pre, post, width);
    assert Decode(pre + [det] + post, width) == Then(Then(a, d), p);
    if a.end == Completed {
      assert a.draws + d.draws == a.draws;
    }
  }

  /** An entry that raises ends the batch, but whatever was drawn before it, by earlier entries or by itself, stays drawn. */
  lemma AbortKeepsEarlierDraws(pre: seq<Json>, det: Json, post: seq<Json>, width: TextWidth)
    requires Decode(pre, width).end == Completed
    requires Entry(det, width).Raised?
    ensures Decode(pre + [det] + post, width)
      == Batch(Decode(pre, width).draws + Entry(det, width).partial, Decode(pre, width).warnings, Aborted)
  {
    DecodeAppend(pre + [det], post, width);
    DecodeAppend(pre, [det], width);
    assert Decode([det], width) == Batch(Entry(det, width).partial, [], Aborted);
  }

  /** Iterating the value found under "detections". */
  function DecodeDetections(v: Json, width: TextWidth): Batch
  {
    match v
    case JList(items) => Decode(items, width)
    case JStr(s) => Decode(seq(|s|, i requires 0 <= i < |s| => JStr([s[i]])), width)   // one-character strs
    case JObj(m) => if |m| == 0 then NoOverlay else Batch([], [], Aborted)   // its keys are strs, which have no `.get`
    case _ => Batch([], [], Aborted)                                      // not iterable: TypeError
  }

  /** The `try` block of `onFrameArrived`, given what `get_nowait` returned (`None` for `queue.Empty`). */
  function Overlay(slot: Option<Payload>, width: TextWidth): Batch
  {
    match slot
    case None => NoOverlay
    case Some(Falsy) => NoOverlay
    case Some(NotUtf8) => Batch([], [], Aborted)
    case Some(NotJson) => Batch([], [JsonDecodeFailed], Completed)
    case Some(JsonValueError) => Batch([], [], Aborted)
    case Some(Parsed(doc)) =>
      if !doc.JObj? then Batch([], [], Aborted)   // `.get` on a non-dict
      else DecodeDetections(Get(doc.fields, "detections", JList([])), width)
  }

  // ---------------------------------------------------------------------------
  // What one accepted detection draws

  /** The calls for an accepted entry, call by call, with the colour rule. */
  lemma AcceptedDrawsShape(d: map<string, Json>, c: seq<int>, name: string, width: TextWidth)
    requires |c| == 4
    ensures
      var color := ClassColor(name);
      var draws := AcceptedDraws(d, c, name, width);
      && (|draws| == 4 <==> ObjectIdValue(d) != JNull)
      && (|draws| == 3 <==> ObjectIdValue(d) == JNull)
      && draws[0] == Box(Point(c[0], c[1]), Point(c[2], c[3]), color, 3)
      && draws[1].Box? && draws[1].corner1 == Point(c[0], c[1] - 25) && draws[1].color == Black && draws[1].thickness == -1
      && draws[2] == Text(ClassCaption(name, ConfidenceValue(d)), Point(c[0], c[1] - 10), 0.7, color, 2)
      && (|draws| == 4 ==> draws[3] == Text(IdCaption(ObjectIdValue(d)), Point(c[0], c[3] + 20), 0.6, White, 2))
      && (color == Red <==> Contains(Lower(name), "cavity"))
      && (color == Green <==> !Contains(Lower(name), "cavity"))
  {
  }

  /** The box of an entry that got past the box check, as `map(int, bbox)` converted it. */
  function BoxCorners(bbox: Json): (c: seq<int>)
    requires bbox.JList? && |bbox.items| == 4 && forall i :: 0 <= i < 4 ==> PyInt(bbox.items[i]).Converted?
    ensures |c| == 4 && ConvertAll(bbox.items) == Ints(c)
  {
    var c := [PyInt(bbox.items[0]).n, PyInt(bbox.items[1]).n, PyInt(bbox.items[2]).n, PyInt(bbox.items[3]).n];
    assert ConvertAll(bbox.items).values == c;
    c
  }

  /** An entry that draws completely is a dict with a four-corner box of ints and a str class name. */
  lemma DrawnEntryIsWellFormed(det: Json, width: TextWidth)
    requires Entry(det, width).Drawn?
    ensures det.JObj?
    ensures var bbox := BoxValue(det.fields);
      bbox.JList? && |bbox.items| == 4 && forall i :: 0 <= i < 4 ==> PyInt(bbox.items[i]).Converted?
    ensures ClassNameValue(det.fields).JStr?
    ensures FormatsAsFixed(ConfidenceValue(det.fields))
    ensures var d := det.fields;
      Entry(det, width).draws == AcceptedDraws(d, BoxCorners(BoxValue(d)), ClassNameValue(d).s, width)
    ensures forall i :: 0 <= i < |Entry(det, width).draws| ==> Drawable(Entry(det, width).draws[i])
  {
    var d := det.fields;
    var bbox := BoxValue(d);
    var conv := ConvertAll(bbox.items);
    assert conv.Ints?;
    var c := BoxCorners(bbox);
    assert Entry(det, width) == DrawnCalls(d, c, ClassNameValue(d).s, width);
  }

  /** Conversely, such an entry draws completely whenever OpenCV accepts every coordinate. */
  lemma EntryDrawnWhenWellFormed(det: Json, width: TextWidth)
    requires det.JObj?
    requires var bbox := BoxValue(det.fields);
      bbox.JList? && |bbox.items| == 4 && forall i :: 0 <= i < 4 ==> PyInt(bbox.items[i]).Converted?
    requires ClassNameValue(det.fields).JStr?
    requires FormatsAsFixed(ConfidenceValue(det.fields))
    requires
      var d := det.fields;
      var c := BoxValue(d).items;
      var calls := AcceptedDraws(d, BoxCorners(BoxValue(d)), ClassNameValue(d).s, width);
      forall i :: 0 <= i < |calls| ==> Drawable(calls[i])
    ensures Entry(det, width).Drawn?
  {
    var d := det.fields;
    var c := BoxCorners(BoxValue(d));
    assert Entry(det, width) == DrawnCalls(d, c, ClassNameValue(d).s, width);
  }

  // ---------------------------------------------------------------------------
  // The loop as the source runs it

  /** What one more entry adds to a batch that is still running. */
  lemma ThenEntry(b: Batch, e: EntryResult)
    requires b.end == Completed
    ensures e.Drawn? ==> Then(b, Contribution(e)) == Batch(b.draws + e.draws, b.warnings, Completed)
    ensures e.Skipped? ==> Then(b, Contribution(e)) == Batch(b.draws, b.warnings + [e.warning], Completed)
    ensures e.Raised? ==> Then(b, Contribution(e)) == Batch(b.draws + e.partial, b.warnings, Aborted)
  {
    assert b.draws + [] == b.draws && b.warnings + [] == b.warnings;
  }

  /** The loop invariant of `DrawEntries` carried over one entry. */
  lemma DrawStep(dets: seq<Json>, i: nat, b: Batch, entryOf: Json -> EntryResult)
    requires i < |dets|
    requires Then(b, Fold(dets[i..], entryOf)) == Fold(dets, entryOf)
    ensures Then(Then(b, Contribution(entryOf(dets[i]))), Fold(dets[i + 1..], entryOf)) == Fold(dets, entryOf)
  {
    FoldStep(dets, i, entryOf);
    ThenAssociative(b, Contribution(entryOf(dets[i])), Fold(dets[i + 1..], entryOf));
  }

  /** What one entry does to the frame and the log: its calls are drawn, its warning logged, or the loop ends. */
  method AddEntry(b: Batch, e: EntryResult) returns (next: Batch)
    requires b.end == Completed
    ensures next == Then(b, Contribution(e))
    ensures next.end == Aborted <==> e.Raised?
  {
    ThenEntry(b, e);
    match e {
      case Drawn(ds) =>
        next := Batch(b.draws + ds, b.warnings, Completed);
      case Skipped(w) =>
        next := Batch(b.draws, b.warnings + [w], Completed);
      case Raised(partial) =>
        next := Batch(b.draws + partial, b.warnings, Aborted);
    }
  }

  /** `for det in detections`, drawing onto the frame entry by entry; an exception ends the loop. */
  method DrawEntries(dets: seq<Json>, entryOf: Json -> EntryResult) returns (b: Batch)
    ensures b == Fold(dets, entryOf)
  {
    b := NoOverlay;
    var i := 0;
    while i < |dets|
      invariant 0 <= i <= |dets|
      invariant b.end == Completed
      invariant Then(b, Fold(dets[i..], entryOf)) == Fold(dets, entryOf)
    {
      DrawStep(dets, i, b, entryOf);
      b := AddEntry(b, entryOf(dets[i]));
      if b.end == Aborted {
        return;
      }
      i := i + 1;
    }
    assert dets[i..] == [];
    assert b.draws + [] == b.draws && b.warnings + [] == b.warnings;
  }

  /** The loop with the entry step of `onFrameArrived`. */
  method DrawDetections(dets: seq<Json>, width: TextWidth) returns (b: Batch)
    ensures b == Decode(dets, width)
  {
    b := DrawEntries(dets, EntryWith(width));
    DecodeIsFold(dets, width);
  }

  /** The `try` block of `onFrameArrived`: nothing is drawn for an empty slot, a falsy payload or a payload that does not decode. */
  method Annotate(slot: Option<Payload>, width: TextWidth) returns (b: Batch)
    ensures b == Overlay(slot, width)
    ensures slot.None? || slot == Some(Falsy) || slot == Some(NotJson) || slot == Some(NotUtf8) || slot == Some(JsonValueError) ==> b.draws == []
    ensures slot == Some(NotJson) ==> b.warnings == [JsonDecodeFailed]
    ensures slot == Some(NotUtf8) || slot == Some(JsonValueError) ==> b.end == Aborted && b.warnings == []
  {
    match slot {
      case None => b := NoOverlay;
      case Some(Falsy) => b := NoOverlay;
      case Some(NotUtf8) => b := Batch([], [], Aborted);
      case Some(NotJson) => b := Batch([], [JsonDecodeFailed], Completed);
      case Some(JsonValueError) => b := Batch([], [], Aborted);
      case Some(Parsed(doc)) =>
        if !doc.JObj? {
          b := Batch([], [], Aborted);
        } else {
          var detections := Get(doc.fields, "detections", JList([]));
          match detections {
            case JList(items) => b := DrawDetections(items, width);
            case JStr(s) => b := DrawDetections(seq(|s|, i requires 0 <= i < |s| => JStr([s[i]])), width);
            case JObj(m) => b := if |m| == 0 then NoOverlay else Batch([], [], Aborted);
            case _ => b := Batch([], [], Aborted);
          }
        }
    }
  }
}
