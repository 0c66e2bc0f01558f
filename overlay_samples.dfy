/** The two sample data-channel payloads worked through the detection overlay. */
module OverlaySamples {
  import opened Wrappers
  import opened PyJson
  import opened Frames
  import opened DetectionOverlay

  /** The one detection of the first sample payload. */
  function CavityFields(): map<string, Json>
  {
    map["bbox" := JList([JInt(10), JInt(10), JInt(50), JInt(50)]),
        "class_name" := JStr("Cavity"), "confidence" := JFloat(Finite(0.91))]
  }

  lemma CavityIsRed()
    ensures ClassColor("Cavity") == Red
  {
    assert OccursAt(Lower("Cavity"), "cavity", 0);
  }

  /** What the entry's fields read as. */
  lemma CavityFieldsRead()
    ensures BoxValue(CavityFields()) == JList([JInt(10), JInt(10), JInt(50), JInt(50)])
    ensures ClassNameValue(CavityFields()) == JStr("Cavity")
    ensures ConfidenceValue(CavityFields()) == JFloat(Finite(0.91))
    ensures ObjectIdValue(CavityFields()) == JNull
  {
  }

  lemma CavityCorners()
    ensures ConvertAll([JInt(10), JInt(10), JInt(50), JInt(50)]) == Ints([10, 10, 50, 50])
  {
  }

  /** The sample entry gets past the box and class-name checks with corners 10, 10, 50, 50. */
  lemma CavityEntryReachesDraw(width: TextWidth)
    ensures Entry(JObj(CavityFields()), width) == DrawnCalls(CavityFields(), [10, 10, 50, 50], "Cavity", width)
  {
    CavityFieldsRead();
    CavityCorners();
  }

  /** Every call of the sample entry is in range once its label fits. */
  lemma CavityCallsDrawable(width: TextWidth)
    requires IsCInt(10 + width(ClassCaption("Cavity", JFloat(Finite(0.91)))))
    ensures var calls := AcceptedDraws(CavityFields(), [10, 10, 50, 50], "Cavity", width);
      forall i :: 0 <= i < |calls| ==> Drawable(calls[i])
  {
    CavityFieldsRead();
    var calls := AcceptedDraws(CavityFields(), [10, 10, 50, 50], "Cavity", width);
    assert |calls| == 3;
    assert Drawable(calls[0]) && Drawable(calls[1]) && Drawable(calls[2]);
  }

  lemma CavityEntry(width: TextWidth)
    requires IsCInt(10 + width(ClassCaption("Cavity", JFloat(Finite(0.91)))))
    ensures Entry(JObj(CavityFields()), width) == Drawn(AcceptedDraws(CavityFields(), [10, 10, 50, 50], "Cavity", width))
  {
    CavityEntryReachesDraw(width);
    CavityCallsDrawable(width);
    CavityFieldsRead();
    assert FormatsAsFixed(ConfidenceValue(CavityFields()));
  }

  /** The sample entry with a confidence too large for a float. */
  function HugeFields(): map<string, Json>
  {
    CavityFields()["confidence" := JInt(FloatIntLimit)]
  }

  lemma HugeFieldsRead()
    ensures BoxValue(HugeFields()) == JList([JInt(10), JInt(10), JInt(50), JInt(50)])
    ensures ClassNameValue(HugeFields()) == JStr("Cavity")
    ensures ConfidenceValue(HugeFields()) == JInt(FloatIntLimit)
  {
  }

  lemma HugeEntryReachesDraw(width: TextWidth)
    ensures Entry(JObj(HugeFields()), width) == DrawnCalls(HugeFields(), [10, 10, 50, 50], "Cavity", width)
  {
    HugeFieldsRead();
    CavityCorners();
  }

  /** Its first call is the red box, which OpenCV accepts. */
  lemma HugeBox(width: TextWidth)
    ensures var calls := AcceptedDraws(HugeFields(), [10, 10, 50, 50], "Cavity", width);
      calls[0] == Box(Point(10, 10), Point(50, 50), Red, 3) && Drawable(calls[0])
  {
    CavityIsRed();
  }

  /** With that confidence the box is drawn, then `.2f` raises and the entry stops there. */
  lemma HugeConfidenceEntry(width: TextWidth)
    ensures Entry(JObj(HugeFields()), width) == Raised([Box(Point(10, 10), Point(50, 50), Red, 3)])
  {
    HugeEntryReachesDraw(width);
    HugeBox(width);
    assert !FormatsAsFixed(ConfidenceValue(HugeFields())) by { HugeFieldsRead(); }
  }

  lemma CavityDraws(width: TextWidth)
    ensures var calls := AcceptedDraws(CavityFields(), [10, 10, 50, 50], "Cavity", width);
      |calls| == 3 && calls[0] == Box(Point(10, 10), Point(50, 50), Red, 3)
  {
    CavityIsRed();
    CavityFieldsRead();
    AcceptedDrawsShape(CavityFields(), [10, 10, 50, 50], "Cavity", width);
  }

  /** The first sample payload: `{"detections": [<the cavity detection>]}`. */
  function CavityPayload(): Payload
  {
    Parsed(JObj(map["detections" := JList([JObj(CavityFields())])]))
  }

  /** A payload whose "detections" is a list is that list decoded entry by entry. */
  lemma DetectionListDecodes(doc: map<string, Json>, items: seq<Json>, width: TextWidth)
    requires "detections" in doc && doc["detections"] == JList(items)
    ensures Overlay(Some(Parsed(JObj(doc))), width) == Decode(items, width)
  {
    assert Get(doc, "detections", JList([])) == JList(items);
    assert Overlay(Some(Parsed(JObj(doc))), width) == DecodeDetections(JList(items), width);
  }

  lemma CavityPayloadDecodes(width: TextWidth)
    ensures Overlay(Some(CavityPayload()), width) == Contribution(Entry(JObj(CavityFields()), width))
  {
    DetectionListDecodes(map["detections" := JList([JObj(CavityFields())])], [JObj(CavityFields())], width);
    DecodeSingle(JObj(CavityFields()), width);
  }

  /** A sample payload: one detection of class "Cavity" gives one red box, its label background and its label. */
  lemma CavitySample(width: TextWidth)
    requires IsCInt(10 + width(ClassCaption("Cavity", JFloat(Finite(0.91)))))
    ensures
      var b := Overlay(Some(CavityPayload()), width);
      b.end == Completed && b.warnings == [] && |b.draws| == 3
      && b.draws[0] == Box(Point(10, 10), Point(50, 50), Red, 3)
  {
    CavityPayloadDecodes(width);
    CavityEntry(width);
    CavityDraws(width);
  }

  /** A sample payload: a box given as the string "bad" draws nothing and logs one warning. */
  lemma BadBoxSample(width: TextWidth)
    ensures
      var bad := JObj(map["bbox" := JStr("bad")]);
      Overlay(Some(Parsed(JObj(map["detections" := JList([bad])]))), width)
        == Batch([], [BadBoxShape(JStr("bad"))], Completed)
  {
    var bad := JObj(map["bbox" := JStr("bad")]);
    assert BoxValue(bad.fields) == JStr("bad");
    assert Entry(bad, width) == Skipped(BadBoxShape(JStr("bad")));
    assert Decode([bad], width) == Then(Batch([], [BadBoxShape(JStr("bad"))], Completed), Decode([], width));
  }
}
