/** The response contract of the analysis request (RESPONSE_SCHEMA in
    services/geminiService.ts): which JSON documents it admits, and how an
    admitted document reads as an AnalysisResult. JSON text parsing itself is
    foreign; documents are taken as already-parsed values. */
module Schema {
  import opened Wrappers
  import opened Types

  datatype Json =
    | JNull
    | JBool(b: bool)
    | JNumber(n: real)
    | JString(s: string)
    | JArray(items: seq<Json>)
    | JObject(fields: map<string, Json>)

  /** The enumerations the schema lists for trust.probability and trust.resistance. */
  const ProbabilityEnum: set<string> := {"Low", "Medium", "High"}
  const ResistanceEnum: set<string> := {"Red", "Yellow", "Green"}

  /** The schema's enumerations are exactly the literal unions of types.ts. */
  lemma EnumsMatchTypes(s: string)
    ensures s in ProbabilityEnum <==> ParseProbability(s).Some?
    ensures s in ResistanceEnum <==> ParseResistance(s).Some?
  {
  }

  predicate IsInteger(n: real) {
    n.Floor as real == n
  }

  predicate HasString(o: map<string, Json>, k: string) {
    k in o && o[k].JString?
  }

  predicate HasEnum(o: map<string, Json>, k: string, allowed: set<string>) {
    HasString(o, k) && o[k].s in allowed
  }

  /** trust: an integer score and the two enumerated strings, all required. */
  predicate TrustConforms(j: Json) {
    j.JObject?
    && "score" in j.fields && j.fields["score"].JNumber? && IsInteger(j.fields["score"].n)
    && HasEnum(j.fields, "probability", ProbabilityEnum)
    && HasEnum(j.fields, "resistance", ResistanceEnum)
  }

  predicate ItemConforms(j: Json) {
    j.JObject? && HasString(j.fields, "surface") && HasString(j.fields, "deep")
  }

  predicate EmotionsConforms(j: Json) {
    j.JObject? && HasString(j.fields, "start") && HasString(j.fields, "middle")
    && HasString(j.fields, "end") && HasString(j.fields, "turningPoint")
  }

  predicate AdviceConforms(j: Json) {
    j.JObject? && HasString(j.fields, "script") && HasString(j.fields, "materials")
    && HasString(j.fields, "timing")
  }

  /** The whole contract: all four top-level fields present and each of the
      right shape; other keys are ignored. */
  predicate Conforms(j: Json) {
    j.JObject?
    && "trust" in j.fields && TrustConforms(j.fields["trust"])
    && "decoding" in j.fields && j.fields["decoding"].JArray?
    && (forall i :: 0 <= i < |j.fields["decoding"].items| ==> ItemConforms(j.fields["decoding"].items[i]))
    && "emotions" in j.fields && EmotionsConforms(j.fields["emotions"])
    && "advice" in j.fields && AdviceConforms(j.fields["advice"])
  }

  function DecodeTrust(j: Json): TrustMetrics
    requires TrustConforms(j)
  {
    TrustMetrics(j.fields["score"].n.Floor, j.fields["probability"].s, j.fields["resistance"].s)
  }

  function DecodeItem(j: Json): DecodingItem
    requires ItemConforms(j)
  {
    DecodingItem(j.fields["surface"].s, j.fields["deep"].s)
  }

  /** The decoding array, item by item; fails as soon as one item is off-shape. */
  function DecodeItems(items: seq<Json>): (r: Option<seq<DecodingItem>>)
    ensures r.Some? <==> forall i :: 0 <= i < |items| ==> ItemConforms(items[i])
    ensures r.Some? ==> |r.value| == |items|
    ensures r.Some? ==> forall i :: 0 <= i < |items| ==> r.value[i] == DecodeItem(items[i])
  {
    if items == [] then Some([])
    else if !ItemConforms(items[0]) then None
    else
      match DecodeItems(items[1..])
      case None => None
      case Some(rest) => Some([DecodeItem(items[0])] + rest)
  }

  /** Reads a parsed response as an AnalysisResult; None exactly when the
      document breaks the contract. */
  function Decode(j: Json): (r: Option<AnalysisResult>)
    ensures r.Some? <==> Conforms(j)
    ensures r.Some? ==> ParseProbability(r.value.trust.probability).Some?
    ensures r.Some? ==> ParseResistance(r.value.trust.resistance).Some?
  {
    if !Conforms(j) then None
    else
      var o := j.fields;
      var items := DecodeItems(o["decoding"].items);
      var e := o["emotions"].fields;
      var a := o["advice"].fields;
      Some(AnalysisResult(
        DecodeTrust(o["trust"]),
        items.value,
        Emotions(e["start"].s, e["middle"].s, e["end"].s, e["turningPoint"].s),
        Advice(a["script"].s, a["materials"].s, a["timing"].s)))
  }

  function EncodeItem(d: DecodingItem): Json {
    JObject(map["surface" := JString(d.surface), "deep" := JString(d.deep)])
  }

  function EncodeItems(ds: seq<DecodingItem>): (r: seq<Json>)
    ensures |r| == |ds| && forall i :: 0 <= i < |ds| ==> r[i] == EncodeItem(ds[i])
  {
    seq(|ds|, i requires 0 <= i < |ds| => EncodeItem(ds[i]))
  }

  /** The JSON document the service would send for a result. */
  function Encode(a: AnalysisResult): Json {
    JObject(map[
      "trust" := JObject(map[
        "score" := JNumber(a.trust.score as real),
        "probability" := JString(a.trust.probability),
        "resistance" := JString(a.trust.resistance)]),
      "decoding" := JArray(EncodeItems(a.decoding)),
      "emotions" := JObject(map[
        "start" := JString(a.emotions.start),
        "middle" := JString(a.emotions.middle),
        "end" := JString(a.emotions.end),
        "turningPoint" := JString(a.emotions.turningPoint)]),
      "advice" := JObject(map[
        "script" := JString(a.advice.script),
        "materials" := JString(a.advice.materials),
        "timing" := JString(a.advice.timing)])])
  }

  /** Every result whose enums are within their literals is admitted by the
      contract and reads back unchanged. */
  lemma DecodeEncode(a: AnalysisResult)
    requires ParseProbability(a.trust.probability).Some? && ParseResistance(a.trust.resistance).Some?
    ensures Conforms(Encode(a))
    ensures Decode(Encode(a)) == Some(a)
  {
    var j := Encode(a);
    var items := EncodeItems(a.decoding);
    assert j.fields["decoding"].items == items;
    forall i | 0 <= i < |items| ensures ItemConforms(items[i]) && DecodeItem(items[i]) == a.decoding[i] {
    }
    var ds := DecodeItems(items);
    assert ds.Some? && ds.value == a.decoding;
    assert (a.trust.score as real).Floor == a.trust.score;
  }

  /** A document that the contract admits although its score is outside the
      documented 0..100 range: the schema types the score only as an integer. */
  function OutOfRangeReply(): Json {
    Encode(AnalysisResult(TrustMetrics(101, "High", "Green"), [], Emotions("", "", "", ""), Advice("", "", "")))
  }

  lemma ScoreRangeNotEnforced()
    ensures Decode(OutOfRangeReply()).Some?
    ensures !Decode(OutOfRangeReply()).value.trust.Valid()
  {
    DecodeEncode(AnalysisResult(TrustMetrics(101, "High", "Green"), [], Emotions("", "", "", ""), Advice("", "", "")));
  }
}
