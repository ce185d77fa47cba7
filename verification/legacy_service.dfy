/**
 * The legacy Vertex AI adapter, which talks to the prediction endpoint with
 * protobuf `Value` trees. The reply's first prediction is walked down
 * candidates[0].content.parts[0].text (Gemini) or bytesBase64Encoded
 * (Imagen). The prediction call is an input.
 */
module LegacyService {
  import opened Wrappers
  import opened GoStrings
  import Base64
  import CloudConfig
  import GS = GeminiStudio

  /** A structpb.Value. */
  datatype Value =
    | NullValue
    | NumberValue(number: real)
    | StringValue(str: string)
    | BoolValue(flag: bool)
    | StructValue(fields: map<string, Value>)
    | ListValue(values: seq<Value>)

  /** GetStructValue: the fields of a struct, nil for any other kind. */
  function GetStructValue(v: Value): (r: Option<map<string, Value>>)
    ensures r.Some? <==> v.StructValue?
  {
    if v.StructValue? then Some(v.fields) else None
  }

  /** GetListValue: the elements of a list, nil for any other kind. */
  function GetListValue(v: Value): (r: Option<seq<Value>>)
    ensures r.Some? <==> v.ListValue?
  {
    if v.ListValue? then Some(v.values) else None
  }

  /** GetStringValue: the string, "" for any other kind. */
  function GetStringValue(v: Value): (r: string)
    ensures v.StringValue? ==> r == v.str
    ensures !v.StringValue? ==> r == ""
  {
    if v.StringValue? then v.str else ""
  }

  /** The service handle; `hasClient` is false for a service without a client. */
  datatype Service = Service(hasClient: bool, projectID: string, location: string, geminiModel: string, imagenModel: string)

  /** The regional API host the prediction client is pointed at. */
  function ApiEndpoint(location: string): (r: string)
    ensures HasPrefix(r, location) && HasSuffix(r, "-aiplatform.googleapis.com:443")
  {
    var r := location + "-aiplatform.googleapis.com:443";
    assert r[..|location|] == location;
    assert r[|r| - |"-aiplatform.googleapis.com:443"|..] == "-aiplatform.googleapis.com:443";
    r
  }

  /** NewService: a prediction client for the configured location. */
  function NewService(cfg: CloudConfig.GoogleCloudConfig, clientInit: Outcome): (r: Result<Service>)
    ensures r.Ok? <==> clientInit.Pass?
    ensures r.Ok? ==> r.value == Service(true, cfg.ProjectID, cfg.Location, cfg.GeminiModel, cfg.ImagenModel)
    ensures clientInit.Fail? ==> r == Err("failed to create prediction client: " + clientInit.error)
  {
    match clientInit
    case Pass => Ok(Service(true, cfg.ProjectID, cfg.Location, cfg.GeminiModel, cfg.ImagenModel))
    case Fail(e) => Err("failed to create prediction client: " + e)
  }

  /** The publisher model resource a request is sent to. */
  function ModelEndpoint(s: Service, model: string): (r: string)
    ensures HasPrefix(r, "projects/" + s.projectID + "/locations/" + s.location)
    ensures HasSuffix(r, "/publishers/google/models/" + model)
  {
    var head := "projects/" + s.projectID + "/locations/" + s.location;
    var tail := "/publishers/google/models/" + model;
    var r := head + tail;
    assert r[..|head|] == head;
    assert r[|r| - |tail|..] == tail;
    r
  }

  /** One step along a path into a Value tree: a struct field, or the first list element. */
  datatype Step = Field(name: string) | First

  /** Follows a path; None as soon as a step finds the wrong kind, a missing field or an empty list. */
  function Walk(v: Value, path: seq<Step>): Option<Value>
    decreases |path|
  {
    if |path| == 0 then Some(v)
    else match path[0]
      case Field(name) => if v.StructValue? && name in v.fields then Walk(v.fields[name], path[1..]) else None
      case First => if v.ListValue? && |v.values| > 0 then Walk(v.values[0], path[1..]) else None
  }

  /** Where a Gemini prediction holds its answer: candidates[0].content.parts[0].text. */
  const AnswerPath := [Field("candidates"), First, Field("content"), Field("parts"), First, Field("text")]
  /** Where an Imagen prediction holds its image. */
  const ImagePath := [Field("bytesBase64Encoded")]
  /** Where a Gemini instance holds its prompt: contents[0].parts[0].text. */
  const PromptPath := [Field("contents"), First, Field("parts"), First, Field("text")]

  /** The Gemini instance: one user content whose one part is the prompt, plus generation and safety settings. */
  function AskInstance(prompt: string): (v: Value)
    ensures Walk(v, PromptPath) == Some(StringValue(prompt))
    ensures Walk(v, [Field("generationConfig"), Field("topK")]) == Some(NumberValue(64.0))
    ensures Walk(v, [Field("generationConfig"), Field("maxOutputTokens")]) == Some(NumberValue(2048.0))
    ensures Walk(v, [Field("safetySettings"), First, Field("threshold")]) == Some(StringValue(GS.BlockMediumAndAbove))
  {
    var part := StructValue(map["text" := StringValue(prompt)]);
    var content := StructValue(map["role" := StringValue("user"), "parts" := ListValue([part])]);
    var settings := GS.SafetySettings();
    var safety := seq(|settings|, i requires 0 <= i < |settings| =>
      StructValue(map["category" := StringValue(settings[i].category), "threshold" := StringValue(settings[i].threshold)]));
    var generation := StructValue(map[
      "temperature" := NumberValue(0.8), "topP" := NumberValue(0.95),
      "topK" := NumberValue(64.0), "maxOutputTokens" := NumberValue(2048.0)]);
    var v := StructValue(map["contents" := ListValue([content]), "generationConfig" := generation, "safetySettings" := ListValue(safety)]);
    assert Walk(part, [Field("text")]) == Some(StringValue(prompt));
    assert Walk(safety[0], [Field("threshold")]) == Some(StringValue(GS.BlockMediumAndAbove));
    v
  }

  /** The Imagen instance: the enhanced prompt, one sample, square, Japanese, no watermark. */
  function ImageInstance(prompt: string): (v: Value)
    ensures Walk(v, [Field("prompt")]) == Some(StringValue(EnhancedPrompt(prompt)))
    ensures Walk(v, [Field("sampleCount")]) == Some(NumberValue(1.0))
  {
    StructValue(map[
      "prompt" := StringValue(EnhancedPrompt(prompt)), "sampleCount" := NumberValue(1.0),
      "aspectRatio" := StringValue("1:1"), "safetyFilterLevel" := StringValue("block_some"),
      "personGeneration" := StringValue("allow_adult"), "addWatermark" := BoolValue(false),
      "language" := StringValue("ja")])
  }

  /** The description wrapped in the fixed style instructions. */
  function EnhancedPrompt(prompt: string): (r: string)
    ensures HasPrefix(r, ImageLead + prompt) && HasSuffix(r, ImageStyle)
  {
    var r := ImageLead + prompt + ImageStyle;
    assert r[..|ImageLead + prompt|] == ImageLead + prompt;
    assert r[|r| - |ImageStyle|..] == ImageStyle;
    r
  }

  const ImageLead := "Generate a stunning, ultra-high-quality image based on this description: "
  const ImageStyle := "\nStyle: Digital art, highly detailed, vibrant colors, professional quality, 8K resolution\nImagen 4.0 enhanced: photorealistic details, perfect composition, cinematic lighting"

  /** A PredictRequest: the model resource and the instances. */
  datatype PredictRequest = PredictRequest(endpoint: string, instances: seq<Value>)

  /** How a Go function ends: it returns, or it reads `.Fields` of a nil *structpb.Struct and panics. */
  datatype Ending<T> = Returned(result: Result<T>) | NilDereference

  const CallFailed := "Gemini APIの呼び出しに失敗しました: "
  const NoPrediction := "Geminiからの応答がありません"
  const ParseFailed := "レスポンスの解析に失敗しました"
  const ImagenCallFailed := "Imagen APIの呼び出しに失敗しました: "
  const NoImagenPrediction := "Imagenからの応答がありません"
  const ImageMissing := "画像データの抽出に失敗しました"

  /**
   * Answer extraction as written: `GetStructValue().Fields` is read on the
   * prediction, on candidates[0] and on parts[0] with no nil check, so a
   * value of another kind at any of those three places panics.
   */
  function ExtractAnswerAsWritten(prediction: Value): (e: Ending<string>)
    ensures e.Returned? ==> e.result == ExtractAnswer(prediction)
    ensures e.NilDereference? ==> ExtractAnswer(prediction) == Err(ParseFailed)
  {
    if !prediction.StructValue? then NilDereference
    else if "candidates" !in prediction.fields then Returned(Err(ParseFailed))
    else
      var candidates := GetListValue(prediction.fields["candidates"]);
      if candidates.None? || |candidates.value| == 0 then Returned(Err(ParseFailed))
      else if !candidates.value[0].StructValue? then NilDereference
      else
        var candidate := candidates.value[0].fields;
        if "content" !in candidate then Returned(Err(ParseFailed))
        else
          var content := GetStructValue(candidate["content"]);
          if content.None? || "parts" !in content.value then Returned(Err(ParseFailed))
          else
            var parts := GetListValue(content.value["parts"]);
            if parts.None? || |parts.value| == 0 then Returned(Err(ParseFailed))
            else if !parts.value[0].StructValue? then NilDereference
            else if "text" in parts.value[0].fields then Returned(Ok(TrimSpace(GetStringValue(parts.value[0].fields["text"]))))
            else Returned(Err(ParseFailed))
  }

  /**
   * Answer extraction as intended: the same walk, where a value of the wrong
   * kind ends in the parse error like every other missing step.
   */
  function ExtractAnswer(prediction: Value): (r: Result<string>)
    ensures r.Ok? <==> Walk(prediction, AnswerPath).Some?
    ensures r.Ok? ==> r.value == TrimSpace(GetStringValue(Walk(prediction, AnswerPath).value))
    ensures !r.Ok? ==> r == Err(ParseFailed)
  {
    var candidates := if prediction.StructValue? && "candidates" in prediction.fields
      then GetListValue(prediction.fields["candidates"]) else None;
    if candidates.None? || |candidates.value| == 0 || !candidates.value[0].StructValue? then Err(ParseFailed)
    else
      var candidate := candidates.value[0].fields;
      var content := if "content" in candidate then GetStructValue(candidate["content"]) else None;
      if content.None? || "parts" !in content.value then Err(ParseFailed)
      else
        var parts := GetListValue(content.value["parts"]);
        if parts.None? || |parts.value| == 0 || !parts.value[0].StructValue? || "text" !in parts.value[0].fields then Err(ParseFailed)
        else Ok(TrimSpace(GetStringValue(parts.value[0].fields["text"])))
  }

  /** The smallest reply that reaches the answer: one candidate, one part, the text. */
  function AnswerPrediction(text: string): Value
  {
    StructValue(map["candidates" := ListValue([
      StructValue(map["content" := StructValue(map["parts" := ListValue([StructValue(map["text" := StringValue(text)])])])])])])
  }

  /** Extraction reads back the text of a well-formed reply, trimmed. */
  lemma ExtractAnswerPrediction(text: string)
    ensures ExtractAnswer(AnswerPrediction(text)) == Ok(TrimSpace(text))
    ensures ExtractAnswerAsWritten(AnswerPrediction(text)) == Returned(Ok(TrimSpace(text)))
  {
    var v := AnswerPrediction(text);
    assert Walk(v, AnswerPath) == Some(StringValue(text));
  }

  /** A reply with further parts after the text and further candidates after the first. */
  function ReplyWithExtras(text: string, moreParts: seq<Value>, moreCandidates: seq<Value>): Value
  {
    var part := StructValue(map["text" := StringValue(text)]);
    var candidate := StructValue(map["content" := StructValue(map["parts" := ListValue([part] + moreParts)])]);
    StructValue(map["candidates" := ListValue([candidate] + moreCandidates)])
  }

  /** Later parts and later candidates never change the answer, in either version. */
  lemma LaterCandidatesIgnored(text: string, moreParts: seq<Value>, moreCandidates: seq<Value>)
    ensures ExtractAnswer(ReplyWithExtras(text, moreParts, moreCandidates)) == Ok(TrimSpace(text))
    ensures ExtractAnswerAsWritten(ReplyWithExtras(text, moreParts, moreCandidates)) == Returned(Ok(TrimSpace(text)))
  {
    var v := ReplyWithExtras(text, moreParts, moreCandidates);
    assert Walk(v, AnswerPath) == Some(StringValue(text));
  }

  /** A reply whose first candidate is a string, not a struct, crashes the extraction as written. */
  lemma CandidateStringPanics()
    ensures ExtractAnswerAsWritten(StructValue(map["candidates" := ListValue([StringValue("")])])) == NilDereference
    ensures ExtractAnswer(StructValue(map["candidates" := ListValue([StringValue("")])])) == Err(ParseFailed)
  {
  }

  /** The request AskGemini sends. */
  function AskRequest(s: Service, question: string, userID: string): (r: PredictRequest)
    ensures r.endpoint == ModelEndpoint(s, s.geminiModel) && |r.instances| == 1
    ensures Walk(r.instances[0], PromptPath) == Some(StringValue(GS.AskPrompt(userID, question)))
  {
    PredictRequest(ModelEndpoint(s, s.geminiModel), [AskInstance(GS.AskPrompt(userID, question))])
  }

  /** AskGemini as written: the call error, no predictions, then the panicking extraction. */
  function AskGeminiAsWritten(s: Service, question: string, userID: string, predict: Result<seq<Value>>): (e: Ending<string>)
    ensures e.NilDereference? <==> predict.Ok? && |predict.value| > 0 && ExtractAnswerAsWritten(predict.value[0]).NilDereference?
  {
    match predict
    case Err(err) => Returned(Err(CallFailed + err))
    case Ok(predictions) =>
      if |predictions| == 0 then Returned(Err(NoPrediction)) else ExtractAnswerAsWritten(predictions[0])
  }

  /** AskGemini: the call error, no predictions, a reply without the answer path, or the trimmed answer. */
  function AskGemini(s: Service, question: string, userID: string, predict: Result<seq<Value>>): (r: Result<string>)
    ensures predict.Err? ==> r == Err(CallFailed + predict.error)
    ensures predict == Ok([]) ==> r == Err(NoPrediction)
    ensures r.Ok? <==> predict.Ok? && |predict.value| > 0 && Walk(predict.value[0], AnswerPath).Some?
    ensures r.Ok? ==> r.value == TrimSpace(GetStringValue(Walk(predict.value[0], AnswerPath).value))
    ensures AskGeminiAsWritten(s, question, userID, predict).Returned? ==> AskGeminiAsWritten(s, question, userID, predict).result == r
  {
    match predict
    case Err(err) => Err(CallFailed + err)
    case Ok(predictions) =>
      if |predictions| == 0 then Err(NoPrediction) else ExtractAnswer(predictions[0])
  }

  /** The request GenerateImage sends. */
  function ImageRequest(s: Service, prompt: string): (r: PredictRequest)
    ensures r.endpoint == ModelEndpoint(s, s.imagenModel) && |r.instances| == 1
    ensures Walk(r.instances[0], [Field("prompt")]) == Some(StringValue(EnhancedPrompt(prompt)))
  {
    PredictRequest(ModelEndpoint(s, s.imagenModel), [ImageInstance(prompt)])
  }

  /** Image extraction as written: `.Fields` of the prediction is read with no nil check. */
  function ExtractImageAsWritten(prediction: Value): (e: Ending<seq<Base64.byte>>)
    ensures e.NilDereference? <==> !prediction.StructValue?
    ensures e.Returned? ==> e.result == ExtractImage(prediction)
  {
    if !prediction.StructValue? then NilDereference
    else if "bytesBase64Encoded" in prediction.fields then Returned(Base64.Decode(GetStringValue(prediction.fields["bytesBase64Encoded"])))
    else Returned(Err(ImageMissing))
  }

  /** Image extraction as intended: the field decoded as standard base64, or the extraction error. */
  function ExtractImage(prediction: Value): (r: Result<seq<Base64.byte>>)
    ensures Walk(prediction, ImagePath).None? ==> r == Err(ImageMissing)
    ensures Walk(prediction, ImagePath).Some? ==> r == Base64.Decode(GetStringValue(Walk(prediction, ImagePath).value))
  {
    if prediction.StructValue? && "bytesBase64Encoded" in prediction.fields
    then Base64.Decode(GetStringValue(prediction.fields["bytesBase64Encoded"]))
    else Err(ImageMissing)
  }

  /** GenerateImage: the call error, no predictions, then the decoded image. */
  function GenerateImage(s: Service, prompt: string, userID: string, predict: Result<seq<Value>>): (r: Result<seq<Base64.byte>>)
    ensures predict.Err? ==> r == Err(ImagenCallFailed + predict.error)
    ensures predict == Ok([]) ==> r == Err(NoImagenPrediction)
    ensures predict.Ok? && |predict.value| > 0 ==> r == ExtractImage(predict.value[0])
  {
    match predict
    case Err(err) => Err(ImagenCallFailed + err)
    case Ok(predictions) =>
      if |predictions| == 0 then Err(NoImagenPrediction) else ExtractImage(predictions[0])
  }

  /** An image the service encodes comes back unchanged. */
  lemma GenerateImageRoundTrip(s: Service, prompt: string, userID: string, image: seq<Base64.byte>)
    ensures GenerateImage(s, prompt, userID, Ok([StructValue(map["bytesBase64Encoded" := StringValue(Base64.Encode(image))])])) == Ok(image)
  {
    Base64.DecodeEncode(image);
  }

  /** Close: a service without a client does nothing and reports no error. */
  function Close(s: Service, clientClose: Outcome): (r: Outcome)
    ensures !s.hasClient ==> r == Pass
    ensures s.hasClient ==> r == clientClose
  {
    if s.hasClient then clientClose else Pass
  }
}
