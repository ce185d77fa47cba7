/**
 * The /ask and /imagine commands. /ask picks one text backend by a fixed
 * priority and cuts long answers; /imagine appends a style suffix to the
 * prompt and asks the legacy service for an image. What each backend call
 * returns is an input, read through that backend's own adapter model.
 */
module AiCommands {
  import opened Wrappers
  import opened GoStrings
  import Base64
  import R = Registry
  import GS = GeminiStudio
  import VG = VertexGemini
  import LS = LegacyService
  import AiFactory

  const EmptyQuestion := "❌ 質問を入力してください"
  const AskUnavailable := "❌ AI機能は現在利用できません（設定を確認してください）"
  const AskFailedLead := "AIからの応答取得に失敗しました: "

  /** Answers longer than this many characters are cut. */
  const AnswerLimit := 1900
  const OmittedNote := "...\n\n*（回答が長すぎるため省略されました）*"

  /** AICommand: at most one of the three backends is set by each constructor, but all three may be. */
  datatype AICommand = AICommand(aiService: Option<LS.Service>, geminiStudio: Option<GS.Service>, vertexGemini: Option<VG.Service>)

  function NewAICommand(s: LS.Service): AICommand { AICommand(Some(s), None, None) }
  function NewAICommandWithStudio(s: GS.Service): AICommand { AICommand(None, Some(s), None) }
  function NewAICommandWithVertex(s: VG.Service): AICommand { AICommand(None, None, Some(s)) }

  /** The backend Execute asks: Vertex Gemini, then Gemini Studio, then the legacy service. */
  function AskBackend(c: AICommand): (b: R.Backend)
    ensures b == R.VertexBackend <==> c.vertexGemini.Some?
    ensures b == R.StudioBackend <==> c.vertexGemini.None? && c.geminiStudio.Some?
    ensures b == R.LegacyBackend <==> c.vertexGemini.None? && c.geminiStudio.None? && c.aiService.Some?
    ensures b == R.NoBackend <==> c.vertexGemini.None? && c.geminiStudio.None? && c.aiService.None?
  {
    if c.vertexGemini.Some? then R.VertexBackend
    else if c.geminiStudio.Some? then R.StudioBackend
    else if c.aiService.Some? then R.LegacyBackend
    else R.NoBackend
  }

  /** Each constructor yields a command that asks the backend it was built with. */
  lemma ConstructorsAskTheirBackend(ls: LS.Service, gs: GS.Service, vg: VG.Service)
    ensures AskBackend(NewAICommand(ls)) == R.LegacyBackend
    ensures AskBackend(NewAICommandWithStudio(gs)) == R.StudioBackend
    ensures AskBackend(NewAICommandWithVertex(vg)) == R.VertexBackend
  {
  }

  /** The command's priority is the factory's primary-service priority. */
  lemma AskBackendIsPrimary(s: AiFactory.Services, c: AICommand)
    requires s.Valid()
    requires c.vertexGemini == s.vertexGemini && c.geminiStudio == s.geminiStudio && c.aiService == s.legacyService
    ensures AskBackend(c) == R.VertexBackend <==> s.GetPrimaryService() == AiFactory.VertexGeminiType
    ensures AskBackend(c) == R.StudioBackend <==> s.GetPrimaryService() == AiFactory.StudioType
    ensures AskBackend(c) == R.LegacyBackend <==> s.GetPrimaryService() == AiFactory.VertexLegacyType
    ensures AskBackend(c) == R.NoBackend <==> s.GetPrimaryService() == AiFactory.NoService
  {
  }

  datatype AskReply =
    | AskRejected(message: string)                     // ephemeral reply, no backend asked
    | AskFailed(detail: string)                        // error embed
    | Answered(question: string, answer: string)       // answer embed

  /** What Execute shows for a backend's result: the error embed, or the answer cut at AnswerLimit. */
  function PresentAnswer(question: string, answer: Result<string>): (r: AskReply)
    ensures answer.Err? ==> r == AskFailed(AskFailedLead + answer.error)
    ensures answer.Ok? ==> r.Answered? && r.question == question
    ensures answer.Ok? && |answer.value| <= AnswerLimit ==> r.answer == answer.value
    ensures answer.Ok? && |answer.value| > AnswerLimit ==>
              |r.answer| == AnswerLimit + |OmittedNote| && HasPrefix(r.answer, answer.value[..AnswerLimit]) && HasSuffix(r.answer, OmittedNote)
  {
    match answer
    case Err(e) => AskFailed(AskFailedLead + e)
    case Ok(a) => Answered(question, CutWithNote(a, AnswerLimit, OmittedNote))
  }

  /**
   * AICommand.Execute. `vertexReply`, `studioExchange` and `legacyPredict`
   * are what each backend's call returns; only the chosen one is read.
   */
  method AskExecute(c: AICommand, question: string, userID: string,
                    vertexReply: Result<VG.Response>, studioExchange: GS.Exchange<GS.GeminiResponse>, legacyPredict: Result<seq<LS.Value>>)
    returns (asked: R.Backend, answer: Result<string>, reply: AskReply)
    ensures question == "" ==> asked == R.NoBackend && reply == AskRejected(EmptyQuestion)
    ensures question != "" && AskBackend(c) == R.NoBackend ==> asked == R.NoBackend && reply == AskRejected(AskUnavailable)
    ensures question != "" ==> asked == AskBackend(c)
    ensures asked != R.NoBackend ==> reply == PresentAnswer(question, answer)
    ensures asked == R.VertexBackend ==>
              (answer.Ok? <==> vertexReply.Ok? && VG.FirstCandidateParts(vertexReply.value).Ok? && VG.TextOf(VG.FirstCandidateParts(vertexReply.value).value) != "")
              && (answer.Ok? ==> answer.value == VG.TextOf(VG.FirstCandidateParts(vertexReply.value).value))
    ensures asked == R.StudioBackend ==> answer == GS.ReadAnswer(studioExchange)
    ensures asked == R.LegacyBackend ==> answer == LS.AskGemini(c.aiService.value, question, userID, legacyPredict)
  {
    asked := R.NoBackend;
    answer := Err("");
    if question == "" {
      reply := AskRejected(EmptyQuestion);
      return;
    }
    if c.aiService.None? && c.geminiStudio.None? && c.vertexGemini.None? {
      reply := AskRejected(AskUnavailable);
      return;
    }
    if c.vertexGemini.Some? {
      asked := R.VertexBackend;
      answer := VG.AskGemini(c.vertexGemini.value, question, userID, vertexReply);
    } else if c.geminiStudio.Some? {
      asked := R.StudioBackend;
      answer := GS.ReadAnswer(studioExchange);
    } else {
      asked := R.LegacyBackend;
      answer := LS.AskGemini(c.aiService.value, question, userID, legacyPredict);
    }
    reply := PresentAnswer(question, answer);
  }

  const EmptyPrompt := "❌ 画像の説明を入力してください"
  const ImageUnavailable := "❌ AI画像生成機能は現在利用できません（設定を確認してください）"
  const ImageFailedLead := "エラー: "

  /** The five selectable styles. */
  const StyleKeys := ["artistic", "photorealistic", "anime", "game", "sketch"]

  /** The text a style appends to the prompt; no text for an empty or unknown style. */
  function StyleSuffix(style: string): (r: string)
    ensures r != "" <==> style in StyleKeys
  {
    match style
    case "artistic" => ", artistic style, masterpiece"
    case "photorealistic" => ", photorealistic, high quality photo, 8k resolution"
    case "anime" => ", anime style, manga art, japanese animation"
    case "game" => ", game art, concept art, digital painting"
    case "sketch" => ", pencil sketch, hand drawn, black and white"
    case _ => ""
  }

  /** The prompt sent to Imagen: the user's prompt, extended by the style's suffix. */
  function FullPrompt(prompt: string, style: string): (r: string)
    ensures HasPrefix(r, prompt)
    ensures r == prompt <==> style !in StyleKeys
  {
    var r := prompt + StyleSuffix(style);
    assert r[..|prompt|] == prompt;
    r
  }

  /** getStyleName: the display name of a style key; anything else is shown as given. */
  function GetStyleName(style: string): (r: string)
    ensures style in StyleKeys ==> r != style && r != ""
    ensures style !in StyleKeys ==> r == style
  {
    match style
    case "artistic" => "🎨 アート"
    case "photorealistic" => "📷 写実的"
    case "anime" => "🖼️ アニメ"
    case "game" => "🎮 ゲーム"
    case "sketch" => "✏️ スケッチ"
    case _ => style
  }

  /** The suffix table and the name table cover the same styles. */
  lemma StyleTablesAgree(style: string)
    ensures StyleSuffix(style) != "" <==> GetStyleName(style) != style
  {
  }

  /** The five style display names are pairwise distinct. */
  lemma StyleNamesDistinct()
    ensures forall i, j :: 0 <= i < j < |StyleKeys| ==> GetStyleName(StyleKeys[i]) != GetStyleName(StyleKeys[j])
  {
  }

  datatype ImageCommand = ImageCommand(aiService: Option<LS.Service>)

  datatype ImageReply =
    | ImageRejected(message: string)
    | GenerationFailed(detail: string)
    | Generated(prompt: string, image: seq<Base64.byte>, styleField: Option<string>)

  /**
   * ImageCommand.Execute: the prompt check, then the service check, then one
   * Imagen call with the styled prompt; `predict` is that call's result.
   */
  function ImageExecute(c: ImageCommand, prompt: string, style: string, userID: string, predict: Result<seq<LS.Value>>): (r: ImageReply)
    ensures prompt == "" ==> r == ImageRejected(EmptyPrompt)
    ensures prompt != "" && c.aiService.None? ==> r == ImageRejected(ImageUnavailable)
    ensures r.ImageRejected? <==> prompt == "" || c.aiService.None?
    ensures prompt != "" && c.aiService.Some? ==>
              var g := LS.GenerateImage(c.aiService.value, FullPrompt(prompt, style), userID, predict);
              (g.Err? ==> r == GenerationFailed(ImageFailedLead + g.error)) && (g.Ok? ==> r.Generated? && r.image == g.value)
    ensures r.Generated? ==> r.prompt == prompt && (r.styleField.Some? <==> style != "")
    ensures r.Generated? && style != "" ==> r.styleField == Some(GetStyleName(style))
  {
    if prompt == "" then ImageRejected(EmptyPrompt)
    else if c.aiService.None? then ImageRejected(ImageUnavailable)
    else
      match LS.GenerateImage(c.aiService.value, FullPrompt(prompt, style), userID, predict)
      case Err(e) => GenerationFailed(ImageFailedLead + e)
      case Ok(image) => Generated(prompt, image, if style != "" then Some(GetStyleName(style)) else None)
  }

  /** An image Imagen returns encoded reaches the reply unchanged, whatever the style. */
  lemma ImageReachesReply(s: LS.Service, prompt: string, style: string, userID: string, image: seq<Base64.byte>)
    requires prompt != ""
    ensures
      var predict := Ok([LS.StructValue(map["bytesBase64Encoded" := LS.StringValue(Base64.Encode(image))])]);
      ImageExecute(ImageCommand(Some(s)), prompt, style, userID, predict).Generated?
      && ImageExecute(ImageCommand(Some(s)), prompt, style, userID, predict).image == image
  {
    LS.GenerateImageRoundTrip(s, FullPrompt(prompt, style), userID, image);
  }
}
