/**
 * The Google AI Studio adapter: the request it builds for a question and the
 * checks it applies to the decoded `generateContent` response. The HTTP round
 * trip is an input: an `Exchange` says how far the call got.
 */
module GeminiStudio {
  import opened Wrappers
  import opened GoStrings

  const DefaultModel := "gemini-2.5-pro-latest"
  const BlockMediumAndAbove := "BLOCK_MEDIUM_AND_ABOVE"
  const NoValidAnswer := "有効な回答が得られませんでした"

  /** The fixed instructions that precede the user ID in every question. */
  const AskPreamble := @"あなたは「Luna AI」です。Discord ボット「Luna」に統合された高性能AIアシスタントとして動作しています。

以下のガイドラインに従って回答してください：
- 親切で知識豊富なLuna AIとして振る舞う
- 日本語で丁寧に回答する
- Discord用に最適化された回答（2000文字以内）
- 最新の情報（2025年）に基づいて回答
- 必要に応じて絵文字を使って親しみやすく
- 自分を「Luna AI」または「私」と呼ぶ
- Geminiという名前は一切使わない

"

  datatype Service = Service(apiKey: string, model: string)

  /** NewGeminiStudioService: an empty model name selects the default model. */
  function NewGeminiStudioService(apiKey: string, model: string): (s: Service)
    ensures s.apiKey == apiKey && s.model != ""
    ensures model != "" ==> s.model == model
  {
    Service(apiKey, if model == "" then DefaultModel else model)
  }

  /** The generateContent URL for the service's model and key. */
  function Endpoint(s: Service): string
  {
    "https://generativelanguage.googleapis.com/v1beta/models/" + s.model + ":generateContent?key=" + s.apiKey
  }

  datatype Part = Part(text: string)
  datatype Content = Content(parts: seq<Part>, role: string)
  datatype SafetySetting = SafetySetting(category: string, threshold: string)

  /** The request body; the floating-point generation parameters are not modelled. */
  datatype GeminiRequest = GeminiRequest(contents: seq<Content>, topK: int, maxOutputTokens: int, safetySettings: seq<SafetySetting>)

  datatype APIError = APIError(code: int, message: string, status: string)
  datatype Candidate = Candidate(content: Content, finishReason: string)
  datatype GeminiResponse = GeminiResponse(candidates: seq<Candidate>, error: Option<APIError>)

  /** How far an HTTP exchange got: the request failed, the body could not be read or decoded, or it decoded. */
  datatype Exchange<R> = SendFailed(sendError: string) | ReadFailed(readError: string) | DecodeFailed(decodeError: string) | Decoded(response: R)

  /** The four harm categories, each blocked at medium probability and above. */
  function SafetySettings(): (r: seq<SafetySetting>)
    ensures |r| == 4
    ensures forall i :: 0 <= i < |r| ==> r[i].threshold == BlockMediumAndAbove
    ensures forall i, j :: 0 <= i < j < |r| ==> r[i].category != r[j].category
  {
    [SafetySetting("HARM_CATEGORY_HATE_SPEECH", BlockMediumAndAbove),
     SafetySetting("HARM_CATEGORY_DANGEROUS_CONTENT", BlockMediumAndAbove),
     SafetySetting("HARM_CATEGORY_SEXUALLY_EXPLICIT", BlockMediumAndAbove),
     SafetySetting("HARM_CATEGORY_HARASSMENT", BlockMediumAndAbove)]
  }

  /** The prompt: preamble, then the user ID, then the question. */
  function AskPrompt(userID: string, question: string): (p: string)
    ensures HasPrefix(p, AskPreamble + "ユーザーID: " + userID + "\n")
    ensures HasSuffix(p, "ユーザーの質問: " + question)
  {
    var head := AskPreamble + "ユーザーID: " + userID + "\n";
    var p := head + "ユーザーの質問: " + question;
    assert p[..|head|] == head;
    assert p[|p| - |"ユーザーの質問: " + question|..] == "ユーザーの質問: " + question;
    p
  }

  /** The request AskGemini sends: one user content with one text part. */
  function AskRequest(userID: string, question: string): (r: GeminiRequest)
    ensures |r.contents| == 1 && r.contents[0].role == "user"
    ensures r.contents[0].parts == [Part(AskPrompt(userID, question))]
    ensures r.safetySettings == SafetySettings()
  {
    GeminiRequest([Content([Part(AskPrompt(userID, question))], "user")], 64, 2048, SafetySettings())
  }

  /**
   * The checks applied after the call: transport errors, then the error
   * object, then the first candidate's first part.
   */
  function ReadAnswer(x: Exchange<GeminiResponse>): (r: Result<string>)
    ensures x.Decoded? && x.response.error.Some? ==> r == Err("API エラー: " + x.response.error.value.message)
    ensures r.Ok? <==> x.Decoded? && x.response.error.None? && |x.response.candidates| > 0
                       && |x.response.candidates[0].content.parts| > 0
    ensures r.Ok? ==> r.value == x.response.candidates[0].content.parts[0].text
    ensures x.Decoded? && x.response.error.None? && !r.Ok? ==> r == Err(NoValidAnswer)
  {
    match x
    case SendFailed(e) => Err("APIリクエストに失敗: " + e)
    case ReadFailed(e) => Err("レスポンスの読み取りに失敗: " + e)
    case DecodeFailed(e) => Err("レスポンスのデコードに失敗: " + e)
    case Decoded(resp) =>
      if resp.error.Some? then Err("API エラー: " + resp.error.value.message)
      else if |resp.candidates| == 0 || |resp.candidates[0].content.parts| == 0 then Err(NoValidAnswer)
      else Ok(resp.candidates[0].content.parts[0].text)
  }

  /** An error object wins over any candidates that come with it. */
  lemma ErrorObjectFirst(resp: GeminiResponse, text: string)
    requires resp.error.Some? && |resp.candidates| > 0 && resp.candidates[0].content.parts == [Part(text)]
    ensures ReadAnswer(Decoded(resp)).Err?
    ensures ReadAnswer(Decoded(resp.(error := None))) == Ok(text)
  {
  }

  /** Only part 0 of candidate 0 matters: later parts and candidates never change the answer. */
  lemma OnlyFirstPartRead(resp: GeminiResponse, extraParts: seq<Part>, extraCandidates: seq<Candidate>)
    requires resp.error.None? && |resp.candidates| > 0 && |resp.candidates[0].content.parts| > 0
    ensures
      var c0 := resp.candidates[0];
      var c0' := c0.(content := c0.content.(parts := c0.content.parts + extraParts));
      ReadAnswer(Decoded(resp.(candidates := [c0'] + resp.candidates[1..] + extraCandidates))) == ReadAnswer(Decoded(resp))
  {
  }
}
