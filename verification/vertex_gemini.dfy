/**
 * The Vertex AI Gemini adapter (genai client): the prompts it sends and how
 * it turns the first candidate into an answer by joining its text parts.
 * The client call is an input: a `Result` holding the response or the error.
 */
module VertexGemini {
  import opened Wrappers
  import opened GoStrings
  import Base64
  import CloudConfig

  /** A genai part: text, image data, or any other kind the adapter skips. */
  datatype Part = Text(text: string) | ImageData(mimeType: string, data: seq<Base64.byte>) | OtherPart
  datatype Content = Content(parts: seq<Part>, role: string)
  /** A candidate; `content` is nil when the model returned none. */
  datatype Candidate = Candidate(content: Option<Content>)
  datatype Response = Response(candidates: seq<Candidate>)

  /** The service handle; `hasClient` is false for a service without a client. */
  datatype Service = Service(hasClient: bool, projectID: string, location: string, model: string)

  /** NewVertexGeminiService: a client built for the project and location, a model named by GeminiModel. */
  function NewVertexGeminiService(cfg: CloudConfig.GoogleCloudConfig, clientInit: Outcome): (r: Result<Service>)
    ensures r.Ok? <==> clientInit.Pass?
    ensures r.Ok? ==> r.value == Service(true, cfg.ProjectID, cfg.Location, cfg.GeminiModel)
  {
    match clientInit
    case Pass => Ok(Service(true, cfg.ProjectID, cfg.Location, cfg.GeminiModel))
    case Fail(e) => Err("failed to create genai client: " + e)
  }

  const AskPreamble := @"あなたは「Luna AI」です。Discord ボット「Luna」に統合された高性能AIアシスタントとして動作しています。

以下のガイドラインに従って回答してください：
- 親切で知識豊富なLuna AIとして振る舞う
- 日本語で丁寧に回答する
- Discord用に最適化された回答（2000文字以内）
- 最新の情報（2025年8月27日時点）に基づいて回答
- 必要に応じて絵文字を使って親しみやすく
- 自分を「Luna AI」または「私」と呼ぶ
- Geminiという名前は一切使わない

"
  const ImagePreamble := @"あなたは「Luna AI」です。Discord ボット「Luna」に統合された高性能AIアシスタントです。

提供された画像を分析して、以下の質問に日本語で丁寧に答えてください：
- Luna AIとして親切に回答する
- 画像の詳細な分析結果を提供する
- Discord用に最適化された回答（2000文字以内）
- 必要に応じて絵文字を使用する

"
  const OcrPersona := @"あなたは「Luna AI」です。Discord ボット「Luna」に統合されたOCR・画像解析機能として動作しています。

"
  const OcrTextInstruction := @"この画像に含まれるすべてのテキストを正確に抽出してください。
以下の点に注意してください：
- 文字は正確に読み取る
- 改行やレイアウトも可能な限り再現する
- 判読困難な部分は [判読不可] と記載する
- 日本語、英語、その他の言語すべて対応する

抽出されたテキスト:"
  const OcrTranslateInstruction := @"この画像に含まれるテキストを抽出し、日本語に翻訳してください。
以下の点に注意してください：
- まず元のテキストを正確に抽出する
- その後、自然な日本語に翻訳する
- 元の言語が日本語の場合は、そのまま抽出結果を返す
- 専門用語は適切に翻訳する

抽出・翻訳結果:"
  const OcrSummarizeInstruction := @"この画像に含まれるテキストを抽出し、内容を要約してください。
以下の点に注意してください：
- まず全文を読み取る
- 重要なポイントを3-5点で要約する
- 簡潔で分かりやすい日本語で記述する
- 元の文書の種類（メール、記事、レポート等）も判断する

要約結果:"
  const OcrAnalyzeInstruction := @"この画像に含まれるテキストや内容を詳細に分析してください。
以下の点を含めて分析してください：
- 文書の種類や目的
- 主要な内容のポイント
- 注意すべき点や重要な情報
- 文書の構造や形式
- その他気づいた点

詳細分析:"
  const OcrDefaultInstruction := "この画像に含まれるテキストを抽出してください。"

  const CallFailed := "Gemini APIの呼び出しに失敗しました: "
  const NoResponse := "Geminiからの応答がありません"
  const EmptyContent := "回答の内容が空です"
  const NoText := "回答のテキストを取得できませんでした"

  /** The text of a list of parts: the text parts joined in order, everything else skipped. */
  function TextOf(parts: seq<Part>): string
  {
    if |parts| == 0 then ""
    else TextOf(parts[..|parts| - 1]) + (if parts[|parts| - 1].Text? then parts[|parts| - 1].text else "")
  }

  lemma {:induction false} TextOfAppend(a: seq<Part>, b: seq<Part>)
    ensures TextOf(a + b) == TextOf(a) + TextOf(b)
    decreases |b|
  {
    if |b| > 0 {
      assert (a + b)[..|a + b| - 1] == a + b[..|b| - 1];
      TextOfAppend(a, b[..|b| - 1]);
    } else {
      assert a + b == a;
    }
  }

  /** Parts that are not text contribute nothing. */
  lemma {:induction false} TextOfNoText(parts: seq<Part>)
    requires forall i :: 0 <= i < |parts| ==> !parts[i].Text?
    ensures TextOf(parts) == ""
    decreases |parts|
  {
    if |parts| > 0 {
      TextOfNoText(parts[..|parts| - 1]);
    }
  }

  /** A single text part is its own text. */
  lemma TextOfSingle(t: string)
    ensures TextOf([Text(t)]) == t
  {
    assert [Text(t)][..0] == [];
  }

  /** The joining loop shared by the three calls. */
  method JoinTextParts(parts: seq<Part>) returns (result: string)
    ensures result == TextOf(parts)
  {
    result := "";
    var i := 0;
    while i < |parts|
      invariant 0 <= i <= |parts|
      invariant result == TextOf(parts[..i])
    {
      assert parts[..i + 1][..i] == parts[..i];
      if parts[i].Text? {
        result := result + parts[i].text;
      }
      i := i + 1;
    }
    assert parts[..i] == parts;
  }

  /** The checks on the first candidate that all three calls make, in order. */
  function FirstCandidateParts(resp: Response): (r: Result<seq<Part>>)
    ensures r.Ok? <==> |resp.candidates| > 0 && resp.candidates[0].content.Some? && |resp.candidates[0].content.value.parts| > 0
    ensures r.Ok? ==> r.value == resp.candidates[0].content.value.parts
    ensures |resp.candidates| == 0 ==> r == Err(NoResponse)
    ensures |resp.candidates| > 0 && !r.Ok? ==> r == Err(EmptyContent)
  {
    if |resp.candidates| == 0 then Err(NoResponse)
    else if resp.candidates[0].content.None? || |resp.candidates[0].content.value.parts| == 0 then Err(EmptyContent)
    else Ok(resp.candidates[0].content.value.parts)
  }

  /** Shared tail of the three calls: call error, candidate checks, then the joined text. */
  method ReadCandidate(reply: Result<Response>) returns (r: Result<string>)
    ensures reply.Err? ==> r == Err(CallFailed + reply.error)
    ensures reply.Ok? && FirstCandidateParts(reply.value).Err? ==> r == Err(FirstCandidateParts(reply.value).error)
    ensures reply.Ok? && FirstCandidateParts(reply.value).Ok? ==> r == Ok(TextOf(FirstCandidateParts(reply.value).value))
  {
    if reply.Err? {
      return Err(CallFailed + reply.error);
    }
    var resp := reply.value;
    if |resp.candidates| == 0 {
      return Err(NoResponse);
    }
    if |resp.candidates| == 0 {
      // The repeated emptiness test in the source never fires.
      assert false;
    }
    var candidate := resp.candidates[0];
    if candidate.content.None? || |candidate.content.value.parts| == 0 {
      return Err(EmptyContent);
    }
    var result := JoinTextParts(candidate.content.value.parts);
    return Ok(result);
  }

  /** The parts sent for a question: one text part, the preamble, the user ID and the question. */
  function AskParts(question: string, userID: string): (p: seq<Part>)
    ensures |p| == 1 && p[0].Text? && HasPrefix(p[0].text, AskPreamble)
    ensures HasSuffix(p[0].text, "ユーザーの質問: " + question)
    ensures |AskPreamble + "ユーザーID: " + userID + "\n"| <= |p[0].text|
    ensures p[0].text[|AskPreamble|..|AskPreamble + "ユーザーID: " + userID + "\n"|] == "ユーザーID: " + userID + "\n"
  {
    var head := AskPreamble + "ユーザーID: " + userID + "\n";
    var text := head + "ユーザーの質問: " + question;
    assert text[..|AskPreamble|] == AskPreamble;
    assert text[|AskPreamble|..|head|] == "ユーザーID: " + userID + "\n";
    assert text[|text| - |"ユーザーの質問: " + question|..] == "ユーザーの質問: " + question;
    [Text(text)]
  }

  /** AskGemini: fails on a call error, on a missing candidate or content, and on an empty joined text. */
  method AskGemini(s: Service, question: string, userID: string, reply: Result<Response>) returns (r: Result<string>)
    ensures reply.Err? ==> r == Err(CallFailed + reply.error)
    ensures r.Ok? <==> reply.Ok? && FirstCandidateParts(reply.value).Ok? && TextOf(FirstCandidateParts(reply.value).value) != ""
    ensures r.Ok? ==> r.value == TextOf(FirstCandidateParts(reply.value).value)
    ensures reply.Ok? && FirstCandidateParts(reply.value).Ok? && !r.Ok? ==> r == Err(NoText)
  {
    r := ReadCandidate(reply);
    if r.Ok? && r.value == "" {
      r := Err(NoText);
    }
  }

  /** The parts sent with an image: the prompt with the question, then the image. */
  function ImageParts(question: string, imageData: seq<Base64.byte>, mimeType: string): (p: seq<Part>)
    ensures |p| == 2 && p[0].Text? && p[1] == ImageData(mimeType, imageData)
    ensures p[0].text == ImagePreamble + "質問: " + question
  {
    [Text(ImagePreamble + "質問: " + question), ImageData(mimeType, imageData)]
  }

  /** AskGeminiWithImage: the same checks, but an empty joined text is returned as an answer. */
  method AskGeminiWithImage(s: Service, question: string, imageData: seq<Base64.byte>, mimeType: string, reply: Result<Response>)
    returns (r: Result<string>)
    ensures reply.Err? ==> r == Err(CallFailed + reply.error)
    ensures r.Ok? <==> reply.Ok? && FirstCandidateParts(reply.value).Ok?
    ensures r.Ok? ==> r.value == TextOf(FirstCandidateParts(reply.value).value)
  {
    r := ReadCandidate(reply);
  }

  /** The OCR instruction for a mode; any other mode gets a one-line default. */
  function OcrInstruction(mode: string): (p: string)
    ensures mode == "text" ==> p == OcrTextInstruction
    ensures mode == "translate" ==> p == OcrTranslateInstruction
    ensures mode == "summarize" ==> p == OcrSummarizeInstruction
    ensures mode == "analyze" ==> p == OcrAnalyzeInstruction
    ensures mode !in {"text", "translate", "summarize", "analyze"} ==> p == OcrDefaultInstruction
  {
    match mode
    case "text" => OcrTextInstruction
    case "translate" => OcrTranslateInstruction
    case "summarize" => OcrSummarizeInstruction
    case "analyze" => OcrAnalyzeInstruction
    case _ => OcrDefaultInstruction
  }

  /** The OCR prompt: the persona, the mode's instruction, then the user ID. */
  function OcrPrompt(mode: string, userID: string): (p: string)
    ensures HasPrefix(p, OcrPersona + OcrInstruction(mode))
    ensures HasSuffix(p, "\n\nユーザーID: " + userID)
  {
    var head := OcrPersona + OcrInstruction(mode);
    var tail := "\n\nユーザーID: " + userID;
    var p := head + tail;
    assert p[..|head|] == head;
    assert p[|p| - |tail|..] == tail;
    p
  }

  /** OCRWithGemini: sends the prompt and the image, and returns the joined text even when it is empty. */
  method OCRWithGemini(s: Service, imageData: seq<Base64.byte>, mimeType: string, userID: string, mode: string, reply: Result<Response>)
    returns (request: seq<Part>, r: Result<string>)
    ensures request == [Text(OcrPrompt(mode, userID)), ImageData(mimeType, imageData)]
    ensures reply.Err? ==> r == Err(CallFailed + reply.error)
    ensures r.Ok? <==> reply.Ok? && FirstCandidateParts(reply.value).Ok?
    ensures r.Ok? ==> r.value == TextOf(FirstCandidateParts(reply.value).value)
  {
    request := [Text(OcrPrompt(mode, userID)), ImageData(mimeType, imageData)];
    r := ReadCandidate(reply);
  }

  /** The joined text is empty exactly when every text part is empty: where AskGemini fails and the image calls answer "". */
  lemma {:induction false} TextOfEmptyIff(parts: seq<Part>)
    ensures TextOf(parts) == "" <==> forall i :: 0 <= i < |parts| && parts[i].Text? ==> parts[i].text == ""
    decreases |parts|
  {
    if |parts| > 0 {
      var init, last := parts[..|parts| - 1], parts[|parts| - 1];
      TextOfEmptyIff(init);
      var tail := if last.Text? then last.text else "";
      assert TextOf(parts) == TextOf(init) + tail;
      if TextOf(parts) == "" {
        forall i | 0 <= i < |parts| && parts[i].Text?
          ensures parts[i].text == ""
        {
          if i < |init| {
            assert init[i] == parts[i];
          }
        }
      } else if TextOf(init) != "" {
        var i :| 0 <= i < |init| && init[i].Text? && init[i].text != "";
        assert parts[i] == init[i];
      }
    }
  }

  /** Close: a service without a client does nothing and reports no error. */
  function Close(s: Service, clientClose: Outcome): (r: Outcome)
    ensures !s.hasClient ==> r == Pass
    ensures s.hasClient ==> r == clientClose
  {
    if s.hasClient then clientClose else Pass
  }
}
