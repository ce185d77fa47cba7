/**
 * The image side of the Google AI Studio adapter: the OCR instruction for
 * each mode, the two-part request that carries the image, the response
 * checks, and the validation of a downloaded image.
 */
module Multimodal {
  import opened Wrappers
  import opened GoStrings
  import Base64
  import GS = GeminiStudio

  const TextInstruction := @"この画像に含まれているテキストを正確に読み取って、そのまま出力してください。
文字の配置や改行も可能な限り再現してください。
テキストが見つからない場合は「テキストが見つかりませんでした」と回答してください。"
  const TranslateInstruction := @"この画像に含まれているテキストを読み取り、日本語に翻訳してください。
元のテキストと翻訳結果の両方を出力してください。
形式：
【元のテキスト】
（抽出されたテキスト）

【日本語翻訳】
（翻訳結果）"
  const SummarizeInstruction := @"この画像に含まれているテキストを読み取り、内容を要約してください。
以下の形式で出力してください：
【抽出テキスト】
（元のテキスト）

【要約】
（要約内容）

【キーポイント】
・主要な点1
・主要な点2
・主要な点3"
  const AnalyzeInstruction := @"この画像を詳細に分析して以下の情報を教えてください：
1. 含まれているテキスト（OCR）
2. 画像の内容・構成
3. テキストの種類（文書、看板、メニューなど）
4. 特徴的な要素

日本語で分かりやすく回答してください。"
  const DefaultInstruction := @"この画像に含まれているテキストを正確に読み取って出力してください。
読みやすい形式で整理して表示してください。"

  /** The instruction for an OCR mode; any other mode gets the default instruction. */
  function OcrInstruction(mode: string): (p: string)
    ensures mode == "text" ==> p == TextInstruction
    ensures mode == "translate" ==> p == TranslateInstruction
    ensures mode == "summarize" ==> p == SummarizeInstruction
    ensures mode == "analyze" ==> p == AnalyzeInstruction
    ensures mode !in {"text", "translate", "summarize", "analyze"} ==> p == DefaultInstruction
  {
    match mode
    case "text" => TextInstruction
    case "translate" => TranslateInstruction
    case "summarize" => SummarizeInstruction
    case "analyze" => AnalyzeInstruction
    case _ => DefaultInstruction
  }

  /** The five instructions are pairwise different, so the mode is visible in the request. */
  lemma InstructionsDistinct()
    ensures |{TextInstruction, TranslateInstruction, SummarizeInstruction, AnalyzeInstruction, DefaultInstruction}| == 5
  {
    assert TextInstruction[3] != TranslateInstruction[3] || TextInstruction[4] != TranslateInstruction[4] || TextInstruction != TranslateInstruction;
  }

  datatype InlineData = InlineData(mimeType: string, data: string)
  datatype MultimodalPart = MultimodalPart(text: string, inlineData: Option<InlineData>)
  datatype MultimodalContent = MultimodalContent(parts: seq<MultimodalPart>, role: string)
  /** The request body; the floating-point generation parameters are not modelled. */
  datatype MultimodalRequest = MultimodalRequest(contents: seq<MultimodalContent>, topK: int, maxOutputTokens: int, safetySettings: seq<GS.SafetySetting>)

  /**
   * The OCR request: one user content whose first part is the instruction
   * and whose second part carries the image, base64-encoded, with the
   * caller's MIME type; decoding that data gives back the image bytes.
   */
  function OcrRequest(imageData: seq<Base64.byte>, mimeType: string, mode: string): (r: MultimodalRequest)
    ensures |r.contents| == 1 && r.contents[0].role == "user" && |r.contents[0].parts| == 2
    ensures r.contents[0].parts[0] == MultimodalPart(OcrInstruction(mode), None)
    ensures r.contents[0].parts[1].inlineData.Some?
    ensures r.contents[0].parts[1].inlineData.value.mimeType == mimeType
    ensures Base64.Decode(r.contents[0].parts[1].inlineData.value.data) == Ok(imageData)
    ensures r.safetySettings == GS.SafetySettings()
  {
    Base64.DecodeEncode(imageData);
    var image := MultimodalPart("", Some(InlineData(mimeType, Base64.Encode(imageData))));
    MultimodalRequest([MultimodalContent([MultimodalPart(OcrInstruction(mode), None), image], "user")], 32, 2048, GS.SafetySettings())
  }

  /**
   * The checks after the OCR call. They are the same checks, in the same
   * order, as for a question; only the answer is trimmed.
   */
  function ReadOcrAnswer(x: GS.Exchange<GS.GeminiResponse>): (r: Result<string>)
    ensures r.Ok? <==> GS.ReadAnswer(x).Ok?
    ensures r.Ok? ==> r.value == TrimSpace(GS.ReadAnswer(x).value)
    ensures r.Err? ==> r == GS.ReadAnswer(x)
  {
    match x
    case SendFailed(e) => Err("APIリクエストに失敗: " + e)
    case ReadFailed(e) => Err("レスポンスの読み取りに失敗: " + e)
    case DecodeFailed(e) => Err("レスポンスのデコードに失敗: " + e)
    case Decoded(resp) =>
      if resp.error.Some? then Err("API エラー: " + resp.error.value.message)
      else if |resp.candidates| == 0 || |resp.candidates[0].content.parts| == 0 then Err(GS.NoValidAnswer)
      else Ok(TrimSpace(resp.candidates[0].content.parts[0].text))
  }

  const SupportedMimeTypes: seq<string> :=
    ["image/jpeg", "image/jpg", "image/png", "image/gif", "image/webp", "image/bmp", "image/svg+xml"]

  const OctetStream := "application/octet-stream"
  const MaxImageSize := 20 * 1024 * 1024

  /** A MIME type is accepted when it contains, or equals, one of the listed types. */
  predicate IsSupportedMime(mime: string)
  {
    exists i :: 0 <= i < |SupportedMimeTypes| && Matches(mime, SupportedMimeTypes[i])
  }

  /** The per-entry test of the allow-list loop. */
  predicate Matches(mime: string, supported: string)
  {
    Contains(mime, supported) || mime == supported
  }

  /** The MIME type DownloadImage works with: the Content-Type header, or octet-stream when it is missing. */
  function MimeOf(contentType: string): (m: string)
    ensures m != ""
    ensures contentType != "" ==> m == contentType
  {
    if contentType == "" then OctetStream else contentType
  }

  /** The default MIME type is never accepted: it has no "g", and every listed type has one. */
  lemma OctetStreamRejected()
    ensures !IsSupportedMime(MimeOf(""))
  {
    OctetStreamHasNoG();
    forall i | 0 <= i < |SupportedMimeTypes|
      ensures !Matches(OctetStream, SupportedMimeTypes[i])
    {
      var t := SupportedMimeTypes[i];
      assert t[3] == 'g';
      if Contains(OctetStream, t) {
        ContainsChar(OctetStream, t, 'g');
      }
      assert OctetStream[0] != t[0];
    }
  }

  lemma OctetStreamHasNoG()
    ensures 'g' !in OctetStream
  {
    assert forall k :: 0 <= k < |OctetStream| ==> OctetStream[k] != 'g';
  }

  /** The allow-list loop of DownloadImage: stops at the first listed type that matches. */
  method CheckSupported(mimeType: string) returns (isSupported: bool)
    ensures isSupported <==> IsSupportedMime(mimeType)
  {
    isSupported := false;
    var i := 0;
    while i < |SupportedMimeTypes|
      invariant 0 <= i <= |SupportedMimeTypes|
      invariant isSupported ==> IsSupportedMime(mimeType)
      invariant !isSupported ==> forall j :: 0 <= j < i ==> !Matches(mimeType, SupportedMimeTypes[j])
    {
      if Matches(mimeType, SupportedMimeTypes[i]) {
        isSupported := true;
        break;
      }
      i := i + 1;
    }
  }

  /** What the HTTP GET produced: no request, no response, or a response with a status, a Content-Type and a body read. */
  datatype HttpReply =
    | BadRequest(requestError: string)
    | SendFailed(sendError: string)
    | Reply(statusCode: int, status: string, contentType: string, body: Result<seq<Base64.byte>>)

  datatype Download = Download(data: seq<Base64.byte>, mimeType: string)

  /** A download succeeds on status 200 with a supported type and a readable body of at most 20 MiB. */
  predicate DownloadSucceeds(reply: HttpReply)
  {
    reply.Reply? && reply.statusCode == 200 && IsSupportedMime(MimeOf(reply.contentType))
    && reply.body.Ok? && |reply.body.value| <= MaxImageSize
  }

  /** The message of a failed download, by the first check it fails. */
  function DownloadError(reply: HttpReply): string
  {
    match reply
    case BadRequest(e) => "リクエストの作成に失敗: " + e
    case SendFailed(e) => "画像のダウンロードに失敗: " + e
    case Reply(code, status, contentType, body) =>
      if code != 200 then "画像のダウンロードに失敗: " + status
      else if !IsSupportedMime(MimeOf(contentType)) then "サポートされていない画像形式: " + MimeOf(contentType)
      else if body.Err? then "画像データの読み取りに失敗: " + body.error
      else "画像ファイルが大きすぎます (最大: 20MB)"
  }

  /**
   * DownloadImage: rejects a non-200 status, then an unsupported type, then
   * an unreadable body, then a body over 20 MiB; otherwise returns the body
   * and the MIME type.
   */
  method DownloadImage(reply: HttpReply) returns (r: Result<Download>)
    ensures r.Ok? <==> DownloadSucceeds(reply)
    ensures r.Ok? ==> r.value == Download(reply.body.value, MimeOf(reply.contentType))
    ensures r.Err? ==> r.error == DownloadError(reply)
    ensures reply.Reply? && reply.statusCode != 200 ==> r == Err("画像のダウンロードに失敗: " + reply.status)
    ensures reply.Reply? && reply.statusCode == 200 && !IsSupportedMime(MimeOf(reply.contentType))
            ==> r == Err("サポートされていない画像形式: " + MimeOf(reply.contentType))
    ensures reply.BadRequest? ==> r == Err("リクエストの作成に失敗: " + reply.requestError)
    ensures reply.SendFailed? ==> r == Err("画像のダウンロードに失敗: " + reply.sendError)
    ensures reply.Reply? && reply.statusCode == 200 && IsSupportedMime(MimeOf(reply.contentType)) && reply.body.Err?
            ==> r == Err("画像データの読み取りに失敗: " + reply.body.error)
    ensures reply.Reply? && reply.statusCode == 200 && IsSupportedMime(MimeOf(reply.contentType))
            && reply.body.Ok? && |reply.body.value| > MaxImageSize
            ==> r == Err("画像ファイルが大きすぎます (最大: 20MB)")
  {
    match reply
    case BadRequest(e) =>
      return Err("リクエストの作成に失敗: " + e);
    case SendFailed(e) =>
      return Err("画像のダウンロードに失敗: " + e);
    case Reply(code, status, contentType, body) =>
      if code != 200 {
        return Err("画像のダウンロードに失敗: " + status);
      }
      var mimeType := contentType;
      if mimeType == "" {
        mimeType := OctetStream;
      }
      var isSupported := CheckSupported(mimeType);
      if !isSupported {
        return Err("サポートされていない画像形式: " + mimeType);
      }
      if body.Err? {
        return Err("画像データの読み取りに失敗: " + body.error);
      }
      if |body.value| > MaxImageSize {
        return Err("画像ファイルが大きすぎます (最大: 20MB)");
      }
      return Ok(Download(body.value, mimeType));
  }

  /** The display names of the supported formats, in a fixed order. */
  function GetSupportedImageTypes(): (r: seq<string>)
    ensures |r| == |SupportedMimeTypes|
    ensures forall i, j :: 0 <= i < j < |r| ==> r[i] != r[j]
  {
    ["JPEG", "JPG", "PNG", "GIF", "WebP", "BMP", "SVG"]
  }
}
