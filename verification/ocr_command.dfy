/**
 * The /ocr command: choose an image (attachment, then URL option, then the
 * most recent image in the channel), download it, ask Gemini Studio to read
 * it, and show the result cut at 1800 characters. The channel history, the
 * download and the Gemini call are inputs.
 */
module OcrCommand {
  import opened Wrappers
  import opened GoStrings
  import GS = GeminiStudio
  import MM = Multimodal

  const OcrUnavailable := "❌ OCR機能は現在利用できません（Google AI Studio設定を確認してください）"
  const NoImage := "❌ 画像が見つかりません。画像を添付するか、画像URLを指定してください。"
  const FetchFailed := "メッセージの取得に失敗"
  const NotFound := "直近のメッセージに画像が見つかりませんでした"
  const FailureLead := "エラー: "

  /** Results longer than this many characters are cut. */
  const ResultLimit := 1800
  const OmittedNote := "\n\n...\n*（結果が長すぎるため省略されました）*"

  datatype Attachment = Attachment(url: string, contentType: string)
  /** A message embed, reduced to the URLs of its image and thumbnail. */
  datatype MessageEmbed = MessageEmbed(image: Option<string>, thumbnail: Option<string>)
  datatype Message = Message(attachments: seq<Attachment>, embeds: seq<MessageEmbed>)

  /** The URL of the first attachment whose content type starts with "image/". */
  function FirstImageAttachment(atts: seq<Attachment>): (r: Option<string>)
    ensures r.Some? <==> exists i :: 0 <= i < |atts| && HasPrefix(atts[i].contentType, "image/")
    ensures r.Some? ==> exists i :: 0 <= i < |atts| && HasPrefix(atts[i].contentType, "image/") && atts[i].url == r.value
                                    && forall j :: 0 <= j < i ==> !HasPrefix(atts[j].contentType, "image/")
  {
    if |atts| == 0 then None
    else if HasPrefix(atts[0].contentType, "image/") then Some(atts[0].url)
    else
      var r := FirstImageAttachment(atts[1..]);
      if r.Some? then
        var i :| 0 <= i < |atts[1..]| && HasPrefix(atts[1..][i].contentType, "image/") && atts[1..][i].url == r.value
                 && forall j :: 0 <= j < i ==> !HasPrefix(atts[1..][j].contentType, "image/");
        assert atts[i + 1] == atts[1..][i];
        assert forall j :: 0 < j < i + 1 ==> atts[j] == atts[1..][j - 1];
        r
      else
        assert forall i :: 0 < i < |atts| ==> atts[i] == atts[1..][i - 1];
        r
  }

  /** The first embed with an image or a thumbnail gives its image URL, or else its thumbnail URL. */
  function FirstEmbedImage(embeds: seq<MessageEmbed>): (r: Option<string>)
    ensures r.Some? <==> exists i :: 0 <= i < |embeds| && HasPicture(embeds[i])
    ensures r.Some? ==> exists i :: 0 <= i < |embeds| && HasPicture(embeds[i])
                                    && r == (if embeds[i].image.Some? then embeds[i].image else embeds[i].thumbnail)
                                    && forall j :: 0 <= j < i ==> !HasPicture(embeds[j])
  {
    if |embeds| == 0 then None
    else if embeds[0].image.Some? then embeds[0].image
    else if embeds[0].thumbnail.Some? then embeds[0].thumbnail
    else
      var r := FirstEmbedImage(embeds[1..]);
      if r.Some? then
        var i :| 0 <= i < |embeds[1..]| && HasPicture(embeds[1..][i])
                 && r == (if embeds[1..][i].image.Some? then embeds[1..][i].image else embeds[1..][i].thumbnail)
                 && forall j :: 0 <= j < i ==> !HasPicture(embeds[1..][j]);
        assert embeds[i + 1] == embeds[1..][i];
        assert forall j :: 0 < j < i + 1 ==> embeds[j] == embeds[1..][j - 1];
        r
      else
        assert forall i :: 0 < i < |embeds| ==> embeds[i] == embeds[1..][i - 1];
        r
  }

  predicate HasPicture(e: MessageEmbed)
  {
    e.image.Some? || e.thumbnail.Some?
  }

  /** The image a message offers: an image attachment before any embed picture. */
  function ImageOf(m: Message): (r: Option<string>)
    ensures FirstImageAttachment(m.attachments).Some? ==> r == FirstImageAttachment(m.attachments)
    ensures r.None? <==> FirstImageAttachment(m.attachments).None? && FirstEmbedImage(m.embeds).None?
  {
    if FirstImageAttachment(m.attachments).Some? then FirstImageAttachment(m.attachments) else FirstEmbedImage(m.embeds)
  }

  /** The image of the first message that has one. */
  function RecentImage(msgs: seq<Message>): (r: Option<string>)
    ensures r.Some? <==> exists i :: 0 <= i < |msgs| && ImageOf(msgs[i]).Some?
  {
    if |msgs| == 0 then None
    else if ImageOf(msgs[0]).Some? then ImageOf(msgs[0])
    else
      assert forall i :: 0 < i < |msgs| ==> msgs[i] == msgs[1..][i - 1];
      RecentImage(msgs[1..])
  }

  /** A message without an image is skipped: the search answers from the first message that has one. */
  lemma {:induction false} RecentImageIsFirst(msgs: seq<Message>, k: int)
    requires 0 <= k < |msgs| && ImageOf(msgs[k]).Some?
    requires forall j :: 0 <= j < k ==> ImageOf(msgs[j]).None?
    ensures RecentImage(msgs) == ImageOf(msgs[k])
    decreases k
  {
    if k > 0 {
      assert forall j :: 0 <= j < k - 1 ==> msgs[1..][j] == msgs[j + 1];
      RecentImageIsFirst(msgs[1..], k - 1);
    }
  }

  /**
   * findRecentImage: the nested search over the fetched messages, their
   * attachments and their embeds, returning at the first hit.
   */
  method FindRecentImage(fetched: Result<seq<Message>>) returns (r: Result<string>)
    ensures fetched.Err? ==> r == Err(FetchFailed)
    ensures fetched.Ok? && RecentImage(fetched.value).Some? ==> r == Ok(RecentImage(fetched.value).value)
    ensures fetched.Ok? && RecentImage(fetched.value).None? ==> r == Err(NotFound)
  {
    if fetched.Err? {
      return Err(FetchFailed);
    }
    var msgs := fetched.value;
    var i := 0;
    while i < |msgs|
      invariant 0 <= i <= |msgs|
      invariant RecentImage(msgs) == RecentImage(msgs[i..])
    {
      var msg := msgs[i];
      assert msgs[i..][0] == msg && msgs[i..][1..] == msgs[i + 1..];
      var atts := msg.attachments;
      var j := 0;
      while j < |atts|
        invariant 0 <= j <= |atts|
        invariant FirstImageAttachment(atts) == FirstImageAttachment(atts[j..])
      {
        assert atts[j..][0] == atts[j] && atts[j..][1..] == atts[j + 1..];
        if HasPrefix(atts[j].contentType, "image/") {
          return Ok(atts[j].url);
        }
        j := j + 1;
      }
      var embeds := msg.embeds;
      var k := 0;
      while k < |embeds|
        invariant 0 <= k <= |embeds|
        invariant FirstEmbedImage(embeds) == FirstEmbedImage(embeds[k..])
      {
        assert embeds[k..][0] == embeds[k] && embeds[k..][1..] == embeds[k + 1..];
        if embeds[k].image.Some? {
          return Ok(embeds[k].image.value);
        }
        if embeds[k].thumbnail.Some? {
          return Ok(embeds[k].thumbnail.value);
        }
        k := k + 1;
      }
      i := i + 1;
    }
    return Err(NotFound);
  }

  const TextDescription := "📄 テキスト抽出"

  /** getModeDescription: four modes have their own label; anything else reads as text extraction. */
  function ModeDescription(mode: string): (r: string)
    ensures r == TextDescription <==> mode !in {"translate", "summarize", "analyze"}
  {
    match mode
    case "translate" => "🌐 翻訳 (日本語)"
    case "summarize" => "📝 要約"
    case "analyze" => "🔍 詳細分析"
    case _ => TextDescription
  }

  /**
   * The label shown is the text-extraction label exactly when the prompt sent
   * is the text-extraction one or the default one: an unknown mode is
   * labelled as text extraction but gets the default instruction.
   */
  lemma DescriptionFollowsInstruction(mode: string)
    ensures ModeDescription(mode) == TextDescription <==>
              MM.OcrInstruction(mode) == MM.TextInstruction || MM.OcrInstruction(mode) == MM.DefaultInstruction
  {
    MM.InstructionsDistinct();
  }

  datatype OCRCommand = OCRCommand(aiService: Option<GS.Service>)

  datatype OcrReply =
    | OcrRejected(message: string)
    | DownloadFailed(detail: string)
    | OcrFailed(detail: string)
    | Extracted(modeDescription: string, mimeType: string, text: string)

  /**
   * The part of Execute after an image URL is chosen: download, OCR, then the
   * success embed with the result cut at ResultLimit.
   */
  method ReadImage(download: MM.HttpReply, exchange: GS.Exchange<GS.GeminiResponse>, effectiveMode: string) returns (reply: OcrReply)
    ensures reply.DownloadFailed? || reply.OcrFailed? || reply.Extracted?
    ensures reply.DownloadFailed? <==> !MM.DownloadSucceeds(download)
    ensures reply.DownloadFailed? ==> reply.detail == FailureLead + MM.DownloadError(download)
    ensures reply.Extracted? ==> reply.mimeType == MM.MimeOf(download.contentType)
    ensures reply.OcrFailed? ==> MM.ReadOcrAnswer(exchange).Err? && reply.detail == FailureLead + MM.ReadOcrAnswer(exchange).error
    ensures reply.Extracted? <==> MM.ReadOcrAnswer(exchange).Ok? && !reply.DownloadFailed?
    ensures reply.Extracted? ==>
              reply.modeDescription == ModeDescription(effectiveMode)
              && reply.text == CutWithNote(MM.ReadOcrAnswer(exchange).value, ResultLimit, OmittedNote)
  {
    var got := MM.DownloadImage(download);
    if got.Err? {
      return DownloadFailed(FailureLead + got.error);
    }
    var result := MM.ReadOcrAnswer(exchange);
    if result.Err? {
      return OcrFailed(FailureLead + result.error);
    }
    var text := result.value;
    if |text| > ResultLimit {
      text := text[..ResultLimit] + OmittedNote;
    }
    reply := Extracted(ModeDescription(effectiveMode), got.value.mimeType, text);
  }

  /**
   * OCRCommand.Execute. `fetched` is the channel history, `download` the
   * HTTP reply for the chosen URL and `exchange` the Gemini call. Failures
   * after the image is found are shown in an embed, and the command itself
   * still succeeds.
   */
  method Execute(c: OCRCommand, imageURL: string, mode: string, attachment: Option<Attachment>,
                 fetched: Result<seq<Message>>, download: MM.HttpReply, exchange: GS.Exchange<GS.GeminiResponse>)
    returns (source: Option<string>, effectiveMode: string, reply: OcrReply)
    ensures c.aiService.None? ==> source.None? && reply == OcrRejected(OcrUnavailable)
    ensures c.aiService.Some? ==> effectiveMode == (if mode == "" then "text" else mode)
    ensures c.aiService.Some? && attachment.Some? ==> source == Some(attachment.value.url)
    ensures c.aiService.Some? && attachment.None? && imageURL != "" ==> source == Some(imageURL)
    ensures c.aiService.Some? && attachment.None? && imageURL == "" && fetched.Ok? && RecentImage(fetched.value).Some?
            ==> source == RecentImage(fetched.value)
    ensures c.aiService.Some? && attachment.None? && imageURL == "" && (fetched.Err? || RecentImage(fetched.value).None?)
            ==> source.None? && reply == OcrRejected(NoImage)
    ensures reply.OcrRejected? <==> source.None?
    ensures reply.DownloadFailed? <==> source.Some? && !MM.DownloadSucceeds(download)
    ensures reply.DownloadFailed? ==> reply.detail == FailureLead + MM.DownloadError(download)
    ensures reply.OcrFailed? <==> source.Some? && MM.DownloadSucceeds(download) && MM.ReadOcrAnswer(exchange).Err?
    ensures reply.Extracted? <==> source.Some? && MM.DownloadSucceeds(download) && MM.ReadOcrAnswer(exchange).Ok?
    ensures reply.Extracted? ==> reply.mimeType == MM.MimeOf(download.contentType)
    ensures reply.OcrFailed? ==> source.Some? && MM.ReadOcrAnswer(exchange).Err? && reply.detail == FailureLead + MM.ReadOcrAnswer(exchange).error
    ensures reply.Extracted? ==>
              source.Some? && MM.ReadOcrAnswer(exchange).Ok?
              && reply.modeDescription == ModeDescription(effectiveMode)
              && reply.text == CutWithNote(MM.ReadOcrAnswer(exchange).value, ResultLimit, OmittedNote)
  {
    source := None;
    effectiveMode := mode;
    if c.aiService.None? {
      return source, effectiveMode, OcrRejected(OcrUnavailable);
    }
    if effectiveMode == "" {
      effectiveMode := "text";
    }
    var finalImageURL;
    if attachment.Some? {
      finalImageURL := attachment.value.url;
    } else if imageURL != "" {
      finalImageURL := imageURL;
    } else {
      var recent := FindRecentImage(fetched);
      if recent.Err? {
        return source, effectiveMode, OcrRejected(NoImage);
      }
      finalImageURL := recent.value;
    }
    source := Some(finalImageURL);
    reply := ReadImage(download, exchange, effectiveMode);
  }
}
