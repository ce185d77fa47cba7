/**
 * The /translate command: guards on the text, the language and the service,
 * a translation prompt sent through Gemini Studio's question call, and the
 * shortened original shown beside the translation. The Gemini call is an
 * input.
 */
module TranslateCommand {
  import opened Wrappers
  import opened GoStrings
  import GS = GeminiStudio

  const EmptyText := "❌ 翻訳するテキストを入力してください"
  const TranslateUnavailable := "❌ 翻訳機能は現在利用できません（Google AI Studio設定を確認してください）"
  const FailureLead := "翻訳処理中にエラーが発生しました: "
  const DefaultLanguage := "japanese"

  /** How much of the original text the result shows. */
  const OriginalLimit := 1000

  /** truncateText: text longer than maxLen keeps its first maxLen - 3 characters and gains "...". */
  function TruncateText(text: string, maxLen: int): (r: string)
    requires maxLen >= 3
    ensures |text| <= maxLen ==> r == text
    ensures |text| > maxLen ==> |r| == maxLen && HasPrefix(r, text[..maxLen - 3]) && HasSuffix(r, "...")
  {
    if |text| <= maxLen then text
    else
      var r := text[..maxLen - 3] + "...";
      assert r[..maxLen - 3] == text[..maxLen - 3];
      assert r[|r| - 3..] == "...";
      r
  }

  /** A truncated text is never longer than the limit, and a text within it is kept. */
  lemma TruncateTextFits(text: string, maxLen: int)
    requires maxLen >= 3
    ensures |TruncateText(text, maxLen)| <= maxLen
    ensures TruncateText(text, maxLen) == text <==> |text| <= maxLen
  {
    if |text| > maxLen {
      assert |TruncateText(text, maxLen)| != |text|;
    }
  }

  /** The ten languages the command offers. */
  const LanguageKeys := ["japanese", "english", "korean", "chinese", "spanish", "french", "german", "italian", "russian", "portuguese"]

  /** createTranslatePrompt's table: the target-language name written into the prompt, 日本語 for a key it lacks. */
  function TargetLanguage(language: string): (r: string)
    ensures language !in LanguageKeys ==> r == "日本語"
  {
    match language
    case "english" => "英語"
    case "korean" => "韓国語"
    case "chinese" => "中国語"
    case "spanish" => "スペイン語"
    case "french" => "フランス語"
    case "german" => "ドイツ語"
    case "italian" => "イタリア語"
    case "russian" => "ロシア語"
    case "portuguese" => "ポルトガル語"
    case _ => "日本語"
  }

  /** getLanguageName: a flag, a space and the language's name; the Japanese one for a key it lacks. */
  function LanguageName(language: string): (r: string)
    ensures language !in LanguageKeys ==> r == "🇯🇵 日本語"
  {
    match language
    case "english" => "🇺🇸 英語"
    case "korean" => "🇰🇷 韓国語"
    case "chinese" => "🇨🇳 中国語"
    case "spanish" => "🇪🇸 スペイン語"
    case "french" => "🇫🇷 フランス語"
    case "german" => "🇩🇪 ドイツ語"
    case "italian" => "🇮🇹 イタリア語"
    case "russian" => "🇷🇺 ロシア語"
    case "portuguese" => "🇵🇹 ポルトガル語"
    case _ => "🇯🇵 日本語"
  }

  /** The first character of each key's target language, in key order. */
  const TargetInitials := "日英韓中スフドイロポ"

  /** The target language of a key starts with that key's initial, and the name shown carries it after the flag and the space. */
  lemma TargetInitial(i: nat)
    requires i < |LanguageKeys|
    ensures |TargetLanguage(LanguageKeys[i])| > 0 && TargetLanguage(LanguageKeys[i])[0] == TargetInitials[i]
    ensures |LanguageName(LanguageKeys[i])| > 3 && LanguageName(LanguageKeys[i])[3] == TargetInitials[i]
  {
    if i == 0 {
    } else if i == 1 {
    } else if i == 2 {
    } else if i == 3 {
    } else if i == 4 {
    } else if i == 5 {
    } else if i == 6 {
    } else if i == 7 {
    } else if i == 8 {
    } else {
    }
  }

  /** The ten keys name ten different languages, both in the prompt and in the name shown. */
  lemma {:induction false} TargetLanguagesDistinct(i: nat, j: nat)
    requires i < j < |LanguageKeys|
    ensures TargetLanguage(LanguageKeys[i]) != TargetLanguage(LanguageKeys[j])
    ensures LanguageName(LanguageKeys[i]) != LanguageName(LanguageKeys[j])
  {
    TargetInitial(i);
    TargetInitial(j);
    assert TargetInitials[i] != TargetInitials[j];
  }

  /** A string that is a lead followed by a tail ends with that tail. */
  lemma EndsWith(s: string, lead: string, tail: string)
    requires s == lead + tail
    ensures HasSuffix(s, tail)
  {
    assert s[|s| - |tail|..] == tail;
  }

  /** The name shown always ends with the language the prompt asked for, known key or not. */
  lemma NameShowsTarget(language: string)
    ensures HasSuffix(LanguageName(language), TargetLanguage(language))
  {
    var t := TargetLanguage(language);
    var n := LanguageName(language);
    match language
    case "english" => EndsWith(n, "🇺🇸 ", t);
    case "korean" => EndsWith(n, "🇰🇷 ", t);
    case "chinese" => EndsWith(n, "🇨🇳 ", t);
    case "spanish" => EndsWith(n, "🇪🇸 ", t);
    case "french" => EndsWith(n, "🇫🇷 ", t);
    case "german" => EndsWith(n, "🇩🇪 ", t);
    case "italian" => EndsWith(n, "🇮🇹 ", t);
    case "russian" => EndsWith(n, "🇷🇺 ", t);
    case "portuguese" => EndsWith(n, "🇵🇹 ", t);
    case _ => EndsWith(n, "🇯🇵 ", t);
  }

  const PromptLead := "以下のテキストを"
  const PromptMiddle := "に翻訳してください。自然で読みやすい翻訳を心がけ、翻訳結果のみを返答してください。\n\n翻訳するテキスト:\n"

  /** createTranslatePrompt: the instruction naming the target language, then the text. */
  function TranslatePrompt(text: string, language: string): (p: string)
    ensures HasPrefix(p, PromptLead + TargetLanguage(language) + PromptMiddle)
    ensures HasSuffix(p, text)
  {
    var head := PromptLead + TargetLanguage(language) + PromptMiddle;
    var p := head + text;
    assert p[..|head|] == head;
    assert p[|p| - |text|..] == text;
    p
  }

  datatype TranslateCommand = TranslateCommand(geminiStudio: Option<GS.Service>)

  datatype TranslateReply =
    | TranslateRejected(message: string)
    | TranslateFailed(detail: string)
    | Translated(original: string, languageName: string, translation: string)

  /**
   * TranslateCommand.Execute: the text check, the language default, then the
   * service check; the prompt goes out as a Gemini Studio question and
   * `exchange` is that call's result.
   */
  function Execute(c: TranslateCommand, text: string, language: string, userID: string, exchange: GS.Exchange<GS.GeminiResponse>)
    : (r: (Option<GS.GeminiRequest>, TranslateReply))
    ensures text == "" ==> r == (None, TranslateRejected(EmptyText))
    ensures text != "" && c.geminiStudio.None? ==> r == (None, TranslateRejected(TranslateUnavailable))
    ensures r.0.Some? <==> text != "" && c.geminiStudio.Some?
    ensures r.0.Some? ==> r.0.value == GS.AskRequest(userID, TranslatePrompt(text, if language == "" then DefaultLanguage else language))
    ensures r.0.Some? && GS.ReadAnswer(exchange).Err? ==> r.1 == TranslateFailed(FailureLead + GS.ReadAnswer(exchange).error)
    ensures r.0.Some? && GS.ReadAnswer(exchange).Ok? ==>
              r.1 == Translated(TruncateText(text, OriginalLimit), LanguageName(if language == "" then DefaultLanguage else language),
                                GS.ReadAnswer(exchange).value)
  {
    if text == "" then (None, TranslateRejected(EmptyText))
    else
      var lang := if language == "" then DefaultLanguage else language;
      if c.geminiStudio.None? then (None, TranslateRejected(TranslateUnavailable))
      else
        var request := GS.AskRequest(userID, TranslatePrompt(text, lang));
        match GS.ReadAnswer(exchange)
        case Err(e) => (Some(request), TranslateFailed(FailureLead + e))
        case Ok(translation) => (Some(request), Translated(TruncateText(text, OriginalLimit), LanguageName(lang), translation))
  }

  /** An empty language and "japanese" translate the same way. */
  lemma DefaultIsJapanese(c: TranslateCommand, text: string, userID: string, exchange: GS.Exchange<GS.GeminiResponse>)
    ensures Execute(c, text, "", userID, exchange) == Execute(c, text, "japanese", userID, exchange)
  {
  }
}
