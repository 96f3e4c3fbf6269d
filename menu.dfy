/**
  The reply-keyboard menu of `handle_message`: an exact match of the message
  text against the five button labels, and the prompt conventions of the
  image-generation path (`message.text[1:]`, and the `!` that `retry_image`
  puts in front of a stored prompt).
*/
module Menu {
  import opened Wrappers

  /** The five menu buttons of `create_keyboard`. */
  datatype Command = GenerateImage | WikiLookup | Statistics | ImageGallery | Helper

  /** The label of each button, which is also the text the button sends. */
  function CommandText(c: Command): string
  {
    match c
    case GenerateImage => "Генерировать изображение"
    case WikiLookup => "Получить информацию из Wikipedia"
    case Statistics => "Статистика"
    case ImageGallery => "Галерея изображений"
    case Helper => "Помощник"
  }

  /**
    The `if/elif` chain of `handle_message`: the command whose label equals the
    text, or `None` for the fallback "please choose an action" reply.
  */
  function Dispatch(text: string): (r: Option<Command>)
    ensures r.Some? ==> CommandText(r.value) == text
  {
    if text == CommandText(GenerateImage) then Some(GenerateImage)
    else if text == CommandText(WikiLookup) then Some(WikiLookup)
    else if text == CommandText(Statistics) then Some(Statistics)
    else if text == CommandText(ImageGallery) then Some(ImageGallery)
    else if text == CommandText(Helper) then Some(Helper)
    else None
  }

  /** Each label selects its own command: the five labels are pairwise different. */
  lemma DispatchCommandText(c: Command)
    ensures Dispatch(CommandText(c)) == Some(c)
  {
    var g := CommandText(GenerateImage);
    var w := CommandText(WikiLookup);
    var s := CommandText(Statistics);
    var i := CommandText(ImageGallery);
    var h := CommandText(Helper);
    assert |g| == 24 && |w| == 32 && |s| == 10 && |i| == 19 && |h| == 8;
  }

  /** Exactly the texts that are no label fall through to the fallback reply. */
  lemma DispatchFallback(text: string)
    ensures Dispatch(text).None? <==> forall c: Command :: CommandText(c) != text
  {
    if Dispatch(text).None? {
      forall c: Command ensures CommandText(c) != text {
        DispatchCommandText(c);
      }
    }
  }

  /** `message.text[1:]`: the text without its first character (`!` by convention). */
  function PromptOf(text: string): (prompt: string)
    ensures text != [] ==> text == [text[0]] + prompt
    ensures text == [] ==> prompt == []
  {
    if text == [] then [] else text[1..]
  }

  /** `f"!{prompt}"` of `retry_image`. */
  function RetryText(prompt: string): (text: string)
    ensures |text| == |prompt| + 1 && text[0] == '!'
  {
    "!" + prompt
  }

  /** The retried message yields the stored prompt again. */
  lemma PromptOfRetryText(prompt: string)
    ensures PromptOf(RetryText(prompt)) == prompt
  {
    assert RetryText(prompt)[1..] == prompt;
  }

  /** The text `show_helper_examples` sends after its heading line. */
  const HelperExamples: string :=
    "1. !Кошка на луне\n2. !Пейзаж природы\n3. !Абстрактное искусство\n4. !Городская сценка\n5. !Портрет человека"
}
