/** The translation wrapper: one chat request per message to a language-model engine, with
    the original text as the answer whenever the engine raises. */
module Translation {
  import opened Outcomes

  /** Language code to the language name the instruction uses. */
  const LangNames: map<string, string> := map[
    "en" := "English",
    "es" := "Spanish",
    "fr" := "French",
    "de" := "German",
    "pt" := "Portuguese",
    "ja" := "Japanese"
  ]

  /** The name used for every code the table does not list. */
  const FallbackName: string := "English"

  /** `LANG_NAMES.get(target_lang, "English")`. */
  function TargetName(lang: string): (name: string)
    ensures lang in LangNames ==> name == LangNames[lang]
    ensures name == FallbackName <==> lang !in {"es", "fr", "de", "pt", "ja"}
  {
    if lang in LangNames then LangNames[lang] else FallbackName
  }

  /** The fixed text of the instruction before the language name. */
  const PromptHead: string :=
    "You are a professional simultaneous interpreter. Translate the following text to "

  /** The fixed text of the instruction after the language name. */
  const PromptTail: string :=
    ". Do not explain. Output ONLY the translation. Keep the tone conversational but professional."

  /** The system instruction for a target language name. */
  function SystemPrompt(targetName: string): (p: string)
    ensures |p| == |PromptHead| + |targetName| + |PromptTail|
    ensures p[..|PromptHead|] == PromptHead
    ensures p[|PromptHead|..|PromptHead| + |targetName|] == targetName
    ensures p[|PromptHead| + |targetName|..] == PromptTail
  {
    PromptHead + targetName + PromptTail
  }

  /** Two instructions are equal exactly when they name the same language: the name is the
      only part that varies. */
  lemma SystemPromptInjective(a: string, b: string)
    ensures SystemPrompt(a) == SystemPrompt(b) <==> a == b
  {
  }

  datatype Message = Message(role: string, content: string)

  /** What is sent to the chat-completion engine. */
  datatype ChatRequest = ChatRequest(messages: seq<Message>, model: string, temperature: real, maxTokens: nat)

  const ChatModel: string := "llama-3.3-70b-versatile"

  /** The request for translating `text` into `targetLang`. */
  function RequestFor(text: string, targetLang: string): (req: ChatRequest)
    ensures |req.messages| == 2
    ensures req.messages[0] == Message("system", SystemPrompt(TargetName(targetLang)))
    ensures req.messages[1] == Message("user", text)
    ensures req.model == ChatModel && req.temperature == 0.3 && req.maxTokens == 1024
  {
    ChatRequest(
      [Message("system", SystemPrompt(TargetName(targetLang))), Message("user", text)],
      ChatModel, 0.3, 1024)
  }

  /** Two requests for the same text are the same exactly when the target codes resolve to
      the same language name. */
  lemma RequestDependsOnlyOnTargetName(text: string, t1: string, t2: string)
    ensures RequestFor(text, t1) == RequestFor(text, t2) <==> TargetName(t1) == TargetName(t2)
  {
  }

  /** `translate(text, source_lang, target_lang)`: `engine` is the chat-completion call, which
      answers a request with the first choice's content or raises. `sourceLang` is accepted
      and never used. */
  function Translate(engine: ChatRequest -> Outcome<string>, text: string,
                     sourceLang: string := "es", targetLang: string := "en"): (r: string)
    ensures engine(RequestFor(text, targetLang)).Fail? ==> r == text
    ensures engine(RequestFor(text, targetLang)).Ok? ==> r == engine(RequestFor(text, targetLang)).value
  {
    match engine(RequestFor(text, targetLang))
    case Ok(content) => content
    case Fail => text
  }

  /** Target codes with the same language name send the engine the same request, whatever
      the source language, so an unknown code behaves exactly like "en". The engine is a
      function of the request here; a sampling engine may still answer two equal requests
      differently. */
  lemma TranslateDependsOnlyOnTargetName(engine: ChatRequest -> Outcome<string>, text: string,
                                         s1: string, t1: string, s2: string, t2: string)
    requires TargetName(t1) == TargetName(t2)
    ensures Translate(engine, text, s1, t1) == Translate(engine, text, s2, t2)
  {
  }

  /** An engine that raises on every request leaves every text untranslated. */
  lemma FailingEngineKeepsText(engine: ChatRequest -> Outcome<string>, text: string, s: string, t: string)
    requires forall req :: engine(req) == Fail
    ensures Translate(engine, text, s, t) == text
  {
  }
}
