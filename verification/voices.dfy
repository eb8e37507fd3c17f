/** The static language-to-voice table used to pick a text-to-speech voice. */
module Voices {

  /** The voice used for every language the table does not list. */
  const DefaultVoice: string := "aura-asteria-en"

  /** Language code to voice identifier; Portuguese has no voice of its own and uses the English one. */
  const VoiceMapping: map<string, string> := map[
    "en" := "aura-asteria-en",
    "es" := "aura-2-celeste-es",
    "fr" := "aura-2-agathe-fr",
    "de" := "aura-2-lara-de",
    "pt" := "aura-asteria-en"
  ]

  /** `VOICE_MAPPING.get(lang, "aura-asteria-en")`. */
  function VoiceFor(lang: string): (voice: string)
    ensures lang == "es" ==> voice == "aura-2-celeste-es"
    ensures lang == "fr" ==> voice == "aura-2-agathe-fr"
    ensures lang == "de" ==> voice == "aura-2-lara-de"
    ensures voice == DefaultVoice <==> lang !in {"es", "fr", "de"}
  {
    if lang in VoiceMapping then VoiceMapping[lang] else DefaultVoice
  }

  /** A non-default voice identifies the target code it was chosen for: "es", "fr" and
      "de" each have their own voice, which no other code shares. */
  lemma VoiceDeterminesLanguage(a: string, b: string)
    requires VoiceFor(a) == VoiceFor(b) && VoiceFor(a) != DefaultVoice
    ensures a == b
  {
  }
}
