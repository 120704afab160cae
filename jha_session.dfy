/**
 * The older session scheme inlined in the landing page and the dashboard:
 * its `jha_*` store keys and the language toggle both pages share.
 */
module JhaSession {

  const UserKey := "jha_user"
  const ThemeKey := "jha_theme"
  const LanguageKey := "jha_language"

  /** `language === 'en' ? 'hi' : 'en'`: English goes to Hindi, every other value to English. */
  function NextLanguage(language: string): (r: string)
    ensures r == "en" || r == "hi"
    ensures r == "hi" <==> language == "en"
  {
    if language == "en" then "hi" else "en"
  }

  /** On the two real codes the toggle is an involution; from any other value two toggles reach "hi". */
  lemma NextLanguageTwice(language: string)
    ensures language == "en" || language == "hi" ==> NextLanguage(NextLanguage(language)) == language
    ensures language != "en" && language != "hi" ==> NextLanguage(NextLanguage(language)) == "hi"
  {
  }
}
