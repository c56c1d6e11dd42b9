/** The language context: a constant English language, a setter that does
    nothing, and the `t` lookup with its key fallback. */
module LanguageContext {
  import opened Wrappers

  /** The table `t` consults. */
  const Translations: map<string, string> := map[
    "topNews" := "Top News",
    "credibility" := "Credibility",
    "readMore" := "Read more",
    "readLess" := "Read less",
    "noArticlesAvailable" := "No articles available",
    "loading" := "Loading...",
    "error" := "Error"
  ]

  /** The value a provider hands to its consumers. */
  datatype Context = Context(language: string)

  const UseLanguageError: string := "useLanguage must be used within a LanguageProvider"

  /** `translations[key] || key`: a missing key and an empty entry both fall back to the key. */
  function T(key: string): (r: string)
    ensures key in Translations ==> r == Translations[key]
    ensures key !in Translations ==> r == key
    ensures key != "" ==> r != ""
  {
    if key in Translations && Translations[key] != "" then Translations[key] else key
  }

  /** The context value the provider creates. */
  function Provide(): (c: Context)
    ensures c.language == "en"
  {
    Context("en")
  }

  /** `setLanguage` is a no-op: the context is the same whatever language is asked for. */
  function SetLanguage(c: Context, lang: string): (r: Context)
    ensures r == c
  {
    c
  }

  /** `useLanguage`: the provided context, or the error thrown when no provider encloses the caller. */
  function UseLanguage(provided: Option<Context>): (r: Result<Context>)
    ensures provided.None? <==> r.Failure?
    ensures provided.Some? ==> r == Success(provided.value)
    ensures r.Failure? ==> r.error == UseLanguageError
  {
    match provided
    case None => Failure(UseLanguageError)
    case Some(c) => Success(c)
  }

  /** The seven keys of the table and the strings they read as. */
  lemma KnownKeys()
    ensures T("topNews") == "Top News" && T("credibility") == "Credibility"
    ensures T("readMore") == "Read more" && T("readLess") == "Read less"
    ensures T("noArticlesAvailable") == "No articles available"
    ensures T("loading") == "Loading..." && T("error") == "Error"
    ensures |Translations| == 7
  {
  }

  /** Any other key reads as itself, for example the keys the landing and news pages
      ask for that the table does not hold. */
  lemma UnknownKeysEchoed()
    ensures T("landingTitle") == "landingTitle"
    ensures T("noArticlesFound") == "noArticlesFound"
  {
  }

  /** Whatever `setLanguage` is called with, in any order, the language stays English. */
  lemma {:induction false} LanguageAlwaysEnglish(langs: seq<string>)
    ensures ApplySetLanguage(Provide(), langs).language == "en"
  {
    if langs != [] {
      LanguageAlwaysEnglish(langs[..|langs| - 1]);
    }
  }

  /** Calls `setLanguage` with each language in turn. */
  function ApplySetLanguage(c: Context, langs: seq<string>): Context
  {
    if langs == [] then c else SetLanguage(ApplySetLanguage(c, langs[..|langs| - 1]), langs[|langs| - 1])
  }
}
