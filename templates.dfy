/** The language → container image table used by the SDK (pkg/k8sclient/templates). */
module Templates {
  import opened Wrappers

  /** The seven languages the table knows, spelled exactly as its keys. */
  const SupportedLanguages: set<string> := {"go", "python", "node", "java", "ruby", "php", "rust"}

  /** The image each language runs in. */
  const Images: map<string, string> := map[
    "go" := "golang:1.24",
    "python" := "python:3.9",
    "node" := "node:14",
    "java" := "openjdk:11",
    "ruby" := "ruby:2.7",
    "php" := "php:8.0",
    "rust" := "rust:1.56"
  ]

  /**
   * The image for `lang`, or the error "unsupported language: <lang>". The match
   * is exact: no trimming, no case folding, no aliases.
   */
  function LanguageLookup(lang: string): (r: Result<string>)
    ensures r.Ok? <==> lang in SupportedLanguages
    ensures r.Ok? ==> r.value != ""
    ensures r.Err? ==> r.error == "unsupported language: " + lang
  {
    if lang in Images then Ok(Images[lang]) else Err("unsupported language: " + lang)
  }

  /** The table, entry by entry. */
  lemma LookupTable()
    ensures LanguageLookup("go") == Ok("golang:1.24")
    ensures LanguageLookup("python") == Ok("python:3.9")
    ensures LanguageLookup("node") == Ok("node:14")
    ensures LanguageLookup("java") == Ok("openjdk:11")
    ensures LanguageLookup("ruby") == Ok("ruby:2.7")
    ensures LanguageLookup("php") == Ok("php:8.0")
    ensures LanguageLookup("rust") == Ok("rust:1.56")
  {
  }

  /** Capitalised names and abbreviations are not keys of the table. */
  lemma LookupIsExact()
    ensures LanguageLookup("Python") == Err("unsupported language: Python")
    ensures LanguageLookup("py").Err? && LanguageLookup("golang").Err? && LanguageLookup(" go").Err?
    ensures LanguageLookup("").Err?
  {
  }

  /** No two languages share an image. */
  lemma LookupIsInjective(a: string, b: string)
    requires LanguageLookup(a).Ok? && LanguageLookup(b).Ok?
    requires LanguageLookup(a).value == LanguageLookup(b).value
    ensures a == b
  {
  }
}
