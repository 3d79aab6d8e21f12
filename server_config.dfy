/** The server's fixed settings that the message pipeline reads: the
    extension-to-language table and the prompt and reply texts. */
module ServerConfig {

  /** Maps a file extension (without the dot) to the language tag of its fence. */
  const LanguageExtensions: map<string, string> :=
    map["py" := "python", "js" := "javascript", "ts" := "typescript",
        "java" := "java", "cpp" := "cpp", "c" := "c"]

  /** Put between the message text and the first attached file. */
  const PromptFileHeader: string := "\n\nHere are the relevant files:\n\n"

  const ErrorInternal: string := "Internal server error"
  const ErrorMessageRequired: string := "Message is required"
  const AckMessage: string := "Prompt received and being processed"

  /** `LANGUAGE_EXTENSIONS.get(ext, "")`: the tag for a known extension, and
      the empty tag for any other. */
  function LanguageFor(ext: string): string {
    if ext in LanguageExtensions then LanguageExtensions[ext] else ""
  }

  /** The tag is the table's value for a listed extension and empty exactly
      for an unlisted one. */
  lemma LanguageForSpec(ext: string)
    ensures ext in LanguageExtensions <==> LanguageFor(ext) != ""
    ensures ext in LanguageExtensions ==> LanguageFor(ext) == LanguageExtensions[ext]
  {
  }
}
