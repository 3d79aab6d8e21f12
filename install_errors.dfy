/** The installer's exception hierarchy: a base error with a message and
    optional details, and six kinds that each compose one message string. */
module InstallErrors {
  import opened Wrappers
  import opened Text

  /** Which class raised the error; a download error also keeps its URL. */
  datatype Kind = Base | Venv | Requirements | Ollama | Model | Download(url: string) | Platform

  /** An `InstallError`: `message` and `details` as given to the base class. */
  datatype InstallError = InstallError(kind: Kind, message: string, details: Option<string>)

  const DetailsSeparator: string := "\nDetails: "

  /** `str(e)`: the message, then the details only when they are non-empty. */
  function ErrorText(e: InstallError): string {
    e.message + (if e.details.Some? && e.details.value != "" then DetailsSeparator + e.details.value else "")
  }

  /** `InstallError(message, details)`. */
  function NewInstallError(message: string, details: Option<string>): (e: InstallError)
    ensures e.kind == Base && e.message == message && e.details == details
  {
    InstallError(Base, message, details)
  }

  /** `VenvError(message, path)`: any given path is named, since a path value is always true. */
  function VenvError(message: string, path: Option<string>): (e: InstallError)
    ensures e.kind == Venv && e.details == None
  {
    InstallError(Venv, "Virtual environment error: " + message + (if path.Some? then " at " + path.value else ""), None)
  }

  /** `RequirementsError(package, message)`. */
  function RequirementsError(package: string, message: string): (e: InstallError)
    ensures e.kind == Requirements && e.details == None
  {
    InstallError(Requirements, "Failed to install " + package + ": " + message, None)
  }

  /** `OllamaError(message, platform)`: the platform is named only when non-empty. */
  function OllamaError(message: string, platform: Option<string>): (e: InstallError)
    ensures e.kind == Ollama && e.details == None
  {
    InstallError(Ollama, "Ollama error: " + message
      + (if platform.Some? && platform.value != "" then " on platform " + platform.value else ""), None)
  }

  /** `ModelError(model, message)`. */
  function ModelError(model: string, message: string): (e: InstallError)
    ensures e.kind == Model && e.details == None
  {
    InstallError(Model, "Model error for " + model + ": " + message, None)
  }

  /** `DownloadError(url, message)`, which keeps the URL. */
  function DownloadError(url: string, message: string): (e: InstallError)
    ensures e.kind == Download(url) && e.details == None
  {
    InstallError(Download(url), "Download failed from " + url + ": " + message, None)
  }

  /** `PlatformError(platform)`. */
  function PlatformError(platform: string): (e: InstallError)
    ensures e.kind == Platform && e.details == None
  {
    InstallError(Platform, "Unsupported platform: " + platform, None)
  }

  /** The text is the bare message exactly when there are no non-empty
      details; otherwise the details follow the separator. */
  lemma DetailsShownWhenNonEmpty(e: InstallError)
    ensures ErrorText(e) == e.message <==> e.details.None? || e.details.value == ""
    ensures e.details.Some? && e.details.value != "" ==>
              ErrorText(e) == e.message + DetailsSeparator + e.details.value
  {
    if e.details.Some? && e.details.value != "" {
      assert |ErrorText(e)| > |e.message|;
    }
  }

  /** Every subclass passes one composed string, so its text is that string. */
  lemma SubclassTextIsMessage(e: InstallError)
    requires e.kind != Base
    requires e.details == None
    ensures ErrorText(e) == e.message
  {
  }

  /** An Ollama error names its platform exactly when one is given and non-empty. */
  lemma OllamaErrorPlatform(message: string, platform: Option<string>)
    ensures StartsWith(ErrorText(OllamaError(message, platform)), "Ollama error: " + message)
    ensures platform.None? || platform.value == "" ==>
              ErrorText(OllamaError(message, platform)) == "Ollama error: " + message
    ensures platform.Some? && platform.value != "" ==>
              ErrorText(OllamaError(message, platform)) == "Ollama error: " + message + " on platform " + platform.value
  {
    var head := "Ollama error: " + message;
    var text := ErrorText(OllamaError(message, platform));
    assert text == head + (if platform.Some? && platform.value != "" then " on platform " + platform.value else "");
    assert text[..|head|] == head;
  }
}
