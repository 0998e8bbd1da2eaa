/** The static settings the core reads. Environment and `.env` loading are not modelled. */
module Config {

  /** Base URL of the provider's API. */
  const DDOWNLOAD_API_URL: string := "https://api-v2.ddownload.com/api"

  /** Base of every public download link. */
  const DDOWNLOAD_DOWNLOAD_URL: string := "https://ddownload.com"

  /** The API key when the environment provides none. */
  const DEFAULT_API_KEY: string := ""

  /** Lower-case extensions an upload may have. */
  const ALLOWED_EXTENSIONS: set<string> :=
    {"txt", "pdf", "png", "jpg", "jpeg", "gif", "zip", "rar", "doc", "docx", "xls", "xlsx"}
}
