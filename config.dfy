/** The credential switch of the agent module. */
module Config {

  import opened Wrappers

  /** `not API_KEY`: the environment variable is unset or empty, so both
      operations take their local fallback path. */
  function KeyMissing(apiKey: Option<string>): (missing: bool)
    ensures missing <==> apiKey in {None, Some("")}
  {
    apiKey.None? || apiKey.value == ""
  }
}
