/**
 * The startup gate: the server refuses to start unless the data store's URL, the
 * data store's service key and the completion service's key are all set and non-empty.
 */
module Config {
  import opened Wrappers

  const SupabaseUrl: string := "SUPABASE_URL"
  const SupabaseServiceRoleKey: string := "SUPABASE_SERVICE_ROLE_KEY"
  const OpenAiApiKey: string := "OPENAI_API_KEY"

  const RequiredNames: seq<string> := [SupabaseUrl, SupabaseServiceRoleKey, OpenAiApiKey]

  /** The message of the error thrown at startup. */
  const MissingEnvironment: string := "❌ Missing environment variables"

  datatype Credentials = Credentials(supabaseUrl: string, serviceRoleKey: string, openAiKey: string) {
    predicate Valid() {
      supabaseUrl != "" && serviceRoleKey != "" && openAiKey != ""
    }
  }

  /** `!process.env[name]`: the variable is unset or set to the empty string. */
  predicate Missing(env: map<string, string>, name: string) {
    name !in env || env[name] == ""
  }

  /**
   * Startup succeeds exactly when every required variable is set to a non-empty
   * string, and then hands those values on; otherwise it fails with the fixed message.
   */
  function CheckEnvironment(env: map<string, string>): (r: Result<Credentials, string>)
    ensures r.Ok? <==> forall name :: name in RequiredNames ==> name in env && env[name] != ""
    ensures r.Ok? ==> r.value.Valid()
    ensures r.Ok? ==>
      && SupabaseUrl in env && SupabaseServiceRoleKey in env && OpenAiApiKey in env
      && r.value == Credentials(env[SupabaseUrl], env[SupabaseServiceRoleKey], env[OpenAiApiKey])
    ensures r.Err? ==> r.error == MissingEnvironment
  {
    if Missing(env, SupabaseUrl) || Missing(env, SupabaseServiceRoleKey) || Missing(env, OpenAiApiKey) then
      Err(MissingEnvironment)
    else
      Ok(Credentials(env[SupabaseUrl], env[SupabaseServiceRoleKey], env[OpenAiApiKey]))
  }

  /** One missing variable is enough to refuse startup, whatever the other two hold. */
  lemma AnyMissingRefuses(env: map<string, string>, k: nat)
    requires k < |RequiredNames| && Missing(env, RequiredNames[k])
    ensures CheckEnvironment(env) == Err(MissingEnvironment)
  {
  }

  /** An empty value counts as missing, as `!""` is true in JavaScript. */
  lemma EmptyCountsAsMissing(env: map<string, string>, name: string)
    requires name in RequiredNames
    ensures CheckEnvironment(env[name := ""]).Err?
  {
  }
}
