/** The backend configuration check, the choice of client and the responses
    of the stand-in client used when no backend is configured. The two
    environment values are parameters; a missing one is `None`. */
module Supabase {
  import opened Base

  /** The values of the environment template. */
  const PlaceholderUrl: string := "https://your-project-id.supabase.co"
  const PlaceholderKey: string := "your-anon-key-here"
  const SecureScheme: string := "https://"

  predicate StartsWith(s: string, prefix: string)
  {
    |prefix| <= |s| && s[..|prefix|] == prefix
  }

  /** An environment value is truthy: present and not empty. */
  predicate Truthy(v: Option<string>)
  {
    v.Some? && v.value != ""
  }

  /** `isSupabaseConfigured`. */
  function IsConfigured(url: Option<string>, key: Option<string>): (ok: bool)
    ensures ok ==> url.Some? && key.Some?
    ensures ok ==> StartsWith(url.value, SecureScheme) && |key.value| > 20
    ensures ok ==> url.value != PlaceholderUrl && key.value != PlaceholderKey
  {
    Truthy(url) && Truthy(key) && url.value != PlaceholderUrl && StartsWith(url.value, SecureScheme)
    && key.value != PlaceholderKey && |key.value| > 20
  }

  /** The untouched template is never accepted, whatever the other value. */
  lemma TemplateRejected(url: Option<string>, key: Option<string>)
    ensures !IsConfigured(Some(PlaceholderUrl), key)
    ensures !IsConfigured(url, Some(PlaceholderKey))
  {
  }

  /** The template key is already too short, so its own test never decides. */
  lemma PlaceholderKeyTooShort()
    ensures |PlaceholderKey| <= 20
  {
  }

  /** Any secure URL other than the template's, with a key longer than 20
      characters other than the template's, is accepted. */
  lemma ConfiguredWhenValid(url: string, key: string)
    requires StartsWith(url, SecureScheme) && url != PlaceholderUrl && |key| > 20
    ensures IsConfigured(Some(url), Some(key))
  {
    assert key != PlaceholderKey;
  }

  /** The connection settings a real client is created with. */
  datatype Client = Client(url: string, key: string)

  /** `supabase`: a client only when configured, none otherwise. */
  function CreateClient(url: Option<string>, key: Option<string>): (client: Option<Client>)
    ensures client.Some? <==> IsConfigured(url, key)
    ensures client.Some? ==> client.value == Client(url.value, key.value)
  {
    if IsConfigured(url, key) then Some(Client(url.value, key.value)) else None
  }

  const NotConfiguredMessage: string :=
    "Supabase not configured. Please set up your Supabase project and update the .env file."

  /** An authentication response: user, session and error message. */
  datatype AuthResponse = AuthResponse(user: Option<string>, session: Option<string>, error: Option<string>)

  /** `signInWithPassword` of the stand-in client: never signs anyone in. */
  function MockSignIn(): (r: AuthResponse)
    ensures r.user.None? && r.session.None?
    ensures r.error.Some? && |r.error.value| > 0
  {
    AuthResponse(None, None, Some(NotConfiguredMessage))
  }

  /** `signUp` of the stand-in client: never creates an account. */
  function MockSignUp(): (r: AuthResponse)
    ensures r.user.None? && r.session.None?
    ensures r.error.Some? && |r.error.value| > 0
  {
    AuthResponse(None, None, Some(NotConfiguredMessage))
  }

  /** `getSession` of the stand-in client: no session and no error. */
  function MockGetSession(): (r: AuthResponse)
    ensures r.session.None? && r.error.None?
  {
    AuthResponse(None, None, None)
  }
}
