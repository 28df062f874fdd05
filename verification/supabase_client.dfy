/**
 * Whether the shared backend client exists. The two environment values may
 * be unset; an unset value and an empty string are both falsy in the guard.
 * Whether `createClient` throws is outside the model and arrives as a flag.
 */
module SupabaseClient {
  import opened Wrappers
  import opened Text

  /** JavaScript truthiness of a possibly-undefined string. */
  predicate Truthy(v: Option<string>) {
    v.Some? && v.value != ""
  }

  /** The guard in front of `createClient`: both values set and an `https://` URL. */
  predicate CredentialsAccepted(url: Option<string>, key: Option<string>) {
    Truthy(url) && Truthy(key) && StartsWith(url.value, "https://")
  }

  /** The exported client is non-null exactly when the guard passes and construction does not throw. */
  predicate ClientExists(url: Option<string>, key: Option<string>, constructionThrows: bool) {
    CredentialsAccepted(url, key) && !constructionThrows
  }

  /** A client needs both a non-empty URL and a non-empty key. */
  lemma ClientNeedsBothValues(url: Option<string>, key: Option<string>, throws: bool)
    requires ClientExists(url, key, throws)
    ensures url.Some? && |url.value| > 0
    ensures key.Some? && |key.value| > 0
  {
  }

  /** A URL beginning with `http://` never yields a client. */
  lemma PlainHttpRejected(url: string, key: Option<string>, throws: bool)
    requires StartsWith(url, "http://")
    ensures !ClientExists(Some(url), key, throws)
  {
    // the fifth character is ':' in the URL and 's' in the required prefix
    assert url[..7][4] == ':';
  }

  /** A constructor that throws leaves the client null whatever the credentials. */
  lemma ConstructionFailureLeavesNull(url: Option<string>, key: Option<string>)
    ensures !ClientExists(url, key, true)
  {
  }

  /** With all three conditions met and a constructor that returns, the client exists. */
  lemma AcceptedCredentialsGiveClient(url: string, key: string)
    requires url != "" && key != "" && StartsWith(url, "https://")
    ensures ClientExists(Some(url), Some(key), false)
  {
  }
}
