/** The authentication strategy handed to the service client: it only reads the token cache. */
module Auth {
  import opened Wrappers
  import opened Cache

  /** The error thrown when no token is cached: "Failed to retrieve access token". */
  datatype AuthError = FailedToRetrieveAccessToken

  class LocalAuthStrategy {
    const tokenCache: TokenCache

    constructor(cache: TokenCache)
      ensures tokenCache == cache
    {
      tokenCache := cache;
    }

    /** `setConfiguration`: accepts any configuration and ignores it. */
    method SetConfiguration<C>(configuration: C)
      ensures unchanged(tokenCache)
    {
    }

    /** `getOrCreateAccessToken`: the cached token, or an error when there is none; never creates one. */
    method GetOrCreateAccessToken() returns (r: Result<AccessToken, AuthError>)
      ensures r.Ok? <==> TokenKey in tokenCache.data
      ensures r.Ok? ==> r.value == tokenCache.data[TokenKey]
      ensures r.Err? ==> r.error == FailedToRetrieveAccessToken
    {
      var existing := tokenCache.GetToken();
      if existing.None? {
        return Err(FailedToRetrieveAccessToken);
      }
      r := Ok(existing.value);
    }

    /** `getAccessToken`: the cached token, or null; it never fails. */
    method GetAccessToken() returns (t: Option<AccessToken>)
      ensures t.Some? <==> TokenKey in tokenCache.data
      ensures t.Some? ==> t.value == tokenCache.data[TokenKey]
    {
      t := tokenCache.GetToken();
    }

    /** `removeAccessToken`: deletes the cached token. */
    method RemoveAccessToken()
      requires tokenCache.Valid()
      modifies tokenCache
      ensures tokenCache.data == old(tokenCache.data) - {TokenKey}
      ensures tokenCache.Valid() && tokenCache.GetToken() == None
    {
      tokenCache.DelToken();
    }
  }

  /** After a sign-out both getters report that no token is available. */
  method SignOut(auth: LocalAuthStrategy) returns (token: Option<AccessToken>, created: Result<AccessToken, AuthError>)
    requires auth.tokenCache.Valid()
    modifies auth.tokenCache
    ensures token == None && created == Err(FailedToRetrieveAccessToken)
  {
    auth.RemoveAccessToken();
    token := auth.GetAccessToken();
    created := auth.GetOrCreateAccessToken();
  }
}
