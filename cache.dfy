/** The in-memory token store: a map that only ever holds the key "token". */
module Cache {
  import opened Wrappers

  /** The service's access token record (`expires` is the optional absolute expiry). */
  datatype AccessToken = AccessToken(
    accessToken: string, tokenType: string, expiresIn: int, refreshToken: string, expires: Option<int>)

  /** The one key the cache uses. */
  const TokenKey: string := "token"

  class TokenCache {
    var data: map<string, AccessToken>

    /** The map holds no key other than "token". */
    ghost predicate Valid()
      reads this
    {
      data.Keys <= {TokenKey}
    }

    /** A fresh cache is empty, so it holds no token. */
    constructor()
      ensures data == map[] && Valid()
      ensures GetToken() == None
    {
      data := map[];
    }

    /** `getToken`: the entry under "token", if any. */
    function GetToken(): (t: Option<AccessToken>)
      reads this
      ensures t.Some? <==> TokenKey in data
      ensures t.Some? ==> data[TokenKey] == t.value
      ensures Valid() ==> (t.None? <==> data == map[])
    {
      if TokenKey in data then Some(data[TokenKey]) else None
    }

    /** `setToken`: stores the token under "token", replacing any earlier one. */
    method SetToken(token: AccessToken)
      requires Valid()
      modifies this
      ensures data == old(data)[TokenKey := token]
      ensures Valid() && GetToken() == Some(token)
      ensures data == map[TokenKey := token]
    {
      data := data[TokenKey := token];
    }

    /** `delToken`: removes the entry under "token"; on an empty cache nothing changes. */
    method DelToken()
      requires Valid()
      modifies this
      ensures data == old(data) - {TokenKey}
      ensures Valid() && GetToken() == None && data == map[]
      ensures old(data) == map[] ==> data == old(data)
    {
      data := data - {TokenKey};
    }
  }

  /** Set, get, delete, get: the first get sees the token, the second sees nothing. */
  method SetGetDelete(cache: TokenCache, token: AccessToken) returns (first: Option<AccessToken>, second: Option<AccessToken>)
    requires cache.Valid()
    modifies cache
    ensures first == Some(token) && second == None
    ensures cache.Valid() && cache.data == map[]
  {
    cache.SetToken(token);
    first := cache.GetToken();
    cache.DelToken();
    second := cache.GetToken();
  }
}
