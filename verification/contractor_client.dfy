/**
 * The `Token` class of the contractor API client: an object that hands out an OAuth2
 * client-credentials bearer token, caching it in memory and in a JSON file.
 *
 * The clock, the identity provider and the file system are inputs: each call receives the
 * current time, the outcome of the token request and the outcome of the file write. The token
 * file itself is the field `file`. Ghost counters record how many times the file was read, a
 * token was fetched, and the file was written.
 */
module ContractorClient {
  import opened Wrappers
  import opened TokenFile
  import opened TokenSpec

  const RealmsPath: string := "/auth/realms/"
  const DiscoveryPath: string := "/.well-known/openid-configuration"

  /**
   * The OpenID Connect discovery URL of `realm` at `baseUrl`: the base URL, then the realms
   * path, then the realm, then the well-known configuration path.
   */
  function OpenIdUrl(baseUrl: string, realm: string): (url: string)
    ensures |url| == |baseUrl| + |RealmsPath| + |realm| + |DiscoveryPath|
    ensures url[..|baseUrl|] == baseUrl
    ensures url[|baseUrl|..|baseUrl| + |RealmsPath|] == RealmsPath
    ensures url[|baseUrl| + |RealmsPath|..|url| - |DiscoveryPath|] == realm
    ensures url[|url| - |DiscoveryPath|..] == DiscoveryPath
  {
    var url := baseUrl + RealmsPath + realm + DiscoveryPath;
    assert url[..|baseUrl|] == baseUrl;
    assert url[|baseUrl|..|baseUrl| + |RealmsPath|] == RealmsPath;
    assert url[|baseUrl| + |RealmsPath|..|url| - |DiscoveryPath|] == realm;
    assert url[|url| - |DiscoveryPath|..] == DiscoveryPath;
    url
  }

  class Token {
    var token: Option<string>
    var expiredTimestamp: Option<int>
    const filename: string
    const clientId: string
    const clientSecret: string
    const openidUrl: string

    /** The token file named by `filename`; `None` when it does not exist. */
    var file: Option<FileContent>

    ghost var fileReads: nat
    ghost var fetches: nat
    ghost var writes: nat

    /** The state `get_token` works on, as a value. */
    function Snapshot(): Cache
      reads this
    {
      Cache(token, expiredTimestamp, file)
    }

    /** `__init__`: nothing cached in memory; the credentials are stored as given. */
    constructor (filename: string, clientId: string, clientSecret: string, baseUrl: string, realm: string,
                 file: Option<FileContent>)
      ensures token == None && expiredTimestamp == None
      ensures Snapshot() == Initial(file)
      ensures this.filename == filename && this.clientId == clientId && this.clientSecret == clientSecret
      ensures openidUrl == OpenIdUrl(baseUrl, realm)
      ensures fileReads == 0 && fetches == 0 && writes == 0
    {
      this.token := None;
      this.expiredTimestamp := None;
      this.filename := filename;
      this.clientId := clientId;
      this.clientSecret := clientSecret;
      this.openidUrl := OpenIdUrl(baseUrl, realm);
      this.file := file;
      this.fileReads, this.fetches, this.writes := 0, 0, 0;
    }

    /** `_read_token_from_file`: one read of the file, which yields its token only while it is fresh. */
    method ReadTokenFromFile(now: int) returns (r: Option<string>)
      modifies this`fileReads
      ensures r == TokenFromFile(file, now)
      ensures r.Some? ==> file.Some? && file.value.Record? && StoredExpiry(file.value) > now + SafetyMargin
      ensures fileReads == old(fileReads) + 1
    {
      fileReads := fileReads + 1;
      match file {
        case None =>
          r := None;
        case Some(Malformed) =>
          r := None;
        case Some(Record(stored, exp, _)) =>
          if exp.GetOr(0) > now + SafetyMargin {
            r := stored;
          } else {
            r := None;
          }
      }
    }

    /**
     * `_save_token_to_file`: one attempt to write the in-memory token and expiry, stamped with
     * `now`. A failure is swallowed; what it leaves on disk depends on where it happened.
     */
    method SaveTokenToFile(now: int, outcome: WriteOutcome)
      modifies this`file, this`writes
      ensures file == AfterWrite(old(file), WrittenRecord(token, expiredTimestamp, now), outcome)
      ensures outcome == Written && expiredTimestamp.Some? ==>
                TokenFromFile(file, now) == (if expiredTimestamp.value > now + SafetyMargin then token else None)
      ensures writes == old(writes) + 1
    {
      writes := writes + 1;
      match outcome {
        case Written =>
          file := Some(WrittenRecord(token, expiredTimestamp, now));
        case OpenFailed =>
        case WriteFailed =>
          file := Some(Malformed);
      }
    }

    /**
     * `get_token`. The result and the new state are those of `GetTokenStep`, and each counter
     * grows by the I/O that step performs; the branch-by-branch consequences are the lemmas next
     * to `GetTokenStep`.
     */
    method GetToken(now: int, fetch: FetchResult, write: WriteOutcome) returns (r: Result<Option<string>, FetchError>)
      modifies this`token, this`expiredTimestamp, this`file, this`fileReads, this`fetches, this`writes
      ensures var s := GetTokenStep(old(Snapshot()), Call(now, fetch, write));
              && r == s.result
              && Snapshot() == s.cache
              && fileReads == old(fileReads) + s.io.fileReads
              && fetches == old(fetches) + s.io.fetches
              && writes == old(writes) + s.io.writes
      ensures old(IsTokenValid(expiredTimestamp, now)) ==>
                r == Ok(old(token)) && unchanged(this)
      ensures r.Err? ==> token == old(token) && expiredTimestamp == old(expiredTimestamp) && file == old(file)
    {
      if IsTokenValid(expiredTimestamp, now) {
        r := Ok(token);
        return;
      }

      var fromFile := ReadTokenFromFile(now);
      if IsTruthy(fromFile) {
        token := fromFile;
        r := Ok(token);
        return;
      }

      fetches := fetches + 1;
      match fetch {
        case FetchFailed =>
          r := Err(AcquisitionFailed);
        case Fetched(accessToken, expClaim) =>
          token := accessToken;
          if accessToken.Some? && expClaim.Some? {
            expiredTimestamp := expClaim;
          } else {
            expiredTimestamp := Some(now + DefaultLifetime);
          }
          SaveTokenToFile(now, write);
          r := Ok(token);
      }
    }
  }
}
