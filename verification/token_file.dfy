/** The JSON token file: what the reader accepts and what a write leaves behind. */
module TokenFile {
  import opened Wrappers

  /** Seconds a token must still be valid for beyond "now" to be handed out. */
  const SafetyMargin: int := 20

  /**
   * The content of the token file as the reader sees it.
   * `Malformed` stands for every content the reader rejects by raising: text that is not JSON
   * (an empty or partially written file included), JSON that is not an object, an
   * `expired_timestamp` that is `null` or a string. A floating-point or boolean
   * `expired_timestamp`, which the reader would compare without raising, is folded into
   * `Malformed` as well: the model keeps expiries integral.
   * In a `Record`, `token == None` means the key is missing or `null`, and
   * `expiredTimestamp == None` means the key is missing (the reader then uses 0).
   */
  datatype FileContent =
    | Malformed
    | Record(token: Option<string>, expiredTimestamp: Option<int>, lastUpdate: Option<int>)

  /** How an attempt to write the token file ended. */
  datatype WriteOutcome =
    | Written      // the record was written completely
    | OpenFailed   // the file could not be opened for writing; it is left as it was
    | WriteFailed  // opening for writing truncated the file, then the write itself failed

  /** Python truthiness of a token value: `None` and the empty string are falsy, any other string is truthy. */
  predicate IsTruthy(t: Option<string>): (truthy: bool)
    ensures truthy ==> t.Some? && |t.value| > 0
    ensures !truthy ==> t.None? || |t.value| == 0
  {
    t.Some? && t.value != ""
  }

  /** The expiry the reader compares against the clock; a missing key counts as 0. */
  function StoredExpiry(rec: FileContent): int
    requires rec.Record?
  {
    rec.expiredTimestamp.GetOr(0)
  }

  /**
   * The token the file yields at time `now` (`_read_token_from_file`): the stored token when the
   * file exists, parses, and its expiry lies more than the safety margin in the future;
   * `None` for a missing file, a malformed one, or a stale one.
   */
  function TokenFromFile(file: Option<FileContent>, now: int): (r: Option<string>)
    ensures r.Some? ==> file.Some? && file.value.Record? && StoredExpiry(file.value) > now + SafetyMargin
    ensures r.Some? ==> r == file.value.token
  {
    match file
    case None => None
    case Some(Malformed) => None
    case Some(Record(token, _, _)) =>
      if StoredExpiry(file.value) > now + SafetyMargin then token else None
  }

  /**
   * The file content `_save_token_to_file` produces from the in-memory token and expiry at time
   * `now`. An absent expiry would be written as JSON `null`, which the reader rejects.
   */
  function WrittenRecord(token: Option<string>, expiredTimestamp: Option<int>, now: int): (rec: FileContent)
    ensures expiredTimestamp.Some? ==>
              rec.Record? && rec.token == token && StoredExpiry(rec) == expiredTimestamp.value
              && rec.lastUpdate == Some(now)
    ensures expiredTimestamp.None? ==> rec.Malformed?
  {
    match expiredTimestamp
    case None => Malformed
    case Some(e) => Record(token, Some(e), Some(now))
  }

  /**
   * The file after an attempt to write `rec` over `file`: the record when the write completes,
   * the old file when it could not be opened, and a truncated file the reader rejects when
   * writing failed after the open.
   */
  function AfterWrite(file: Option<FileContent>, rec: FileContent, outcome: WriteOutcome): (after: Option<FileContent>)
    ensures outcome == Written ==> after == Some(rec)
    ensures outcome == OpenFailed ==> after == file
    ensures outcome == WriteFailed ==> after.Some? && after.value.Malformed?
  {
    match outcome
    case Written => Some(rec)
    case OpenFailed => file
    case WriteFailed => Some(Malformed)
  }

  /** A file whose reader test passes at `now` yields its token at `now`, and only a present file can. */
  lemma ReadAccepts(file: Option<FileContent>, now: int)
    ensures TokenFromFile(file, now).Some? <==>
              file.Some? && file.value.Record? && file.value.token.Some?
              && StoredExpiry(file.value) > now + SafetyMargin
  {
  }

  /** A record without an `expired_timestamp` key is accepted only at times before -20. */
  lemma MissingExpiryCountsAsZero(token: Option<string>, lastUpdate: Option<int>, now: int)
    requires now >= -SafetyMargin
    ensures TokenFromFile(Some(Record(token, None, lastUpdate)), now) == None
  {
  }

  /**
   * Round trip: a record written at `now` with expiry `e` is accepted by the reader at any time
   * `t` exactly when `e > t + 20`, and then yields the token that was written.
   */
  lemma WriteThenRead(file: Option<FileContent>, token: Option<string>, e: int, now: int, t: int)
    ensures TokenFromFile(AfterWrite(file, WrittenRecord(token, Some(e), now), Written), t)
            == if e > t + SafetyMargin then token else None
  {
  }

  /** A record written without an expiry holds `null` there, and the reader rejects it at every time. */
  lemma NullExpiryIsAMiss(token: Option<string>, now: int, t: int)
    ensures TokenFromFile(Some(WrittenRecord(token, None, now)), t) == None
  {
  }

  /** A write that fails after opening leaves a file the reader rejects at every time. */
  lemma FailedWriteIsAMiss(file: Option<FileContent>, rec: FileContent, t: int)
    ensures TokenFromFile(AfterWrite(file, rec, WriteFailed), t) == None
  {
  }

  /** Once the reader rejects a file as stale, it rejects it at every later time too. */
  lemma {:induction false} StaleStaysStale(file: Option<FileContent>, now: int, later: int)
    requires now <= later
    requires TokenFromFile(file, now) == None
    ensures TokenFromFile(file, later) == None
  {
  }
}
