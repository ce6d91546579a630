/** The backend constructor: reading and validating the options it is given. */
module Configuration {
  import opened Wrappers
  import opened Errors
  import opened Text

  /** The options the constructor looks up; None is a key that is not present. */
  datatype Options = Options(
    apiId: Option<string>,
    apiHash: Option<string>,
    phoneNumber: Option<string>,
    authCode: Option<string>,
    password: Option<string>,
    channelName: Option<string>)

  /** The validated settings of one backend instance. The auth code and the password are
      optional (None is a null field). */
  datatype Config = Config(
    apiId: int32,
    apiHash: string,
    phoneNumber: string,
    authCode: Option<string>,
    password: Option<string>,
    channelName: string)

  /** An option as the constructor stores it: trimmed when present, null otherwise. */
  function TrimOption(o: Option<string>): Option<string>
  {
    match o
    case None => None
    case Some(s) => Some(Trim(s))
  }

  /** String.IsNullOrEmpty. */
  predicate IsNullOrEmpty(o: Option<string>)
  {
    o.None? || o.value == []
  }

  /** An option that is absent or holds only white space. */
  predicate Missing(o: Option<string>)
  {
    o.None? || IsBlank(o.value)
  }

  /** The API id field: parsed when present, 0 (the field's default) when absent. */
  function ApiIdOf(opts: Options): Result<int32, Error>
  {
    match opts.apiId
    case None => Success(0)
    case Some(s) => ParseInt32(s)
  }

  /** The constructor: parse the API id, trim the string options, then reject a zero API id,
      an empty API hash, an empty phone number and an empty channel name, in that order. */
  function Configure(opts: Options): (r: Result<Config, Error>)
    // the settings kept have a non-zero API id and non-empty hash, phone number and channel
    ensures r.Success? ==>
              r.value.apiId != 0 && r.value.apiHash != [] && r.value.phoneNumber != [] && r.value.channelName != []
    // every rejection is a malformed API id or one of the four missing settings
    ensures r.Failure? ==>
              r.error in {NumberFormat, NumberOverflow, NoApiId, NoApiHash, NoPhoneNumber, NoChannelName}
  {
    var apiId := ApiIdOf(opts);
    var apiHash := TrimOption(opts.apiHash);
    var phoneNumber := TrimOption(opts.phoneNumber);
    var channelName := TrimOption(opts.channelName);
    if apiId.Failure? then Failure(apiId.error)
    else if apiId.value == 0 then Failure(NoApiId)
    else if IsNullOrEmpty(apiHash) then Failure(NoApiHash)
    else if IsNullOrEmpty(phoneNumber) then Failure(NoPhoneNumber)
    else if IsNullOrEmpty(channelName) then Failure(NoChannelName)
    else Success(Config(apiId.value, apiHash.value, phoneNumber.value,
                        TrimOption(opts.authCode), TrimOption(opts.password), channelName.value))
  }

  /** A trimmed option is null or empty exactly when the option is missing. */
  lemma TrimmedEmptyIffMissing(o: Option<string>)
    ensures IsNullOrEmpty(TrimOption(o)) <==> Missing(o)
  {
    if o.Some? {
      TrimEmptyIffBlank(o.value);
    }
  }

  /** A trimmed string that is not empty starts and ends with a character that is not white
      space. */
  predicate IsTrimmedNonEmpty(s: string)
  {
    s != [] && !IsWhiteSpace(s[0]) && !IsWhiteSpace(s[|s| - 1])
  }

  /** The constructor succeeds exactly when the API id parses to a non-zero value and the API
      hash, phone number and channel name are present and not all white space; the settings
      it keeps are then the trimmed options. */
  lemma ConfigureAccepts(opts: Options)
    ensures Configure(opts).Success? <==>
              && ApiIdOf(opts).Success? && ApiIdOf(opts).value != 0
              && !Missing(opts.apiHash) && !Missing(opts.phoneNumber) && !Missing(opts.channelName)
    ensures Configure(opts).Success? ==>
              var c := Configure(opts).value;
              && c.apiId == ApiIdOf(opts).value
              && Some(c.apiHash) == TrimOption(opts.apiHash) && IsTrimmedNonEmpty(c.apiHash)
              && Some(c.phoneNumber) == TrimOption(opts.phoneNumber) && IsTrimmedNonEmpty(c.phoneNumber)
              && Some(c.channelName) == TrimOption(opts.channelName) && IsTrimmedNonEmpty(c.channelName)
              && c.authCode == TrimOption(opts.authCode) && c.password == TrimOption(opts.password)
  {
    TrimmedEmptyIffMissing(opts.apiHash);
    TrimmedEmptyIffMissing(opts.phoneNumber);
    TrimmedEmptyIffMissing(opts.channelName);
    if Configure(opts).Success? {
      TrimShape(opts.apiHash.value);
      TrimShape(opts.phoneNumber.value);
      TrimShape(opts.channelName.value);
    }
  }

  /** Each rejection names the first check that fails: a malformed API id, then a zero API id,
      then a missing API hash, phone number and channel name. */
  lemma ConfigureRejects(opts: Options)
    ensures ApiIdOf(opts).Failure? ==> Configure(opts) == Failure(ApiIdOf(opts).error)
    ensures Configure(opts) == Failure(NoApiId) <==> ApiIdOf(opts) == Success(0)
    ensures Configure(opts) == Failure(NoApiHash) <==>
              ApiIdOf(opts).Success? && ApiIdOf(opts).value != 0 && Missing(opts.apiHash)
    ensures Configure(opts) == Failure(NoPhoneNumber) <==>
              && ApiIdOf(opts).Success? && ApiIdOf(opts).value != 0
              && !Missing(opts.apiHash) && Missing(opts.phoneNumber)
    ensures Configure(opts) == Failure(NoChannelName) <==>
              && ApiIdOf(opts).Success? && ApiIdOf(opts).value != 0
              && !Missing(opts.apiHash) && !Missing(opts.phoneNumber) && Missing(opts.channelName)
  {
    TrimmedEmptyIffMissing(opts.apiHash);
    TrimmedEmptyIffMissing(opts.phoneNumber);
    TrimmedEmptyIffMissing(opts.channelName);
    var id := ApiIdOf(opts);
    var r := Configure(opts);
    if id.Failure? {
      assert r == Failure(id.error) && (id.error == NumberFormat || id.error == NumberOverflow);
    } else if id.value == 0 {
      assert r == Failure(NoApiId);
    } else if Missing(opts.apiHash) {
      assert r == Failure(NoApiHash);
    } else if Missing(opts.phoneNumber) {
      assert r == Failure(NoPhoneNumber);
    } else if Missing(opts.channelName) {
      assert r == Failure(NoChannelName);
    } else {
      assert r.Success?;
    }
  }
}
