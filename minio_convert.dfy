/** MinIO error conversion (services/minio/minio_convert.go). */
module MinioConvert {
  import opened Wrappers
  import opened StorageConfig
  import opened Errors
  import opened ErrorProcessor
  import opened MinioErrorProcess

  /** The order HandleError wires: default, then no-such-host, then access-denied. */
  function Chain(): seq<Rule> {
    [DefaultRule(), NoSuchHostRule(), AccessDeniedRule()]
  }

  /** What HandleError computes: the first matching node of the chain decides. */
  function Classification(err: NativeError): Option<StorageError> {
    FirstMatch(Chain(), err)
  }

  /**
   * HandleError builds a fresh chain on every call and runs its head, so its
   * result depends on `err` alone.
   */
  method HandleError(err: NativeError) returns (r: Option<StorageError>)
    ensures r == Classification(err)
  {
    var defaultProcessor := new ErrorProcessorNode(DefaultMatch, DefaultClassify);
    var noSuchHostProcessor := new ErrorProcessorNode(NoSuchHostMatch, NoSuchHostClassify);
    var accessDeniedProcessor := new ErrorProcessorNode(AccessDeniedMatch, AccessDeniedClassify);
    defaultProcessor.SetNext(noSuchHostProcessor);
    noSuchHostProcessor.SetNext(accessDeniedProcessor);
    ThreeNodeChain(defaultProcessor, noSuchHostProcessor, accessDeniedProcessor);
    r := defaultProcessor.Process(err, [defaultProcessor, noSuchHostProcessor, accessDeniedProcessor]);
  }

  /** Convert: nil stays nil, an already classified error is returned as it is, anything else goes through the chain. */
  function Convert(err: Option<NativeError>): (r: Option<StorageError>)
    ensures err.None? ==> r.None?
    ensures err.Some? && err.value.Classified? ==> r == Some(err.value.se)
  {
    match err
    case None => None
    case Some(Classified(se)) => Some(se)
    case Some(e) => Classification(e)
  }

  /** Any ErrorResponse is classified by the first node: MINIO, the mapped code, its message, the response as cause. */
  lemma ResponseClassifiedByDefault(code: string, message: string, text: string)
    ensures var e := MinioErrorResponse(code, message, text);
      Convert(Some(e)) == Some(StorageError(MINIO, GetCode(code), message, e))
  {
  }

  /** The exact text "no such host" on a non-response error: NoSuchBucket, tagged OSS. */
  lemma NoSuchHostClassified(e: NativeError)
    requires !e.MinioErrorResponse? && !e.Classified? && ErrorText(e) == "no such host"
    ensures Convert(Some(e)) == Some(StorageError(OSS, ErrCodeNoSuchBucket, "no such host", e))
  {
    assert Chain()[1..] == [NoSuchHostRule(), AccessDeniedRule()];
    assert FirstMatch(Chain(), e) == FirstMatch(Chain()[1..], e);
  }

  /** The exact text "access denied" on a non-response error: AccessDenied, tagged OSS. */
  lemma AccessDeniedClassified(e: NativeError)
    requires !e.MinioErrorResponse? && !e.Classified? && ErrorText(e) == "access denied"
    ensures Convert(Some(e)) == Some(StorageError(OSS, ErrCodeAccessDenied, "access denied", e))
  {
    assert Chain()[1..] == [NoSuchHostRule(), AccessDeniedRule()];
    assert Chain()[1..][1..] == [AccessDeniedRule()];
    assert FirstMatch(Chain(), e) == FirstMatch(Chain()[1..], e) == FirstMatch(Chain()[1..][1..], e);
  }

  /** Any other foreign error falls off the end of the chain and converts to nil. */
  lemma UnmatchedConvertsToNil(e: NativeError)
    requires !e.MinioErrorResponse? && !e.Classified?
    requires ErrorText(e) != "no such host" && ErrorText(e) != "access denied"
    ensures Convert(Some(e)) == None
  {
  }

  /** The host matcher compares whole texts: a resolver message that merely mentions "no such host" is not classified. */
  lemma NoSuchHostIsExactMatch()
    ensures Convert(Some(Plain("dial tcp: lookup minio: no such host"))) == None
  {
  }

  /** Converting an already converted error changes nothing. */
  lemma ConvertIdempotent(err: Option<NativeError>)
    ensures Convert(AsNative(Convert(err))) == Convert(err)
  {
  }
}
