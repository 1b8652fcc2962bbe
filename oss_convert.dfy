/** OSS error conversion (services/oss/oss_convert.go). */
module OssConvert {
  import opened Wrappers
  import opened GoStrings
  import opened StorageConfig
  import opened Errors
  import opened ErrorProcessor
  import opened OssErrorProcess

  /** The order HandleError wires: default, then no-such-host, then access-denied. */
  function Chain(): seq<Rule> {
    [DefaultRule(), NoSuchHostRule(), AccessDeniedRule()]
  }

  /** What HandleError computes: the first matching node of the chain decides. */
  function Classification(err: NativeError): Option<StorageError> {
    FirstMatch(Chain(), err)
  }

  /** HandleError builds a fresh chain on every call and runs its head. */
  method HandleError(err: NativeError) returns (r: Option<StorageError>)
    ensures r == Classification(err)
  {
    var defaultProcessor := new ErrorProcessorNode(DefaultMatch, DefaultClassify);
    var noSuchHostProcessor := new ErrorProcessorNode(NoSuchHostMatch, NoSuchHostClassify);
    var accessDeniedProcessor := new ErrorProcessorNode(AccessDeniedMatch, AccessDeniedClassify);
    defaultProcessor.SetNext(noSuchHostProcessor);
    noSuchHostProcessor.SetNext(accessDeniedProcessor);
    ThreeNodeChain(defaultProcessor, noSuchHostProcessor, accessDeniedProcessor);
    r := defaultProcessor.Process(err, [defaultProcessor, noSuchHostProcessor, accessDeniedProcessor]);
  }

  /** Convert: nil stays nil, an already classified error is returned as it is, anything else goes through the chain. */
  function Convert(err: Option<NativeError>): (r: Option<StorageError>)
    ensures err.None? ==> r.None?
    ensures err.Some? && err.value.Classified? ==> r == Some(err.value.se)
  {
    match err
    case None => None
    case Some(Classified(se)) => Some(se)
    case Some(e) => Classification(e)
  }

  /** Any ServiceError is classified by the first node and never reaches the string matchers. */
  lemma ServiceErrorClassifiedByDefault(code: string, message: string, text: string)
    ensures var e := OssServiceError(code, message, text);
      Convert(Some(e)) == Some(StorageError(OSS, GetCode(code), message, e))
  {
  }

  /** A foreign error whose text contains "no such host" anywhere is a BadGateway. */
  lemma NoSuchHostClassified(e: NativeError)
    requires !e.OssServiceError? && !e.Classified? && Contains(ErrorText(e), "no such host")
    ensures Convert(Some(e)) == Some(StorageError(OSS, ErrCodeBadGateway, ErrorText(e), e))
  {
    assert Chain()[1..] == [NoSuchHostRule(), AccessDeniedRule()];
    assert FirstMatch(Chain(), e) == FirstMatch(Chain()[1..], e);
  }

  /** The exact text "access denied" on a foreign error is AccessDenied. */
  lemma AccessDeniedClassified(e: NativeError)
    requires !e.OssServiceError? && !e.Classified? && ErrorText(e) == "access denied"
    ensures Convert(Some(e)) == Some(StorageError(OSS, ErrCodeAccessDenied, "access denied", e))
  {
    AccessDeniedLacksHost();
    assert Chain()[1..] == [NoSuchHostRule(), AccessDeniedRule()];
    assert Chain()[1..][1..] == [AccessDeniedRule()];
    assert FirstMatch(Chain(), e) == FirstMatch(Chain()[1..], e) == FirstMatch(Chain()[1..][1..], e);
  }

  /** Any other foreign error falls off the end of the chain and converts to nil. */
  lemma UnmatchedConvertsToNil(e: NativeError)
    requires !e.OssServiceError? && !e.Classified?
    requires !Contains(ErrorText(e), "no such host") && ErrorText(e) != "access denied"
    ensures Convert(Some(e)) == None
  {
  }

  /** Unlike MinIO's, the host matcher accepts a resolver message that mentions "no such host". */
  lemma NoSuchHostIsSubstringMatch()
    ensures Convert(Some(Plain("dial tcp: lookup oss: no such host"))).Some?
    ensures Convert(Some(Plain("dial tcp: lookup oss: no such host"))).value.code == ErrCodeBadGateway
  {
    var t := "dial tcp: lookup oss: no such host";
    assert OccursAt(t, "no such host", 22);
    NoSuchHostClassified(Plain(t));
  }

  /** Every classification this converter makes itself is tagged OSS. */
  lemma ProviderAlwaysOss(e: NativeError)
    requires !e.Classified? && Convert(Some(e)).Some?
    ensures Convert(Some(e)).value.provider == OSS
  {
  }

  /** Converting an already converted error changes nothing. */
  lemma ConvertIdempotent(err: Option<NativeError>)
    ensures Convert(AsNative(Convert(err))) == Convert(err)
  {
  }
}
