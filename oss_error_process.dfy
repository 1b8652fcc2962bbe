/**
 * The Aliyun OSS classifiers (services/oss/error_process.go): the provider
 * code table and the three chain nodes.
 */
module OssErrorProcess {
  import opened GoStrings
  import opened StorageConfig
  import opened Errors
  import opened ErrorProcessor

  /** OSS error codes and the taxonomy code each stands for. */
  const ErrorCodeMap: map<string, string> := map[
    "NoSuchKey" := ErrCodeNoSuchKey,
    "NoSuchBucket" := ErrCodeNoSuchBucket,
    "AccessDenied" := ErrCodeAccessDenied,
    "BucketNotFound" := ErrCodeNoSuchBucket,
    "RequestTimeout" := ErrCodeRequestTimeout,
    "InvalidObjectName" := ErrCodeInvalidObjectName,
    "InvalidAccessKeyId" := ErrCodeInvalidAccessKeyID,
    "BucketAlreadyExists" := ErrCodeBucketAlreadyExists,
    "SignatureDoesNotMatch" := ErrCodeInvalidAccessKeySecret
  ]

  /** `getCode`: always a taxonomy code, and Unknown exactly for codes missing from the table. */
  function GetCode(ossCode: string): (r: string)
    ensures r in ErrorCodes
    ensures r == ErrCodeUnknown <==> ossCode !in ErrorCodeMap
    ensures ossCode in ErrorCodeMap ==> r == ErrorCodeMap[ossCode]
  {
    if ossCode in ErrorCodeMap then ErrorCodeMap[ossCode] else ErrCodeUnknown
  }

  /**
   * DefaultErrorProcessor.Match: the error is an `oss.ServiceError`; an
   * error classified already, a MinIO error or any other error is left to
   * the next node.
   */
  function DefaultMatch(e: NativeError): (r: bool)
    ensures r <==> !(e.Classified? || e.MinioErrorResponse? || e.Plain?)
  {
    e.OssServiceError?
  }

  /**
   * DefaultErrorProcessor's classification: OSS, the mapped code, the
   * service error's own message, the original error as cause. On any other
   * error the type assertion yields the zero ServiceError; Process never
   * classifies such an error.
   */
  function DefaultClassify(e: NativeError): (r: StorageError)
    ensures r.provider == OSS && r.code in ErrorCodes && r.native == e
    ensures e.OssServiceError? ==> r.message == e.message && (r.code == ErrCodeUnknown <==> e.code !in ErrorCodeMap)
    ensures !e.OssServiceError? ==> r.code == ErrCodeUnknown && r.message == ""
  {
    var code := if e.OssServiceError? then e.code else "";
    var message := if e.OssServiceError? then e.message else "";
    NewStorageError(OSS, GetCode(code), message, e)
  }

  /**
   * NoSuchHostErrorProcessor.Match: "no such host" occurs anywhere in the
   * error text, so it accepts the exact text and longer ones such as a
   * resolver's "dial tcp: lookup h: no such host"; the exact text
   * "access denied" does not match.
   */
  function NoSuchHostMatch(e: NativeError): (r: bool)
    ensures ErrorText(e) == "no such host" ==> r
    ensures (exists p, q :: ErrorText(e) == p + "no such host" + q) ==> r
    ensures AccessDeniedMatch(e) ==> !r
  {
    ContainsWithin(ErrorText(e), "no such host");
    assert OccursAt("no such host", "no such host", 0);
    AccessDeniedLacksHost();
    Contains(ErrorText(e), "no such host")
  }

  /** NoSuchHostErrorProcessor reports BadGateway and keeps the text as message. */
  function NoSuchHostClassify(e: NativeError): (r: StorageError)
    ensures r.provider == OSS && r.code == ErrCodeBadGateway && r.native == e
    ensures r.message == ErrorText(e)
  {
    NewStorageError(OSS, ErrCodeBadGateway, ErrorText(e), e)
  }

  /** AccessDeniedErrorProcessor.Match: the error text is exactly "access denied", which no classified error renders. */
  function AccessDeniedMatch(e: NativeError): (r: bool)
    ensures e.Classified? ==> !r
  {
    ErrorText(e) == "access denied"
  }

  /** AccessDeniedErrorProcessor reports AccessDenied and keeps the text as message. */
  function AccessDeniedClassify(e: NativeError): (r: StorageError)
    ensures r.provider == OSS && r.code == ErrCodeAccessDenied && r.native == e
    ensures r.message == ErrorText(e)
  {
    NewStorageError(OSS, ErrCodeAccessDenied, ErrorText(e), e)
  }

  /** The text "access denied" does not contain "no such host". */
  lemma AccessDeniedLacksHost()
    ensures !Contains("access denied", "no such host")
  {
    var t, sub := "access denied", "no such host";
    forall i | 0 <= i <= |t| - |sub|
      ensures !OccursAt(t, sub, i)
    {
      assert t[i..i + |sub|][0] == t[i] != sub[0];
    }
  }

  /** A text built around `sub` contains it. */
  lemma ContainsWithin(s: string, sub: string)
    ensures (exists p, q :: s == p + sub + q) ==> Contains(s, sub)
  {
    if exists p, q :: s == p + sub + q {
      var p, q :| s == p + sub + q;
      assert s[|p|..|p| + |sub|] == sub;
      assert OccursAt(s, sub, |p|);
    }
  }

  function DefaultRule(): Rule { Rule(DefaultMatch, DefaultClassify) }
  function NoSuchHostRule(): Rule { Rule(NoSuchHostMatch, NoSuchHostClassify) }
  function AccessDeniedRule(): Rule { Rule(AccessDeniedMatch, AccessDeniedClassify) }

  /** Three table entries whose names differ from the taxonomy's. */
  lemma CredentialCodes()
    ensures GetCode("SignatureDoesNotMatch") == ErrCodeInvalidAccessKeySecret
    ensures GetCode("InvalidAccessKeyId") == ErrCodeInvalidAccessKeyID
    ensures GetCode("AccessDenied") == ErrCodeAccessDenied
  {
  }
}
