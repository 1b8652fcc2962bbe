/**
 * The MinIO classifiers (services/minio/error_process.go): the provider code
 * table and the three chain nodes.
 */
module MinioErrorProcess {
  import opened StorageConfig
  import opened Errors
  import opened ErrorProcessor

  /** MinIO/S3 error codes and the taxonomy code each stands for. */
  const ErrorCodeMap: map<string, string> := map[
    "NoSuchKey" := ErrCodeNoSuchKey,
    "NoSuchBucket" := ErrCodeNoSuchBucket,
    "RequestTimeout" := ErrCodeRequestTimeout,
    "BucketNotFound" := ErrCodeNoSuchBucket,
    "502 Bad Gateway" := ErrCodeBadGateway,
    "InvalidAccessKeyId" := ErrCodeInvalidAccessKeyID,
    "SignatureDoesNotMatch" := ErrCodeInvalidAccessKeySecret,
    "BucketAlreadyOwnedByYou" := ErrCodeBucketAlreadyExists,
    "XMinioInvalidObjectName" := ErrCodeInvalidObjectName
  ]

  /** `getCode`: always a taxonomy code, and Unknown exactly for codes missing from the table. */
  function GetCode(minioCode: string): (r: string)
    ensures r in ErrorCodes
    ensures r == ErrCodeUnknown <==> minioCode !in ErrorCodeMap
    ensures minioCode in ErrorCodeMap ==> r == ErrorCodeMap[minioCode]
  {
    if minioCode in ErrorCodeMap then ErrorCodeMap[minioCode] else ErrCodeUnknown
  }

  /**
   * DefaultErrorProcessor.Match: the error is a `minio.ErrorResponse`; an
   * error classified already, an OSS error or any other error is left to the
   * next node.
   */
  function DefaultMatch(e: NativeError): (r: bool)
    ensures r <==> !(e.Classified? || e.OssServiceError? || e.Plain?)
  {
    e.MinioErrorResponse?
  }

  /**
   * DefaultErrorProcessor's classification: the mapped code, the response's
   * own message, and the original error as native cause. On any other error
   * the type assertion yields the zero response (empty code and message);
   * Process never classifies such an error.
   */
  function DefaultClassify(e: NativeError): (r: StorageError)
    ensures r.provider == MINIO && r.code in ErrorCodes && r.native == e
    ensures e.MinioErrorResponse? ==> r.message == e.message && (r.code == ErrCodeUnknown <==> e.code !in ErrorCodeMap)
    ensures !e.MinioErrorResponse? ==> r.code == ErrCodeUnknown && r.message == ""
  {
    var code := if e.MinioErrorResponse? then e.code else "";
    var message := if e.MinioErrorResponse? then e.message else "";
    NewStorageError(MINIO, GetCode(code), message, e)
  }

  /**
   * NoSuchHostErrorProcessor.Match: the error text is exactly "no such host".
   * No classified error renders that short, and no error matches both this
   * node and the access-denied one.
   */
  function NoSuchHostMatch(e: NativeError): (r: bool)
    ensures e.Classified? ==> !r
    ensures r ==> !AccessDeniedMatch(e)
  {
    ErrorText(e) == "no such host"
  }

  /** NoSuchHostErrorProcessor reports NoSuchBucket, tags the provider as OSS and keeps the text as message. */
  function NoSuchHostClassify(e: NativeError): (r: StorageError)
    ensures r.provider == OSS && r.code == ErrCodeNoSuchBucket && r.native == e
    ensures r.message == ErrorText(e)
  {
    NewStorageError(OSS, ErrCodeNoSuchBucket, ErrorText(e), e)
  }

  /** AccessDeniedErrorProcessor.Match: the error text is exactly "access denied", which no classified error renders. */
  function AccessDeniedMatch(e: NativeError): (r: bool)
    ensures e.Classified? ==> !r
  {
    ErrorText(e) == "access denied"
  }

  /** AccessDeniedErrorProcessor reports AccessDenied, tags the provider as OSS and keeps the text as message. */
  function AccessDeniedClassify(e: NativeError): (r: StorageError)
    ensures r.provider == OSS && r.code == ErrCodeAccessDenied && r.native == e
    ensures r.message == ErrorText(e)
  {
    NewStorageError(OSS, ErrCodeAccessDenied, ErrorText(e), e)
  }

  function DefaultRule(): Rule { Rule(DefaultMatch, DefaultClassify) }
  function NoSuchHostRule(): Rule { Rule(NoSuchHostMatch, NoSuchHostClassify) }
  function AccessDeniedRule(): Rule { Rule(AccessDeniedMatch, AccessDeniedClassify) }

  /** "AccessDenied" is not in the table, so a MinIO AccessDenied response classifies as Unknown. */
  lemma AccessDeniedCodeIsUnknown()
    ensures GetCode("AccessDenied") == ErrCodeUnknown
  {
  }

  /** The table is not injective: two provider codes map to NoSuchBucket. */
  lemma CodeTableNotInjective()
    ensures GetCode("NoSuchBucket") == GetCode("BucketNotFound") == ErrCodeNoSuchBucket
  {
  }
}
