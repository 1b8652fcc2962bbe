/**
 * The error taxonomy (common/errors.go): the closed set of error codes, the
 * `StorageError` record with its getters and rendering, and the constructors
 * for conditions the facade detects itself.
 */
module Errors {
  import opened Wrappers
  import opened StorageConfig

  const ErrCodeUnknown: string := "Unknown"
  const ErrCodeNoSuchKey: string := "NoSuchKey"
  const ErrCodeBadGateway: string := "BadGateway"
  const ErrCodeNoSuchFile: string := "NoSuchFile"
  const ErrCodeNoSuchBucket: string := "NoSuchBucket"
  const ErrCodeAccessDenied: string := "AccessDenied"
  const ErrCodeRequestTimeout: string := "RequestTimeout"
  const ErrCodeNoSuchDirectory: string := "NoSuchDirectory"
  const ErrCodeInvalidObjectName: string := "InvalidObjectName"
  const ErrCodeInvalidAccessKeyID: string := "InvalidAccessKeyID"
  const ErrCodeObjectAlreadyExists: string := "ObjectAlreadyExists"
  const ErrCodeBucketAlreadyExists: string := "BucketAlreadyExists"
  const ErrCodeInvalidAccessKeySecret: string := "InvalidAccessKeySecret"

  /** Every code of the taxonomy, in declaration order. */
  const ErrorCodes: seq<string> := [
    ErrCodeUnknown, ErrCodeNoSuchKey, ErrCodeBadGateway, ErrCodeNoSuchFile,
    ErrCodeNoSuchBucket, ErrCodeAccessDenied, ErrCodeRequestTimeout,
    ErrCodeNoSuchDirectory, ErrCodeInvalidObjectName, ErrCodeInvalidAccessKeyID,
    ErrCodeObjectAlreadyExists, ErrCodeBucketAlreadyExists, ErrCodeInvalidAccessKeySecret
  ]

  /** A classified error; it implements the unified error interface. */
  datatype StorageError = StorageError(provider: BackendType, code: string, message: string, native: NativeError)
  {
    function GetCode(): string { code }
    function GetMessage(): string { message }
    function GetProvider(): string { provider }
    function GetNative(): NativeError { native }

    /**
     * `Error()`: "<provider>Error: <message> (code=<code>)". Each part sits at
     * a fixed place, so the message can be cut back out of the text.
     */
    function Error(): (r: string)
      ensures |r| == |provider| + |message| + |code| + 15
      ensures r[..|provider|] == provider && r[|provider|..|provider| + 7] == "Error: "
      ensures r[|provider| + 7..|r| - |code| - 8] == message
      ensures r[|r| - |code| - 8..|r| - |code| - 1] == " (code=" && r[|r| - |code| - 1..|r| - 1] == code
      ensures r[|r| - 1] == ')'
    {
      var head := provider + "Error: ";
      var tail := " (code=" + code + ")";
      var t := head + (message + tail);
      assert t == provider + "Error: " + message + " (code=" + code + ")";
      assert t[|head|..|head| + |message|] == message;
      assert t[|head| + |message|..] == tail;
      assert tail[..7] == " (code=" && tail[7..7 + |code|] == code;
      t
    }
  }

  /** The getters, fed back to the constructor, rebuild the error: they lose nothing. */
  lemma GettersRebuildError(e: StorageError)
    ensures NewStorageError(e.GetProvider(), e.GetCode(), e.GetMessage(), e.GetNative()) == e
  {
  }

  /**
   * The Go `error` values that reach the classifiers: one that already is a
   * `StorageError`, a MinIO `ErrorResponse`, an OSS `ServiceError`, or any
   * other error. For the SDK error types, `text` is what their `Error()`
   * method returns, which is SDK code and left abstract.
   */
  datatype NativeError =
    | Classified(se: StorageError)
    | MinioErrorResponse(code: string, message: string, text: string)
    | OssServiceError(code: string, message: string, text: string)
    | Plain(text: string)

  /** `err.Error()` */
  function ErrorText(e: NativeError): string {
    match e
    case Classified(se) => se.Error()
    case MinioErrorResponse(_, _, t) => t
    case OssServiceError(_, _, t) => t
    case Plain(t) => t
  }

  /** A returned `ObjectStorageError` used again as a Go `error` (nil stays nil). */
  function AsNative(e: Option<StorageError>): (r: Option<NativeError>)
    ensures e.None? <==> r.None?
    ensures e.Some? ==> r == Some(Classified(e.value))
  {
    match e
    case None => None
    case Some(se) => Some(Classified(se))
  }

  /** NewStorageError stores its four arguments. */
  function NewStorageError(provider: BackendType, code: string, message: string, native: NativeError): (r: StorageError)
    ensures r.GetProvider() == provider && r.GetCode() == code
    ensures r.GetMessage() == message && r.GetNative() == native
  {
    StorageError(provider, code, message, native)
  }

  /** The common shape of the six subject constructors: `errors.New(message)` is the native error. */
  function SubjectError(provider: BackendType, code: string, lead: string, subject: string): StorageError {
    var message := lead + subject;
    NewStorageError(provider, code, message, Plain(message))
  }

  function NewBucketNotFoundError(provider: BackendType, bucketName: string): (r: StorageError)
    ensures r.provider == provider && r.code == ErrCodeNoSuchBucket
    ensures r.message == "bucket not found: " + bucketName
    ensures ErrorText(r.native) == r.message
  {
    SubjectError(provider, ErrCodeNoSuchBucket, "bucket not found: ", bucketName)
  }

  function NewBucketAlreadyExistError(provider: BackendType, bucketName: string): (r: StorageError)
    ensures r.provider == provider && r.code == ErrCodeBucketAlreadyExists
    ensures r.message == "bucket already exists: " + bucketName
    ensures ErrorText(r.native) == r.message
  {
    SubjectError(provider, ErrCodeBucketAlreadyExists, "bucket already exists: ", bucketName)
  }

  function NewObjectNotFoundError(provider: BackendType, objectKey: string): (r: StorageError)
    ensures r.provider == provider && r.code == ErrCodeNoSuchKey
    ensures r.message == "object not found: " + objectKey
    ensures ErrorText(r.native) == r.message
  {
    SubjectError(provider, ErrCodeNoSuchKey, "object not found: ", objectKey)
  }

  function NewObjectAlreadyExistError(provider: BackendType, objectKey: string): (r: StorageError)
    ensures r.provider == provider && r.code == ErrCodeObjectAlreadyExists
    ensures r.message == "object already exists: " + objectKey
    ensures ErrorText(r.native) == r.message
  {
    SubjectError(provider, ErrCodeObjectAlreadyExists, "object already exists: ", objectKey)
  }

  function NewInvalidObjectNameError(provider: BackendType, objectKey: string): (r: StorageError)
    ensures r.provider == provider && r.code == ErrCodeInvalidObjectName
    ensures r.message == "invalid object name: " + objectKey
    ensures ErrorText(r.native) == r.message
  {
    SubjectError(provider, ErrCodeInvalidObjectName, "invalid object name: ", objectKey)
  }

  function NewNoSuchFileError(provider: BackendType, filePath: string): (r: StorageError)
    ensures r.provider == provider && r.code == ErrCodeNoSuchFile
    ensures r.message == "no such file: " + filePath
    ensures ErrorText(r.native) == r.message
  {
    SubjectError(provider, ErrCodeNoSuchFile, "no such file: ", filePath)
  }

  function NewNoSuchDirectoryError(provider: BackendType, dirPath: string): (r: StorageError)
    ensures r.provider == provider && r.code == ErrCodeNoSuchDirectory
    ensures r.message == "no such directory: " + dirPath
    ensures ErrorText(r.native) == r.message
  {
    SubjectError(provider, ErrCodeNoSuchDirectory, "no such directory: ", dirPath)
  }

  /** The thirteen codes are pairwise distinct, so the taxonomy has exactly thirteen members. */
  lemma ErrorCodesDistinct()
    ensures |ErrorCodes| == 13
    ensures forall i, j :: 0 <= i < j < |ErrorCodes| ==> ErrorCodes[i] != ErrorCodes[j]
  {
  }

  /** Errors of one provider and code that render to the same text carry the same message. */
  lemma ErrorTextDeterminesMessage(e1: StorageError, e2: StorageError)
    requires e1.provider == e2.provider && e1.code == e2.code && e1.Error() == e2.Error()
    ensures e1.message == e2.message
  {
  }

  /** Each subject constructor is injective in its subject: different keys give different errors. */
  lemma {:induction false} SubjectRecoverable(provider: BackendType, code: string, lead: string, s1: string, s2: string)
    requires SubjectError(provider, code, lead, s1) == SubjectError(provider, code, lead, s2)
    ensures s1 == s2
  {
    var m1, m2 := lead + s1, lead + s2;
    assert m1 == m2;
    assert s1 == m1[|lead|..] && s2 == m2[|lead|..];
  }

  /** The seven constructors carry seven different codes, all of them taxonomy codes. */
  lemma ConstructorCodesDistinct(p: BackendType, s: string)
    ensures var codes := [
        NewBucketNotFoundError(p, s).code, NewBucketAlreadyExistError(p, s).code,
        NewObjectNotFoundError(p, s).code, NewObjectAlreadyExistError(p, s).code,
        NewInvalidObjectNameError(p, s).code, NewNoSuchFileError(p, s).code,
        NewNoSuchDirectoryError(p, s).code];
      (forall i, j :: 0 <= i < j < |codes| ==> codes[i] != codes[j]) &&
      (forall i :: 0 <= i < |codes| ==> codes[i] in ErrorCodes)
  {
  }
}
