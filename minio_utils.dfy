/** MinIO helpers (services/minio/minio_utils.go). */
module MinioUtils {
  import opened GoStrings
  import opened StorageConfig
  import opened Errors
  import MinioErrorProcess

  /** The endpoint without its scheme: "https://" first, otherwise "http://", at most one of them. */
  function GetEffectiveEndpoint(endpointConfig: string): (r: string)
    ensures HasPrefix(endpointConfig, HttpsPrefix) ==> HttpsPrefix + r == endpointConfig
    ensures !HasPrefix(endpointConfig, HttpsPrefix) && HasPrefix(endpointConfig, HttpPrefix) ==> HttpPrefix + r == endpointConfig
    ensures !HasPrefix(endpointConfig, HttpsPrefix) && !HasPrefix(endpointConfig, HttpPrefix) ==> r == endpointConfig
  {
    if HasPrefix(endpointConfig, HttpsPrefix) then TrimPrefix(endpointConfig, HttpsPrefix)
    else if HasPrefix(endpointConfig, HttpPrefix) then TrimPrefix(endpointConfig, HttpPrefix)
    else endpointConfig
  }

  /** Only one scheme is stripped: "https://http://h" keeps its inner "http://". */
  lemma OneSchemeStripped()
    ensures GetEffectiveEndpoint("https://http://h") == "http://h"
  {
    assert HasPrefix("https://http://h", HttpsPrefix);
  }

  /**
   * A MinIO response with code "NoSuchKey", and nothing else, means the
   * object is missing: exactly the responses the default classifier gives
   * the taxonomy code NoSuchKey, since no other provider code maps to it.
   */
  function IsObjectNotFoundError(err: NativeError): (r: bool)
    ensures r <==> err.MinioErrorResponse? && MinioErrorProcess.GetCode(err.code) == ErrCodeNoSuchKey
  {
    err.MinioErrorResponse? && err.code == "NoSuchKey"
  }
}
