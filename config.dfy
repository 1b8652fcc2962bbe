/** Backend configuration: backend tags, endpoint schemes and the `Config` record (common/config.go). */
module StorageConfig {
  import opened GoStrings

  /** The tag of a storage backend; in the source a string type. */
  type BackendType = string

  const S3: BackendType := "s3"
  const OSS: BackendType := "oss"
  const MINIO: BackendType := "minio"

  const HttpPrefix: string := "http://"
  const HttpsPrefix: string := "https://"

  /**
   * The configuration passed by pointer to the backend constructors; the MinIO
   * constructor rewrites `bucketName` in place, so it is an object.
   */
  class Config {
    var endpoint: string
    var accessKeyID: string
    var accessKeySecret: string
    var bucketName: string
    var createBucketIfNotExists: bool

    constructor (endpoint: string, accessKeyID: string, accessKeySecret: string,
                 bucketName: string, createBucketIfNotExists: bool)
      ensures this.endpoint == endpoint && this.accessKeyID == accessKeyID
      ensures this.accessKeySecret == accessKeySecret && this.bucketName == bucketName
      ensures this.createBucketIfNotExists == createBucketIfNotExists
    {
      this.endpoint := endpoint;
      this.accessKeyID := accessKeyID;
      this.accessKeySecret := accessKeySecret;
      this.bucketName := bucketName;
      this.createBucketIfNotExists := createBucketIfNotExists;
    }

    /** Whether a missing bucket is to be created: the flag, unchanged. */
    function AutoCreateBucket(): (r: bool)
      reads this
      ensures r == createBucketIfNotExists
    {
      createBucketIfNotExists
    }

    /** TLS is used exactly when the endpoint begins with the eight characters "https://". */
    function GetSecure(): (r: bool)
      reads this
      ensures r <==> |endpoint| >= 8 && endpoint[..8] == ['h', 't', 't', 'p', 's', ':', '/', '/']
    {
      HasPrefix(endpoint, HttpsPrefix)
    }
  }

  /** The three backend tags are pairwise different. */
  lemma BackendTypesDistinct()
    ensures S3 != OSS && S3 != MINIO && OSS != MINIO
  {
  }

  /** "http://" is not a prefix of "https://", so a plain-HTTP endpoint never selects TLS. */
  lemma HttpEndpointIsNotSecure(c: Config)
    requires HasPrefix(c.endpoint, HttpPrefix)
    ensures !c.GetSecure()
  {
    assert c.endpoint[4] == HttpPrefix[4] == ':';
  }
}
