/** Operation options and their defaulting getters (common/options.go). */
module Options {
  import opened GoStrings

  /** A nil `*CopyOptions` is treated as Overwrite = false. */
  datatype CopyOptions = CopyOptions(overwrite: bool)

  /** A nil `*MoveOptions` is treated as PreserveSource = false. */
  datatype MoveOptions = MoveOptions(preserveSource: bool)

  const DefaultMaxKeys: int := 1000

  /** `sortBy` and `sortOrder` are Go ints; see ObjectSort for their named values. */
  datatype ListOptions = ListOptions(
    objectKeyPrefix: string,
    recursive: bool,
    includeDirectories: bool,
    concurrentNum: int,
    maxKeys: int,
    sortBy: int,
    sortOrder: int)
  {
    /** The prefix with exactly one trailing '/' enforced. */
    function GetPrefix(): (r: string)
      ensures |r| > 0 && r[|r| - 1] == '/'
      ensures HasSuffix(objectKeyPrefix, "/") ==> r == objectKeyPrefix
      ensures !HasSuffix(objectKeyPrefix, "/") ==> r == objectKeyPrefix + "/"
    {
      if !HasSuffix(objectKeyPrefix, "/") then objectKeyPrefix + "/" else objectKeyPrefix
    }

    /** The page size: 1000 unless a positive value was given, so always positive. */
    function GetMaxKeys(): (r: int)
      ensures r > 0
      ensures maxKeys > 0 ==> r == maxKeys
      ensures maxKeys <= 0 ==> r == DefaultMaxKeys
    {
      if maxKeys <= 0 then DefaultMaxKeys else maxKeys
    }

    /** No delimiter (full enumeration) exactly when recursive; otherwise one level under "/". */
    function GetDelimiter(): (r: string)
      ensures r == "" <==> recursive
      ensures !recursive ==> r == "/"
    {
      if recursive then "" else "/"
    }

    /** The number of workers: at least one. */
    function GetConcurrentNum(): (r: int)
      ensures r >= 1
      ensures concurrentNum > 0 ==> r == concurrentNum
      ensures concurrentNum <= 0 ==> r == 1
    {
      if concurrentNum <= 0 then 1 else concurrentNum
    }
  }

  /** Normalising an already normalised prefix changes nothing. */
  lemma GetPrefixIdempotent(opt: ListOptions)
    ensures opt.(objectKeyPrefix := opt.GetPrefix()).GetPrefix() == opt.GetPrefix()
  {
    var p := opt.GetPrefix();
    assert p[|p| - 1..] == "/";
  }
}
