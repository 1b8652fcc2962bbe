# go-object-storage, modelled in Dafny

go-object-storage puts one facade over two object stores, MinIO and Aliyun OSS. This project models the facade's core and proves properties of it:

- **Listing entries.** `ObjectInfo` records, the listing filter `IsListable`, and the per-worker `ObjectResult`.
- **The in-place sort.** A listing can be sorted by name, size or last-modified time, ascending or descending.
- **Defaulting getters.** These belong to the list options and the configuration.
- **Object-name validation.** The validity test, and the search for the first invalid name.
- **Errors and their classification.**
  - The error taxonomy: thirteen codes, `StorageError`, and the seven subject constructors.
  - The chain of responsibility that turns native errors into taxonomy errors.
  - Each provider's code table and three chain nodes, and each provider's `Convert`.
- **The MinIO and OSS storages**, each over an abstract bucket. For each backend the model covers:
  - the constructor's bucket setup, and the MinIO `tenant:bucket` split;
  - `ObjectExist`, `DeleteObject`, `CopyObject` and `MoveObject`;
  - the sequential part of `ListObjects`: the per-worker loops, the collector, directory removal and the sort.

## Layout

- **One module per source file:** `StorageConfig`, `Errors`, `ObjectInfos`, `Options`, `Utils`, `ObjectSort`, `ErrorProcessor`, `MinioErrorProcess`, `MinioConvert`, `MinioUtils`, `OssErrorProcess`, `OssConvert`, `Minio` and `Oss`.
- **Three support modules:**
  - `Wrappers` holds `Option` and `Result`.
  - `GoStrings` holds the few functions of Go's `strings` package that the core uses, on `seq<char>`.
  - `BucketStore` holds what both backends share: the bucket as a map from key to `ObjectInfo`, the outcome of one operation, the provider faults, and the shared tail of a listing.

## Modelling decisions

- **Go `error` values** are the datatype `NativeError`. A value is one of:
  - an error that is already a `StorageError` (`Classified`);
  - a MinIO `ErrorResponse`;
  - an OSS `ServiceError`;
  - any other error (`Plain`).
  
  A nil error is `None`. The `Error()` text of the SDK error types is SDK code, so it is a field of the value.
- **A chain node** is a class holding its match test and classification as constant function fields, plus a mutable `next` link. `Process` and `ProcessNext` are methods. Each is proved to compute `FirstMatch` of the rules of the nodes reachable from it.
- **The bucket** is a `map<string, ObjectInfo>` field of each storage class. A provider call reads or writes that map.
  - The error a call fails with is a parameter: a `Faults` record with one entry for each kind of call an operation makes.
  - On MinIO a stat of a missing key fails with the provider's NoSuchKey response; on both providers so does a copy from a missing source. The OSS existence check reports `false` without an error instead.
  - Each facade method is proved equal to a function of the old bucket (`DeleteOutcome`, `CopyOutcome` and so on). The properties are proved about those functions.
- **The MinIO listing channel** is a function from the request to a sequence of entries. What each worker reads is one part of an arbitrary split of that stream. The parts are listed in the order their results reach the collector.
- **The OSS listing** uses a function from a request (the shared options plus a continuation token) to a page or an error. A worker's whole paging walk is the function `Walk`. Its `fuel` parameter bounds the number of pages.
- **Timestamps** are integers, and Go's zero `time.Time{}` is 0. Sizes are unbounded integers.
- **Go's string `<`** is lexicographic order on characters (`StrLess`).
- **`sort.Slice`** is an insertion sort on an `array<ObjectInfo>`. Its comparator mirrors the source's `less` closures. The sort is proved to give a permutation of its input, in which no entry is less than any entry before it.

## Behaviour of the source that the model keeps

- **An unrecognised foreign error converts to nil.** Both converters return nil for a foreign error that no chain node matches. As a result:
  - `ObjectExist` reports `(false, nil)`;
  - a failed listing page or entry gives `(nil, nil)`;
  - a failed provider copy is reported as success, so `MoveObject` then deletes its source (`UnrecognisedCopyFailureLosesSource`).
- **`DeleteObject` hides stat errors.** It reports any existence-check error that converts to nil as NoSuchKey.
- **`MoveObject(k, k)` deletes `k`** when the provider's copy succeeds (`MoveOntoItselfDeletes`).
- **`FindFirstInvalidObject` misses an empty name.** It returns `""` when the first invalid name is itself `""`, so `CopyObject` with an empty source goes on to the provider (`EmptyNameGoesUnreported`).
- **Two MinIO chain nodes tag errors as OSS.** The MinIO "no such host" and "access denied" nodes set the provider to OSS. The "no such host" node reports NoSuchBucket.
- **The two "no such host" matchers differ.** MinIO's tests the whole text for equality; OSS's tests for a substring.
- **The MinIO table lacks "AccessDenied".** A MinIO `AccessDenied` response is classified as Unknown.
- **OSS workers do not share the listing.** Every OSS worker pages through the whole listing itself. A successful OSS listing therefore holds `GetConcurrentNum()` copies of each entry (`Oss.OssStorage.ListObjects`).
- **The OSS constructor can return a storage with no bucket result.** This happens when a setup call fails with an unrecognised error: the storage holds a nil bucket handle and there is no error. The model records the handle as `None`.
- **Only MinIO strips the scheme.** The OSS constructor passes the configured endpoint, scheme and all.

## Model

| member | source | states |
|---|---|---|
| StorageConfig.Config.constructor | common/config.go:18-25 | the five configuration fields hold the given values |
| StorageConfig.Config.AutoCreateBucket | common/config.go:27-29 | the auto-create flag is `CreateBucketIfNotExists`, unchanged |
| StorageConfig.Config.GetSecure | common/config.go:31-33 | TLS is used exactly when the endpoint starts with the eight characters of "https://" |
| StorageConfig.BackendTypesDistinct | common/config.go:7-11 | the tags "s3", "oss" and "minio" are pairwise different |
| StorageConfig.HttpEndpointIsNotSecure | common/config.go:13-16 | an endpoint starting with "http://" never selects TLS |
| Errors.NewStorageError | common/errors.go:33-56 | the getters return the provider, code, message and native error it was given |
| Errors.NewBucketNotFoundError | common/errors.go:62-66 | code NoSuchBucket, message "bucket not found: " + name, native text equal to the message |
| Errors.NewBucketAlreadyExistError | common/errors.go:68-72 | code BucketAlreadyExists, message "bucket already exists: " + name, native text equal to the message |
| Errors.NewObjectNotFoundError | common/errors.go:74-78 | code NoSuchKey, message "object not found: " + key, native text equal to the message |
| Errors.NewObjectAlreadyExistError | common/errors.go:80-84 | code ObjectAlreadyExists, message "object already exists: " + key, native text equal to the message |
| Errors.NewInvalidObjectNameError | common/errors.go:86-90 | code InvalidObjectName, message "invalid object name: " + key, native text equal to the message |
| Errors.NewNoSuchFileError | common/errors.go:92-96 | code NoSuchFile, message "no such file: " + path, native text equal to the message |
| Errors.NewNoSuchDirectoryError | common/errors.go:98-102 | code NoSuchDirectory, message "no such directory: " + path, native text equal to the message |
| Errors.ErrorCodesDistinct | common/errors.go:10-24 | the thirteen error codes are pairwise distinct |
| Errors.StorageError.Error | common/errors.go:58-60 | the text is the provider, "Error: ", the message, " (code=", the code and ")", each at a fixed place, so its length is that of the parts plus 15 |
| Errors.ErrorTextDeterminesMessage | common/errors.go:58-60 | two errors of one provider and code with the same text carry the same message |
| Errors.GettersRebuildError | common/errors.go:42-56 | GetProvider, GetCode, GetMessage and GetNative, fed back to NewStorageError, rebuild the error |
| Errors.SubjectRecoverable | common/errors.go:62-102 | a subject constructor is injective: equal errors mean equal subjects |
| Errors.ConstructorCodesDistinct | common/errors.go:62-102 | the seven constructors carry seven different codes, all of them taxonomy codes |
| ObjectInfos.NewObjectInfo | common/object_info.go:20-27 | name, size and time are copied; IsDir holds exactly for size 0 with a name ending in '/' |
| ObjectInfos.ObjectInfo.IsListable | common/object_info.go:29-37 | the prefix itself is never listed; a directory is listed exactly when directories are requested; any other entry always is |
| ObjectInfos.ListableWithDirectories | common/object_info.go:29-37 | with directories requested, listable means exactly "name differs from the prefix" |
| ObjectInfos.CollectResults | services/minio/minio.go:168-175 | fails exactly when some result carries an error, and then with the error of the first such result; otherwise gives all entries concatenated |
| ObjectInfos.Collect | services/oss/oss.go:164-171 | the collector loop returns no entries and the first error, or the concatenation CollectResults gives |
| ObjectInfos.PostProcess | services/oss/oss.go:173-175 | each entry keeps its multiplicity, except that directories are dropped entirely when not requested; nothing is added |
| Options.ListOptions.GetPrefix | common/options.go:37-42 | ends in '/'; unchanged if it already did, otherwise exactly one '/' appended |
| Options.GetPrefixIdempotent | common/options.go:37-42 | normalising a normalised prefix changes nothing |
| Options.ListOptions.GetMaxKeys | common/options.go:44-49 | 1000 for a non-positive value, the value otherwise, so always positive |
| Options.ListOptions.GetDelimiter | common/options.go:51-56 | "" exactly when recursive, "/" otherwise |
| Options.ListOptions.GetConcurrentNum | common/options.go:58-63 | 1 for a non-positive value, the value otherwise, so at least 1 |
| Utils.IsValidObjectName | common/utils.go:9-19 | valid exactly when non-empty, with no '\' anywhere, no "//", and no '/' at either end |
| Utils.LeadingBackslashTestRedundant | common/utils.go:10-15 | dropping the leading-'\' test changes no verdict |
| Utils.FindFirstInvalidObject | common/utils.go:21-28 | "" when all names are valid; the first invalid name when there is one; a non-empty result is an invalid argument |
| Utils.FirstInvalidIsFirst | common/utils.go:21-28 | a non-empty result sits at a position before which every name is valid |
| Utils.FirstInvalidOfTwo | common/utils.go:21-28 | for two names: the first if invalid, else the second if invalid, else "" |
| Utils.EmptyNameGoesUnreported | common/utils.go:21-28 | "" is invalid, yet a list starting with "" gives "", as when all names are valid |
| ObjectSort.Less | common/object_sort.go:23-50 | irreflexive: an entry is never less than itself (asymmetry and transitivity of "not less" are the two lemmas below) |
| ObjectSort.DescendingReverses | common/object_sort.go:23-50 | for the name, size and last-modified keys, Descending compares the two entries the other way round |
| ObjectSort.NotLessTransitive | common/object_sort.go:34-50 | "not less than" is transitive for every key and order, so the comparator is a strict weak order |
| ObjectSort.LessAsymmetric | common/object_sort.go:34-50 | no two entries are each less than the other |
| ObjectSort.SortObjects | common/object_sort.go:20-53 | the array ends up a permutation of its old contents in which no entry is less than one before it |
| ObjectSort.SortSlice | common/object_sort.go:52 | the sorted copy of a slice is a permutation of it and is sorted |
| ObjectSort.SortedByNameAscending | common/object_sort.go:33-36 | sorted by name in any order but Descending: names are non-decreasing |
| ObjectSort.SortedByNameDescending | common/object_sort.go:33-36 | sorted by name descending: names are non-increasing |
| ObjectSort.SortedBySize | common/object_sort.go:37-40 | sizes are non-decreasing, or non-increasing when descending |
| ObjectSort.SortedByLastModified | common/object_sort.go:41-44 | times are non-decreasing, or non-increasing when descending |
| ObjectSort.UnknownKeySortsAscendingByName | common/object_sort.go:45-50 | an unknown key sorts ascending by name, whatever the order |
| ObjectSort.NonDescendingIsAscending | common/object_sort.go:21-28 | every order value other than Descending compares as Ascending |
| ErrorProcessor.FirstMatch | common/error_processor.go:17-22 | nil exactly when no rule matches; otherwise the classification of the first rule that matches |
| ErrorProcessor.ErrorProcessorNode.constructor | common/error_processor.go:9-11 | a new node has no successor |
| ErrorProcessor.ErrorProcessorNode.SetNext | common/error_processor.go:13-15 | the link becomes the given node, replacing any earlier one |
| ErrorProcessor.ErrorProcessorNode.ProcessNext | common/error_processor.go:17-22 | nil without a successor; otherwise what the rest of the chain decides |
| ErrorProcessor.ErrorProcessorNode.Process | services/minio/error_process.go:35-40 | a node classifies on a match and passes the unchanged error on otherwise: the first matching node of its chain decides |
| MinioErrorProcess.GetCode | services/minio/error_process.go:73-78 | the mapped code for the nine table keys, Unknown exactly for other codes; always a taxonomy code |
| MinioErrorProcess.DefaultMatch | services/minio/error_process.go:80-83 | matches exactly the MinIO responses: never an error classified already, an OSS error or any other error |
| MinioErrorProcess.DefaultClassify | services/minio/error_process.go:85-93 | provider MINIO, a taxonomy code, the original error as native; for a response its own message and Unknown exactly for codes missing from the table |
| MinioErrorProcess.NoSuchHostMatch | services/minio/error_process.go:31-33 | never matches an error classified already, and never an error the access-denied node matches |
| MinioErrorProcess.NoSuchHostClassify | services/minio/error_process.go:35-40 | provider OSS, code NoSuchBucket, the error text as message, the original error as native |
| MinioErrorProcess.AccessDeniedMatch | services/minio/error_process.go:52-54 | never matches an error classified already |
| MinioErrorProcess.AccessDeniedClassify | services/minio/error_process.go:56-61 | provider OSS, code AccessDenied, the error text as message, the original error as native |
| MinioErrorProcess.AccessDeniedCodeIsUnknown | services/minio/error_process.go:9-19 | a response with code "AccessDenied" is classified Unknown |
| MinioErrorProcess.CodeTableNotInjective | services/minio/error_process.go:11-13 | "NoSuchBucket" and "BucketNotFound" both map to NoSuchBucket |
| MinioConvert.HandleError | services/minio/minio_convert.go:20-28 | the freshly wired chain computes the first match of default, no-such-host, access-denied |
| MinioConvert.Convert | services/minio/minio_convert.go:10-18 | nil stays nil; an already classified error is returned unchanged |
| MinioConvert.ConvertIdempotent | services/minio/minio_convert.go:10-18 | converting a converted error again changes nothing |
| MinioConvert.ResponseClassifiedByDefault | services/minio/error_process.go:80-93 | any ErrorResponse converts to MINIO, the mapped code, its own message and itself as native |
| MinioConvert.NoSuchHostClassified | services/minio/error_process.go:31-40 | the exact text "no such host" on another error converts to NoSuchBucket tagged OSS |
| MinioConvert.AccessDeniedClassified | services/minio/error_process.go:52-61 | the exact text "access denied" on another error converts to AccessDenied tagged OSS |
| MinioConvert.UnmatchedConvertsToNil | common/error_processor.go:17-22 | any other foreign error converts to nil |
| MinioConvert.NoSuchHostIsExactMatch | services/minio/error_process.go:31-33 | a resolver message that merely contains "no such host" converts to nil |
| MinioUtils.GetEffectiveEndpoint | services/minio/minio_utils.go:11-21 | "https://" is stripped if present, else "http://" if present, else the endpoint is unchanged |
| MinioUtils.IsObjectNotFoundError | services/minio/minio_utils.go:23-28 | true exactly for MinIO responses with code "NoSuchKey", which are exactly the responses the default node classifies as NoSuchKey |
| MinioUtils.OneSchemeStripped | services/minio/minio_utils.go:11-21 | only one scheme is stripped: "https://http://h" gives "http://h" |
| OssErrorProcess.GetCode | services/oss/error_process.go:75-80 | the mapped code for the nine table keys, Unknown exactly for other codes; always a taxonomy code |
| OssErrorProcess.DefaultMatch | services/oss/error_process.go:82-85 | matches exactly the OSS service errors: never an error classified already, a MinIO error or any other error |
| OssErrorProcess.DefaultClassify | services/oss/error_process.go:87-95 | provider OSS, a taxonomy code, the original error as native; for a service error its own message and Unknown exactly for codes missing from the table |
| OssErrorProcess.NoSuchHostMatch | services/oss/error_process.go:33-35 | matches every text that contains "no such host", the exact text included, and not the text "access denied" |
| OssErrorProcess.NoSuchHostClassify | services/oss/error_process.go:37-42 | provider OSS, code BadGateway, the error text as message, the original error as native |
| OssErrorProcess.AccessDeniedMatch | services/oss/error_process.go:54-56 | never matches an error classified already |
| OssErrorProcess.AccessDeniedClassify | services/oss/error_process.go:58-63 | provider OSS, code AccessDenied, the error text as message, the original error as native |
| OssErrorProcess.AccessDeniedLacksHost | services/oss/error_process.go:33-35 | the text "access denied" does not contain "no such host", so the two text nodes never both match it |
| OssErrorProcess.CredentialCodes | services/oss/error_process.go:11-21 | SignatureDoesNotMatch, InvalidAccessKeyId and AccessDenied map to InvalidAccessKeySecret, InvalidAccessKeyID and AccessDenied |
| OssConvert.HandleError | services/oss/oss_convert.go:20-28 | the freshly wired chain computes the first match of default, no-such-host, access-denied |
| OssConvert.Convert | services/oss/oss_convert.go:10-18 | nil stays nil; an already classified error is returned unchanged |
| OssConvert.ConvertIdempotent | services/oss/oss_convert.go:10-18 | converting a converted error again changes nothing |
| OssConvert.ServiceErrorClassifiedByDefault | services/oss/error_process.go:82-95 | any ServiceError converts to OSS, the mapped code, its own message and itself as native, before any text test |
| OssConvert.NoSuchHostClassified | services/oss/error_process.go:33-42 | another error whose text contains "no such host" anywhere converts to BadGateway |
| OssConvert.AccessDeniedClassified | services/oss/error_process.go:54-63 | the exact text "access denied" on another error converts to AccessDenied |
| OssConvert.UnmatchedConvertsToNil | common/error_processor.go:17-22 | any other foreign error converts to nil |
| OssConvert.NoSuchHostIsSubstringMatch | services/oss/error_process.go:33-35 | a resolver message containing "no such host" converts to BadGateway |
| OssConvert.ProviderAlwaysOss | services/oss/error_process.go:37-95 | every classification the OSS chain makes is tagged OSS |
| BucketStore.CopiedStore | services/oss/oss.go:213 | a server-side copy adds or replaces the destination with the source's size and a new time, and leaves every other key alone |
| BucketStore.FinishListing | services/minio/minio.go:177-181 | directory removal when not requested, then a sort: a sorted permutation of PostProcess of the input |
| Minio.TenantBucket | services/minio/minio.go:49-54 | a name without ':' is kept; otherwise the result is the text after the first ':' |
| Minio.TenantBucketSplit | services/minio/minio.go:49-54 | for a tenant without ':', "tenant:bucket" gives bucket, whatever the bucket part holds |
| Minio.EnsureBucketExists | services/minio/minio.go:33-47 | an existing bucket is fine; a missing one is made only with auto-create and is otherwise NoSuchBucket; setup errors are converted |
| Minio.ExistOutcome | services/minio/minio.go:92-101 | a NoSuchKey response reads (false, nil), another error (false, Convert(err)), success (true, nil); true only for a held key |
| Minio.DeleteOutcome | services/minio/minio.go:186-196 | only an object that exists is removed; a missing key is NoSuchKey with the bucket unchanged; a stat error that converts to nil is reported as NoSuchKey; a failed remove returns its converted error with the bucket unchanged |
| Minio.CopyOutcome | services/minio/minio.go:198-232 | invalid names are reported first, source before destination; without overwrite an existing destination is ObjectAlreadyExists; otherwise the provider copy decides |
| Minio.CopyChecked | services/minio/minio.go:209-231 | once both names are valid: the destination check unless overwriting, then the copy |
| Minio.MoveOutcome | services/minio/minio.go:234-248 | a copy error is returned with the bucket unchanged; with the source preserved the result is the copy's; without faults, for two distinct valid names and a held source, nil options give the copied bucket without the source |
| Minio.MoveOntoItselfDeletes | services/minio/minio.go:234-248 | moving a held key onto itself without faults deletes it |
| Minio.UnrecognisedCopyFailureLosesSource | services/minio/minio.go:229-245 | for every copy error that converts to nil, a move to a new destination reports success and the bucket is left without the source (and without the destination) |
| Minio.ListableMembers | services/minio/minio.go:159-162 | a worker keeps exactly the ObjectInfos of its entries that pass IsListable |
| Minio.FirstError | services/minio/minio.go:154-158 | the error of the first entry that carries one, nil when none does |
| Minio.ListWorker | services/minio/minio.go:152-165 | a worker stops at the first error entry and sends only it, otherwise sends its listable entries in order |
| Minio.RunWorkers | services/minio/minio.go:151-166 | one result per part, each the result of the part's worker |
| Minio.WorkerResults | services/minio/minio.go:151-166 | the w-th result is that of the w-th worker |
| Minio.CollectedIsListable | services/minio/minio.go:168-175 | without errors, the collected entries are the listable entries of all parts, in order |
| Minio.ListablePermutation | services/minio/minio.go:154-162 | the listable entries of a permuted stream are a permutation of the listable entries |
| Minio.ErrorInSomePart | services/minio/minio.go:154-158 | the stream holds an error exactly when some worker's part does |
| Minio.StreamFailure | services/minio/minio.go:168-173 | whatever the split, the collection fails exactly when the stream holds an error, and then with one of its errors |
| Minio.StreamSuccess | services/minio/minio.go:168-175 | whatever the split, a successful collection is the stream's listable entries up to order |
| Minio.PostProcessPermutation | services/minio/minio.go:177-179 | directory removal does not depend on the order of its input |
| Minio.MinioStorage.constructor | services/minio/minio.go:61-65 | the storage holds the bucket name, client and bucket contents it is given |
| Minio.MinioStorage.ObjectExist | services/minio/minio.go:92-101 | returns ExistOutcome of the bucket and changes nothing |
| Minio.MinioStorage.DeleteObject | services/minio/minio.go:186-196 | the new bucket and the error are DeleteOutcome of the old bucket |
| Minio.MinioStorage.CopyObject | services/minio/minio.go:198-232 | the new bucket and the error are CopyOutcome of the old bucket |
| Minio.MinioStorage.MoveObject | services/minio/minio.go:234-248 | the new bucket and the error are MoveOutcome of the old bucket |
| Minio.MinioStorage.ListObjects | services/minio/minio.go:134-184 | a stream with an error gives no entries and the conversion of one of its errors; otherwise no error, a sorted permutation of the stream's listable entries after directory removal, none of them a directory unless requested |
| Minio.NewMinioStorage | services/minio/minio.go:20-66 | a client error is converted and returned with no storage; the bucket name is reduced to its bucket part in the configuration; a setup error is returned, otherwise a storage over that bucket |
| Oss.GetOrCreateBucket | services/oss/oss.go:26-43 | a missing bucket is created only with auto-create and is otherwise NoSuchBucket; an existing or created bucket is opened; a nil handle without error arises only from an unrecognised error |
| Oss.ExistOutcome | services/oss/oss.go:81-87 | true exactly when the call succeeds and the key is held; an error is converted and reported with false |
| Oss.DeleteOutcome | services/oss/oss.go:182-192 | only an object that exists is removed; a missing key is NoSuchKey with the bucket unchanged; a stat error that converts to nil is reported as NoSuchKey; a failed remove returns its converted error with the bucket unchanged |
| Oss.CopyOutcome | services/oss/oss.go:194-216 | invalid names are reported first, source before destination; without overwrite an existing destination is ObjectAlreadyExists; otherwise the provider copy decides |
| Oss.CopyChecked | services/oss/oss.go:204-215 | once both names are valid: the destination check unless overwriting, then the copy |
| Oss.CopyStep | services/oss/oss.go:213-215 | the bucket changes only when the copy succeeds; a missing source is the provider's NoSuchKey, converted |
| Oss.MoveOutcome | services/oss/oss.go:218-232 | a copy error is returned with the bucket unchanged; with the source preserved the result is the copy's; without faults, for two distinct valid names and a held source, nil options give the copied bucket without the source |
| Oss.MoveOntoItselfDeletes | services/oss/oss.go:218-232 | moving a held key onto itself without faults deletes it |
| Oss.UnrecognisedCopyFailureLosesSource | services/oss/oss.go:213-229 | for every copy error that converts to nil, a move to a new destination reports success and the bucket is left without the source (and without the destination) |
| Oss.UnrecognisedCopyFailureUnreported | services/oss/oss.go:198-216 | the overwriting copy of a move, failing with an error that converts to nil, reports nil and leaves the bucket unchanged |
| Oss.UnrecognisedCopyStepUnreported | services/oss/oss.go:213-215 | once the names are valid, that copy failure reports nil and leaves the bucket unchanged |
| Oss.OptionsOnce | services/oss/oss.go:118-122 | every page request carries a prefix ending in '/', a positive MaxKeys, and no delimiter exactly when recursive |
| Oss.ListableObjectsMembers | services/oss/oss.go:144-149 | a page keeps exactly the ObjectInfos of its objects that pass IsListable against the raw prefix |
| Oss.PrefixDirs | services/oss/oss.go:151-153 | every common prefix, in order, becomes a size-0, zero-time entry |
| Oss.PageEntriesShape | services/oss/oss.go:144-153 | a page contributes only listable objects and size-0 zero-time prefix entries, and all of its common prefixes |
| Oss.AppendListable | services/oss/oss.go:144-149 | appends the page's listable objects, in order |
| Oss.AppendPrefixes | services/oss/oss.go:151-153 | appends an entry for each common prefix, in order |
| Oss.AppendPage | services/oss/oss.go:144-153 | appends the page's listable objects, then its common prefixes |
| Oss.Walk | services/oss/oss.go:134-159 | a walk that ends on an error carries no entries |
| Oss.WalkFuelIrrelevant | services/oss/oss.go:134-159 | a walk's result does not depend on the page bound once the walk completes |
| Oss.WalkFailure | services/oss/oss.go:139-143 | a failed request ends the walk with that error and no entries |
| Oss.WalkPage | services/oss/oss.go:144-158 | a page's entries come first; a page that is not truncated ends the walk; a truncated one goes on from its next token |
| Oss.WalkEntries | services/oss/oss.go:144-153 | every entry a walk gathers is a listable object or a size-0 zero-time prefix entry |
| Oss.ListWorker | services/oss/oss.go:131-161 | the worker's paging loop from the empty token computes the whole walk |
| Oss.RunWorkers | services/oss/oss.go:128-162 | each of the n workers produces the same whole walk |
| Oss.CollectCopies | services/oss/oss.go:164-171 | n identical results collect to their error, or to n copies of their entries |
| Oss.CopiesAfterPostProcess | services/oss/oss.go:173-175 | after directory removal each entry of n copies of a walk occurs n times, directories none unless requested |
| Oss.OssStorage.constructor | services/oss/oss.go:50-54 | the storage holds the client, bucket handle and bucket contents it is given |
| Oss.OssStorage.ObjectExist | services/oss/oss.go:81-87 | returns ExistOutcome of the bucket and changes nothing |
| Oss.OssStorage.DeleteObject | services/oss/oss.go:182-192 | the new bucket and the error are DeleteOutcome of the old bucket |
| Oss.OssStorage.CopyObject | services/oss/oss.go:194-216 | the new bucket and the error are CopyOutcome of the old bucket |
| Oss.OssStorage.MoveObject | services/oss/oss.go:218-232 | the new bucket and the error are MoveOutcome of the old bucket |
| Oss.OssStorage.ListObjects | services/oss/oss.go:115-180 | a walk ending on an error gives no entries and its conversion; otherwise no error, sorted, each entry GetConcurrentNum() times as often as in one walk (directories dropped unless requested), only listable objects or prefix entries |
| Oss.NewAliyunOSSStorage | services/oss/oss.go:18-55 | a client error is converted and returned with no storage; a bucket-setup error is returned; otherwise a storage over the configured endpoint, credentials and bucket handle |

## Left out

- **Goroutines and channels.**
  - The model leaves out scheduling in both `ListObjects`.
  - It also leaves out the workers left blocked after the collector returns early.
  - In its place: the MinIO stream is split arbitrarily among the workers, with results in arrival order; the OSS workers run one after another.
- **Provider SDK calls.** The calls of the MinIO and OSS SDKs become map reads and writes, plus injected errors (`Faults`, `SetupFaults`). The listing answers are parameters (`listing`, `lister`), and they are not tied to the bucket map. A provider that rejects an object name shows up only as an injected error.
- **Byte-stream and file operations.** `GetObject`, `FGetObject`, `PutObject` and `FPutObject` in both backends are pass-throughs to byte streams and local files. `PathExists` uses the file system. None of them is modelled.
- **One-call bucket methods.** `CreateBucket`, `BucketExists` and `EnsureBucket` of both storage classes are one SDK call followed by `Convert`. They are not modelled as members. The same decisions appear in the constructors' bucket setup.
- **Code outside the modelled files.** `common/object_data.go`, `api/api.go` and `common/interfaces.go` are not part of this model.
- ObjectInfos.RemoveDirObjects: its definition is not part of this model. Its contract is assumed: it keeps exactly the entries that are not directories. Only the multiset of its result is relied on.
- ObjectSort.SortObjects: `sort.Slice` is not stable. The order of ties is not specified, and only a sorted permutation is proved.
- **Integer widths.** Sizes, MaxKeys and worker counts are unbounded integers, where the source uses `int64` and `int`. No arithmetic is done on them, so there is no overflow to model.
- Oss.Walk: the walk is bounded by `fuel` pages. A listing whose continuation tokens never end would loop forever in the source; the model does not capture it.
- Oss.OssStorage.ListObjects: requires the walk to finish within `fuel` pages. It also requires a bucket handle.
- Oss.OssStorage.ObjectExist: with a nil bucket handle the source dereferences nil and panics. The model requires a bucket handle instead, and so do `DeleteObject`, `CopyObject`, `MoveObject` and `ListObjects`.
- Minio.MinioStorage.ListObjects: on failure the returned error is stated to be the conversion of some error of the stream, not which one. Which worker reports first is decided by the scheduler.
- Minio.NewMinioStorage: the stored client is the settings `minio.New` is given. Connection state is not modelled.
- **Timestamps.** `time.Time` is an integer; `After` and `Before` are `>` and `<`. The server time of a copy is a parameter (`now`).
