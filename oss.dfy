/**
 * The Aliyun OSS backend (services/oss/oss.go) over an abstract bucket: the
 * constructor's bucket setup, the existence check, the delete/copy/move
 * control flow, and the listing's paging workers and collector.
 *
 * Provider calls are reads and writes of the `objects` map; the error a
 * call fails with is a parameter (`Faults`), and a copy from a key the
 * bucket does not hold fails with the provider's NoSuchKey service error.
 */
module Oss {
  import opened Wrappers
  import opened StorageConfig
  import opened Errors
  import opened ObjectInfos
  import opened ObjectSort
  import opened Options
  import opened Utils
  import opened OssConvert
  import opened BucketStore

  // ---------------------------------------------------------------------
  // Construction
  // ---------------------------------------------------------------------

  /** What the constructor's bucket setup produced: a bucket handle or nil, whether it made the bucket, its error. */
  datatype BucketHandle = BucketHandle(handle: Option<string>, made: bool, err: Option<StorageError>)

  /**
   * The `getOrCreateBucket` closure, given the answer of IsBucketExist and the
   * errors of CreateBucket and Bucket should they be called: a missing bucket
   * is created only when auto-create is set and is otherwise reported as
   * NoSuchBucket; an existing or created bucket is then opened.
   */
  function GetOrCreateBucket(found: Result<bool, NativeError>, createFault: Option<NativeError>,
                             bucketFault: Option<NativeError>, bucketName: string, createIfNotExist: bool): (r: BucketHandle)
    ensures r.handle.Some? ==> r.handle.value == bucketName && r.err.None?
    ensures r.err.Some? ==> r.handle.None?
    ensures r.made ==> found == Success(false) && createIfNotExist && createFault.None?
    ensures found == Success(true) && bucketFault.None? ==> r == BucketHandle(Some(bucketName), false, None)
    ensures found == Success(false) && !createIfNotExist ==>
              r == BucketHandle(None, false, Some(NewBucketNotFoundError(OSS, bucketName)))
    ensures (found == Success(false) && createIfNotExist && createFault.None? && bucketFault.None?) ==>
              r == BucketHandle(Some(bucketName), true, None)
    ensures found.Failure? ==> r == BucketHandle(None, false, Convert(Some(found.error)))
    ensures r.handle.None? && r.err.None? ==>
              (found.Failure? && Convert(Some(found.error)).None?) ||
              (createFault.Some? && Convert(createFault).None?) ||
              (bucketFault.Some? && Convert(bucketFault).None?)
  {
    if found.Failure? then BucketHandle(None, false, Convert(Some(found.error)))
    else if !found.value && createIfNotExist && createFault.Some? then BucketHandle(None, false, Convert(createFault))
    else if !found.value && !createIfNotExist then BucketHandle(None, false, Some(NewBucketNotFoundError(OSS, bucketName)))
    else if bucketFault.Some? then BucketHandle(None, !found.value, Convert(bucketFault))
    else BucketHandle(Some(bucketName), !found.value, None)
  }

  /** The settings `oss.New` is given: the endpoint as configured and the credentials. */
  datatype OssClient = OssClient(endpoint: string, accessKeyID: string, accessKeySecret: string)

  /** The errors of the constructor's provider calls: oss.New, IsBucketExist, CreateBucket, Bucket. */
  datatype SetupFaults = SetupFaults(client: Option<NativeError>, found: Option<NativeError>,
                                     create: Option<NativeError>, bucket: Option<NativeError>)

  // ---------------------------------------------------------------------
  // Object operations, as functions of the bucket's contents
  // ---------------------------------------------------------------------

  /** The message of the provider's NoSuchKey service error. */
  const NoSuchKeyMessage: string := "The specified key does not exist."

  /** The service error the provider gives for a copy from a key the bucket does not hold. */
  const NoSuchKeyServiceError: NativeError := OssServiceError("NoSuchKey", NoSuchKeyMessage, NoSuchKeyMessage)

  /** IsObjectExist: the injected fault converted and reported with `false`, else whether the key is held. */
  function ExistOutcome(store: Store, objectKey: string, fault: Option<NativeError>): (r: Existence)
    ensures r.exist <==> fault.None? && objectKey in store
    ensures fault.None? ==> r.err.None?
    ensures fault.Some? ==> r.err == Convert(fault)
  {
    if fault.Some? then Existence(false, Convert(fault)) else Existence(objectKey in store, None)
  }

  /** The error of the provider's copy from `src`: the injected fault, else NoSuchKey for a missing source, else nil. */
  function CopyError(store: Store, src: string, fault: Option<NativeError>): (r: Option<NativeError>)
    ensures fault.Some? ==> r == fault
    ensures fault.None? ==> (r.None? <==> src in store)
  {
    if fault.Some? then fault else if src in store then None else Some(NoSuchKeyServiceError)
  }

  /** DeleteObject: an existence check first; only an object that exists is removed. */
  function DeleteOutcome(store: Store, objectKey: string, f: Faults): (r: Outcome)
    ensures r.store == store || (objectKey in store && r.store == store - {objectKey} && r.err.None?)
    ensures objectKey !in store && f.stat.None? ==> r == Outcome(store, Some(NewObjectNotFoundError(OSS, objectKey)))
    ensures objectKey in store && f.stat.None? && f.remove.None? ==> r == Outcome(store - {objectKey}, None)
    ensures objectKey in store && f.stat.None? && f.remove.Some? ==> r == Outcome(store, Convert(f.remove))
    ensures f.stat.Some? ==> r.store == store
    ensures f.stat.Some? && Convert(f.stat).Some? ==> r.err == Convert(f.stat)
    ensures f.stat.Some? && Convert(f.stat).None? ==> r.err == Some(NewObjectNotFoundError(OSS, objectKey))
    ensures WellKeyed(store) ==> WellKeyed(r.store)
  {
    var ex := ExistOutcome(store, objectKey, f.stat);
    if ex.err.Some? then Outcome(store, ex.err)
    else if !ex.exist then Outcome(store, Some(NewObjectNotFoundError(OSS, objectKey)))
    else if f.remove.Some? then Outcome(store, Convert(f.remove))
    else Outcome(store - {objectKey}, None)
  }

  /**
   * CopyObject: both names are validated before the bucket is touched; unless
   * overwriting (nil options mean no), an existing destination is an error;
   * then the provider copies.
   */
  function CopyOutcome(store: Store, src: string, dst: string, options: Option<CopyOptions>, f: Faults, now: int): (r: Outcome)
    ensures r.store == store || (r.err.None? && src in store && r.store == CopiedStore(store, src, dst, now))
    ensures src != "" && !IsValidObjectName(src) ==> r == Outcome(store, Some(NewInvalidObjectNameError(OSS, src)))
    ensures IsValidObjectName(src) && dst != "" && !IsValidObjectName(dst) ==>
              r == Outcome(store, Some(NewInvalidObjectNameError(OSS, dst)))
    ensures (IsValidObjectName(src) && IsValidObjectName(dst) && !options.GetOr(CopyOptions(false)).overwrite &&
             dst in store && f.stat.None?) ==> r == Outcome(store, Some(NewObjectAlreadyExistError(OSS, dst)))
    ensures (IsValidObjectName(src) && IsValidObjectName(dst) && src in store && f.copy.None? &&
             (options.GetOr(CopyOptions(false)).overwrite || (dst !in store && f.stat.None?))) ==>
              r == Outcome(CopiedStore(store, src, dst, now), None)
    ensures WellKeyed(store) ==> WellKeyed(r.store)
  {
    FirstInvalidOfTwo(src, dst);
    var invalidObjectKey := FindFirstInvalidObject([src, dst]);
    if invalidObjectKey != "" then Outcome(store, Some(NewInvalidObjectNameError(OSS, invalidObjectKey)))
    else CopyChecked(store, src, dst, options.GetOr(CopyOptions(false)).overwrite, f, now)
  }

  /** CopyObject once both names are valid: the existence check unless overwriting, then the copy. */
  function CopyChecked(store: Store, src: string, dst: string, overwrite: bool, f: Faults, now: int): (r: Outcome)
    ensures r.store == store || (r.err.None? && src in store && r.store == CopiedStore(store, src, dst, now))
    ensures !overwrite && dst in store && f.stat.None? ==> r == Outcome(store, Some(NewObjectAlreadyExistError(OSS, dst)))
    ensures (src in store && f.copy.None? && (overwrite || (dst !in store && f.stat.None?))) ==>
              r == Outcome(CopiedStore(store, src, dst, now), None)
  {
    var ex := ExistOutcome(store, dst, f.stat);
    if !overwrite && ex.err.Some? then Outcome(store, Convert(AsNative(ex.err)))
    else if !overwrite && ex.exist then Outcome(store, Some(NewObjectAlreadyExistError(OSS, dst)))
    else CopyStep(store, src, dst, f.copy, now)
  }

  /** The provider's copy itself: the store changes only when the copy succeeds. */
  function CopyStep(store: Store, src: string, dst: string, fault: Option<NativeError>, now: int): (r: Outcome)
    ensures r.store == store || (r.err.None? && src in store && r.store == CopiedStore(store, src, dst, now))
    ensures src in store && fault.None? ==> r == Outcome(CopiedStore(store, src, dst, now), None)
    ensures src !in store && fault.None? ==> r == Outcome(store, Convert(Some(NoSuchKeyServiceError)))
    ensures fault.Some? ==> r == Outcome(store, Convert(fault))
  {
    var copyErr := CopyError(store, src, fault);
    if copyErr.Some? then Outcome(store, Convert(copyErr))
    else Outcome(CopiedStore(store, src, dst, now), None)
  }

  /**
   * MoveObject: a copy with overwrite, then, unless the source is preserved
   * (nil options mean it is not), a delete of the source.
   */
  function MoveOutcome(store: Store, src: string, dst: string, options: Option<MoveOptions>, f: Faults, now: int): (r: Outcome)
    ensures var c := CopyOutcome(store, src, dst, Some(CopyOptions(true)), f, now);
      c.err.Some? ==> r == Outcome(store, c.err)
    ensures var c := CopyOutcome(store, src, dst, Some(CopyOptions(true)), f, now);
      options.GetOr(MoveOptions(false)).preserveSource ==> r == c
    ensures (IsValidObjectName(src) && IsValidObjectName(dst) && src in store && src != dst && f == NoFaults &&
             !options.GetOr(MoveOptions(false)).preserveSource) ==>
              r == Outcome(CopiedStore(store, src, dst, now) - {src}, None)
    ensures WellKeyed(store) ==> WellKeyed(r.store)
  {
    var opts := options.GetOr(MoveOptions(false));
    var c := CopyOutcome(store, src, dst, Some(CopyOptions(true)), f, now);
    if c.err.Some? then c
    else if !opts.preserveSource then DeleteOutcome(c.store, src, f)
    else Outcome(c.store, None)
  }

  /** Moving an object onto its own key without preserving the source deletes it. */
  lemma MoveOntoItselfDeletes(store: Store, key: string, now: int)
    requires IsValidObjectName(key) && key in store
    ensures MoveOutcome(store, key, key, None, NoFaults, now) == Outcome(store - {key}, None)
  {
    assert CopiedStore(store, key, key, now) - {key} == store - {key};
  }

  /**
   * A copy that fails with an error no chain node recognises (a plain
   * "i/o timeout", say) is reported as success, so a move then deletes
   * its source: the object is gone.
   */
  lemma UnrecognisedCopyFailureLosesSource(store: Store, src: string, dst: string, e: NativeError, now: int)
    requires IsValidObjectName(src) && IsValidObjectName(dst) && src in store && dst !in store
    requires Convert(Some(e)).None?
    ensures MoveOutcome(store, src, dst, None, Faults(None, Some(e), None), now) == Outcome(store - {src}, None)
  {
    UnrecognisedCopyFailureUnreported(store, src, dst, e, now);
  }

  /** The overwriting copy of a move, failing with an unrecognised error, reports nil and changes nothing. */
  lemma UnrecognisedCopyFailureUnreported(store: Store, src: string, dst: string, e: NativeError, now: int)
    requires IsValidObjectName(src) && IsValidObjectName(dst) && Convert(Some(e)).None?
    ensures CopyOutcome(store, src, dst, Some(CopyOptions(true)), Faults(None, Some(e), None), now) == Outcome(store, None)
  {
    UnrecognisedCopyStepUnreported(store, src, dst, e, now);
    FirstInvalidOfTwo(src, dst);
  }

  /** Once both names are valid, an overwriting copy that fails with an unrecognised error reports nil. */
  lemma UnrecognisedCopyStepUnreported(store: Store, src: string, dst: string, e: NativeError, now: int)
    requires Convert(Some(e)).None?
    ensures CopyChecked(store, src, dst, true, Faults(None, Some(e), None), now) == Outcome(store, None)
  {
    assert CopyStep(store, src, dst, Some(e), now) == Outcome(store, None);
  }

  // ---------------------------------------------------------------------
  // Listing
  // ---------------------------------------------------------------------

  /** An object of a listing page. */
  datatype RawObject = RawObject(key: string, size: int, lastModified: int)

  /** A page of ListObjectsV2. */
  datatype Page = Page(objects: seq<RawObject>, commonPrefixes: seq<string>, isTruncated: bool, nextContinuationToken: string)

  /** The options every ListObjectsV2 call of one listing shares: the prefix, MaxKeys and the delimiter. */
  datatype ListOnce = ListOnce(prefix: string, maxKeys: int, delimiter: string)

  /** The options of one ListObjectsV2 call: the shared ones plus the continuation token. */
  datatype PageRequest = PageRequest(once: ListOnce, continuationToken: string)

  /** Built once per listing: the normalised prefix, the defaulted MaxKeys and the delimiter for the recursion mode. */
  function OptionsOnce(opt: ListOptions): (r: ListOnce)
    ensures r.maxKeys > 0 && |r.prefix| > 0 && r.prefix[|r.prefix| - 1] == '/'
    ensures r.delimiter == "" <==> opt.recursive
  {
    ListOnce(opt.GetPrefix(), opt.GetMaxKeys(), opt.GetDelimiter())
  }

  function RawInfo(o: RawObject): ObjectInfo {
    NewObjectInfo(o.key, o.size, o.lastModified)
  }

  /** The listable objects of a page, in order: exactly the ObjectInfos that pass IsListable. */
  function ListableObjects(objs: seq<RawObject>, prefix: string, includeDirectories: bool): seq<ObjectInfo> {
    if objs == [] then []
    else
      var o := RawInfo(objs[|objs| - 1]);
      ListableObjects(objs[..|objs| - 1], prefix, includeDirectories) + (if o.IsListable(prefix, includeDirectories) then [o] else [])
  }

  /** ListableObjects keeps exactly the ObjectInfos that pass IsListable. */
  lemma {:induction false} ListableObjectsMembers(objs: seq<RawObject>, prefix: string, includeDirectories: bool)
    ensures var r := ListableObjects(objs, prefix, includeDirectories);
      forall x :: x in r ==> x.IsListable(prefix, includeDirectories)
    ensures var r := ListableObjects(objs, prefix, includeDirectories);
      forall x :: x in r ==> exists i :: 0 <= i < |objs| && x == RawInfo(objs[i])
    ensures var r := ListableObjects(objs, prefix, includeDirectories);
      forall i :: 0 <= i < |objs| && RawInfo(objs[i]).IsListable(prefix, includeDirectories) ==> RawInfo(objs[i]) in r
    decreases |objs|
  {
    if objs != [] {
      var init := objs[..|objs| - 1];
      var o := RawInfo(objs[|objs| - 1]);
      var front := ListableObjects(init, prefix, includeDirectories);
      var r := ListableObjects(objs, prefix, includeDirectories);
      assert r == front + (if o.IsListable(prefix, includeDirectories) then [o] else []);
      ListableObjectsMembers(init, prefix, includeDirectories);
      forall x | x in r
        ensures exists i :: 0 <= i < |objs| && x == RawInfo(objs[i])
      {
        if x in front {
          var i :| 0 <= i < |init| && x == RawInfo(init[i]);
          assert init[i] == objs[i];
        } else {
          assert x == RawInfo(objs[|objs| - 1]);
        }
      }
      forall i | 0 <= i < |objs| && RawInfo(objs[i]).IsListable(prefix, includeDirectories)
        ensures RawInfo(objs[i]) in r
      {
        if i < |init| {
          assert init[i] == objs[i];
        }
      }
    }
  }

  /** Every common prefix, in order, as a size-0 entry with the zero time. */
  function PrefixDirs(commonPrefixes: seq<string>): (r: seq<ObjectInfo>)
    ensures |r| == |commonPrefixes|
    ensures forall i :: 0 <= i < |r| ==> r[i] == NewObjectInfo(commonPrefixes[i], 0, ZeroTime)
  {
    if commonPrefixes == [] then []
    else PrefixDirs(commonPrefixes[..|commonPrefixes| - 1]) + [NewObjectInfo(commonPrefixes[|commonPrefixes| - 1], 0, ZeroTime)]
  }

  /**
   * What one page contributes: its objects filtered against the raw prefix,
   * then its common prefixes, none of them filtered.
   */
  function PageEntries(page: Page, prefix: string, includeDirectories: bool): seq<ObjectInfo> {
    ListableObjects(page.objects, prefix, includeDirectories) + PrefixDirs(page.commonPrefixes)
  }

  /** A page contributes listable objects and prefix entries only, and every one of its common prefixes. */
  lemma PageEntriesShape(page: Page, prefix: string, includeDirectories: bool)
    ensures var r := PageEntries(page, prefix, includeDirectories);
      forall x :: x in r ==> x.IsListable(prefix, includeDirectories) || (x.size == 0 && x.lastModified == ZeroTime)
    ensures forall i :: 0 <= i < |page.commonPrefixes| ==>
              NewObjectInfo(page.commonPrefixes[i], 0, ZeroTime) in PageEntries(page, prefix, includeDirectories)
  {
    var r := PageEntries(page, prefix, includeDirectories);
    ListableObjectsMembers(page.objects, prefix, includeDirectories);
    assert forall i :: 0 <= i < |page.commonPrefixes| ==> PrefixDirs(page.commonPrefixes)[i] in r;
  }

  /** The entries `objs` gathered before a result: an error result drops them. */
  function Prepend(objs: seq<ObjectInfo>, res: ObjectResult): ObjectResult {
    if res.e.Some? then res else ObjectResult(objs + res.objects, None)
  }

  /**
   * One worker's whole walk from `continuationToken`: request a page, stop
   * with the error if the request fails, otherwise keep its entries and go
   * on with the next token while the page is truncated. None when the walk
   * needs more than `fuel` pages.
   */
  function Walk(lister: PageRequest -> Result<Page, NativeError>, opt: ListOptions, once: ListOnce, continuationToken: string, fuel: nat)
    : (r: Option<ObjectResult>)
    ensures r.Some? && r.value.e.Some? ==> r.value.objects == []
    decreases fuel
  {
    if fuel == 0 then None
    else
      var lsRes := lister(PageRequest(once, continuationToken));
      if lsRes.Failure? then Some(ObjectResult([], Some(lsRes.error)))
      else
        var here := PageEntries(lsRes.value, opt.objectKeyPrefix, opt.includeDirectories);
        if !lsRes.value.isTruncated then Some(ObjectResult(here, None))
        else
          var rest := Walk(lister, opt, once, lsRes.value.nextContinuationToken, fuel - 1);
          if rest.None? then None else Some(Prepend(here, rest.value))
  }

  /** The fuel bound is not observable: a walk that completes gives the same result with more fuel. */
  lemma {:induction false} WalkFuelIrrelevant(lister: PageRequest -> Result<Page, NativeError>, opt: ListOptions, once: ListOnce,
                                              continuationToken: string, fuel: nat, more: nat)
    requires Walk(lister, opt, once, continuationToken, fuel).Some? && fuel <= more
    ensures Walk(lister, opt, once, continuationToken, more) == Walk(lister, opt, once, continuationToken, fuel)
    decreases fuel
  {
    var lsRes := lister(PageRequest(once, continuationToken));
    if lsRes.Success? && lsRes.value.isTruncated {
      WalkFuelIrrelevant(lister, opt, once, lsRes.value.nextContinuationToken, fuel - 1, more - 1);
    }
  }

  /** Every entry a walk gathers is a listable object or a common prefix (size 0, zero time). */
  lemma {:induction false} WalkEntries(lister: PageRequest -> Result<Page, NativeError>, opt: ListOptions, once: ListOnce,
                                       continuationToken: string, fuel: nat)
    requires Walk(lister, opt, once, continuationToken, fuel).Some?
    ensures forall x :: x in Walk(lister, opt, once, continuationToken, fuel).value.objects ==>
              x.IsListable(opt.objectKeyPrefix, opt.includeDirectories) || (x.size == 0 && x.lastModified == ZeroTime)
    decreases fuel
  {
    var lsRes := lister(PageRequest(once, continuationToken));
    if lsRes.Success? {
      PageEntriesShape(lsRes.value, opt.objectKeyPrefix, opt.includeDirectories);
      if lsRes.value.isTruncated {
        WalkEntries(lister, opt, once, lsRes.value.nextContinuationToken, fuel - 1);
      }
    }
  }

  /** Appends the listable objects of a page, one object at a time. */
  method AppendListable(objInfos: seq<ObjectInfo>, objs: seq<RawObject>, opt: ListOptions) returns (r: seq<ObjectInfo>)
    ensures r == objInfos + ListableObjects(objs, opt.objectKeyPrefix, opt.includeDirectories)
  {
    r := objInfos;
    var k := 0;
    while k < |objs|
      invariant 0 <= k <= |objs|
      invariant r == objInfos + ListableObjects(objs[..k], opt.objectKeyPrefix, opt.includeDirectories)
    {
      var objInfo := NewObjectInfo(objs[k].key, objs[k].size, objs[k].lastModified);
      if objInfo.IsListable(opt.objectKeyPrefix, opt.includeDirectories) {
        r := r + [objInfo];
      }
      assert objs[..k + 1][..k] == objs[..k];
      k := k + 1;
    }
    assert objs[..k] == objs;
  }

  /** Appends each common prefix of a page as a directory entry. */
  method AppendPrefixes(objInfos: seq<ObjectInfo>, commonPrefixes: seq<string>) returns (r: seq<ObjectInfo>)
    ensures r == objInfos + PrefixDirs(commonPrefixes)
  {
    r := objInfos;
    var k := 0;
    while k < |commonPrefixes|
      invariant 0 <= k <= |commonPrefixes|
      invariant r == objInfos + PrefixDirs(commonPrefixes[..k])
    {
      r := r + [NewObjectInfo(commonPrefixes[k], 0, ZeroTime)];
      assert commonPrefixes[..k + 1][..k] == commonPrefixes[..k];
      k := k + 1;
    }
    assert commonPrefixes[..k] == commonPrefixes;
  }

  /** One step of a walk that completes: a failed request ends it with the error. */
  lemma WalkFailure(lister: PageRequest -> Result<Page, NativeError>, opt: ListOptions, once: ListOnce, continuationToken: string, fuel: nat)
    requires Walk(lister, opt, once, continuationToken, fuel).Some?
    requires lister(PageRequest(once, continuationToken)).Failure?
    ensures Walk(lister, opt, once, continuationToken, fuel).value ==
              ObjectResult([], Some(lister(PageRequest(once, continuationToken)).error))
  {
  }

  /** One step of a walk that completes: a page's entries come first, then the rest of the walk, if any. */
  lemma WalkPage(lister: PageRequest -> Result<Page, NativeError>, opt: ListOptions, once: ListOnce, continuationToken: string, fuel: nat)
    requires Walk(lister, opt, once, continuationToken, fuel).Some?
    requires lister(PageRequest(once, continuationToken)).Success?
    ensures var page := lister(PageRequest(once, continuationToken)).value;
      var here := PageEntries(page, opt.objectKeyPrefix, opt.includeDirectories);
      var w := Walk(lister, opt, once, continuationToken, fuel).value;
      (!page.isTruncated ==> w == ObjectResult(here, None)) &&
      (page.isTruncated ==> fuel >= 1 && Walk(lister, opt, once, page.nextContinuationToken, fuel - 1).Some? &&
                            w == Prepend(here, Walk(lister, opt, once, page.nextContinuationToken, fuel - 1).value))
  {
  }

  lemma PrependPrepend(a: seq<ObjectInfo>, b: seq<ObjectInfo>, res: ObjectResult)
    ensures Prepend(a, Prepend(b, res)) == Prepend(a + b, res)
  {
    if res.e.None? {
      assert a + (b + res.objects) == (a + b) + res.objects;
    }
  }

  /** What the worker loop relies on: after one page, the entries so far plus the rest of the walk are still the whole walk. */
  lemma WalkStep(lister: PageRequest -> Result<Page, NativeError>, opt: ListOptions, once: ListOnce, continuationToken: string, fuel: nat,
                 before: seq<ObjectInfo>)
    requires Walk(lister, opt, once, continuationToken, fuel).Some?
    requires lister(PageRequest(once, continuationToken)).Success?
    ensures var page := lister(PageRequest(once, continuationToken)).value;
      var after := before + PageEntries(page, opt.objectKeyPrefix, opt.includeDirectories);
      var w := Prepend(before, Walk(lister, opt, once, continuationToken, fuel).value);
      (!page.isTruncated ==> w == ObjectResult(after, None)) &&
      (page.isTruncated ==> fuel >= 1 && Walk(lister, opt, once, page.nextContinuationToken, fuel - 1).Some? &&
                            w == Prepend(after, Walk(lister, opt, once, page.nextContinuationToken, fuel - 1).value))
  {
    WalkPage(lister, opt, once, continuationToken, fuel);
    var page := lister(PageRequest(once, continuationToken)).value;
    if page.isTruncated {
      PrependPrepend(before, PageEntries(page, opt.objectKeyPrefix, opt.includeDirectories),
                     Walk(lister, opt, once, page.nextContinuationToken, fuel - 1).value);
    }
  }

  /** Appends what one page contributes: its listable objects, then its common prefixes. */
  method AppendPage(objInfos: seq<ObjectInfo>, page: Page, opt: ListOptions) returns (r: seq<ObjectInfo>)
    ensures r == objInfos + PageEntries(page, opt.objectKeyPrefix, opt.includeDirectories)
  {
    var listed := AppendListable(objInfos, page.objects, opt);
    r := AppendPrefixes(listed, page.commonPrefixes);
    assert r == objInfos + (ListableObjects(page.objects, opt.objectKeyPrefix, opt.includeDirectories) +
                            PrefixDirs(page.commonPrefixes));
  }

  /** One worker: pages through the whole listing from the empty token. */
  method ListWorker(lister: PageRequest -> Result<Page, NativeError>, opt: ListOptions, once: ListOnce, ghost fuel: nat)
    returns (res: ObjectResult)
    requires Walk(lister, opt, once, "", fuel).Some?
    ensures res == Walk(lister, opt, once, "", fuel).value
  {
    ghost var total := Walk(lister, opt, once, "", fuel).value;
    ghost var f := fuel;
    var objInfos: seq<ObjectInfo> := [];
    var continuationToken := "";
    assert objInfos + total.objects == total.objects;
    while true
      invariant Walk(lister, opt, once, continuationToken, f).Some?
      invariant total == Prepend(objInfos, Walk(lister, opt, once, continuationToken, f).value)
      decreases f
    {
      var lsRes := lister(PageRequest(once, continuationToken));
      if lsRes.Failure? {
        WalkFailure(lister, opt, once, continuationToken, f);
        return ObjectResult([], Some(lsRes.error));
      }
      var page := lsRes.value;
      WalkStep(lister, opt, once, continuationToken, f, objInfos);
      objInfos := AppendPage(objInfos, page, opt);
      if !page.isTruncated {
        break;
      }
      continuationToken := page.nextContinuationToken;
      f := f - 1;
    }
    return ObjectResult(objInfos, None);
  }

  /** `n` copies of `s`, one after another. */
  function Repeat(s: seq<ObjectInfo>, n: nat): seq<ObjectInfo> {
    if n == 0 then [] else Repeat(s, n - 1) + s
  }

  lemma {:induction false} RepeatCount(s: seq<ObjectInfo>, n: nat, x: ObjectInfo)
    ensures multiset(Repeat(s, n))[x] == n * multiset(s)[x]
  {
    if n > 0 {
      RepeatCount(s, n - 1, x);
      assert multiset(Repeat(s, n)) == multiset(Repeat(s, n - 1)) + multiset(s);
      assert (n - 1) * multiset(s)[x] + multiset(s)[x] == n * multiset(s)[x];
    }
  }

  /** Copies hold nothing the original does not. */
  lemma RepeatMembers(s: seq<ObjectInfo>, n: nat)
    ensures forall x :: x in Repeat(s, n) ==> x in s
  {
    forall x | x in Repeat(s, n)
      ensures x in s
    {
      RepeatCount(s, n, x);
      assert x in multiset(Repeat(s, n));
    }
  }

  /** Collecting `n` identical results: the error if it carries one, else `n` copies of its entries. */
  lemma {:induction false} CollectCopies(res: ObjectResult, n: nat)
    requires n >= 1 && (res.e.Some? ==> res.objects == [])
    ensures var results := seq(n, _ => res);
      CollectResults(results) == if res.e.Some? then Failure(res.e.value) else Success(Repeat(res.objects, n))
  {
    var results := seq(n, _ => res);
    if res.e.None? {
      ConcatCopies(res, n);
    }
  }

  lemma {:induction false} ConcatCopies(res: ObjectResult, n: nat)
    ensures ConcatObjects(seq(n, _ => res)) == Repeat(res.objects, n)
  {
    if n > 0 {
      ConcatCopies(res, n - 1);
      assert seq(n, _ => res)[..n - 1] == seq(n - 1, _ => res);
    }
  }

  /** Directory removal on `n` copies of a walk: each entry kept `n` times, directories dropped unless requested. */
  lemma CopiesAfterPostProcess(objs: seq<ObjectInfo>, n: nat, includeDirectories: bool)
    ensures forall x :: multiset(PostProcess(Repeat(objs, n), includeDirectories))[x] ==
                        if !includeDirectories && x.isDir then 0 else n * multiset(objs)[x]
  {
    forall x
      ensures multiset(PostProcess(Repeat(objs, n), includeDirectories))[x] ==
              if !includeDirectories && x.isDir then 0 else n * multiset(objs)[x]
    {
      RepeatCount(objs, n, x);
    }
  }

  /** `n` workers, each walking the whole listing on its own. */
  method RunWorkers(lister: PageRequest -> Result<Page, NativeError>, opt: ListOptions, once: ListOnce, ghost fuel: nat, n: int)
    returns (results: seq<ObjectResult>)
    requires Walk(lister, opt, once, "", fuel).Some? && n >= 0
    ensures results == seq(n, _ => Walk(lister, opt, once, "", fuel).value)
  {
    ghost var w := Walk(lister, opt, once, "", fuel).value;
    results := [];
    var i := 0;
    while i < n
      invariant 0 <= i <= n
      invariant results == seq(i, _ => w)
    {
      var res := ListWorker(lister, opt, once, fuel);
      results := results + [res];
      i := i + 1;
    }
  }

  // ---------------------------------------------------------------------
  // The storage
  // ---------------------------------------------------------------------

  class OssStorage {
    var client: OssClient
    /** The bucket handle; None when setup returned a nil handle without an error. */
    var bucket: Option<string>
    /** The bucket's contents as the provider holds them. */
    var objects: Store

    constructor (client: OssClient, bucket: Option<string>, objects: Store)
      ensures this.client == client && this.bucket == bucket && this.objects == objects
    {
      this.client := client;
      this.bucket := bucket;
      this.objects := objects;
    }

    /** IsObjectExist on the key. */
    method ObjectExist(objectKey: string, fault: Option<NativeError>) returns (exist: bool, err: Option<StorageError>)
      requires bucket.Some?
      ensures Existence(exist, err) == ExistOutcome(objects, objectKey, fault)
    {
      if fault.Some? {
        return false, Convert(fault);
      }
      return objectKey in objects, None;
    }

    method DeleteObject(objectKey: string, f: Faults) returns (err: Option<StorageError>)
      requires bucket.Some?
      modifies this`objects
      ensures Outcome(objects, err) == DeleteOutcome(old(objects), objectKey, f)
    {
      var exist, se := ObjectExist(objectKey, f.stat);
      if se.Some? {
        return se;
      }
      if !exist {
        return Some(NewObjectNotFoundError(OSS, objectKey));
      }
      var removeErr := f.remove;
      if removeErr.None? {
        objects := objects - {objectKey};
      }
      return Convert(removeErr);
    }

    method CopyObject(srcObjectKey: string, destObjectKey: string, options: Option<CopyOptions>, f: Faults, now: int)
      returns (err: Option<StorageError>)
      requires bucket.Some?
      modifies this`objects
      ensures Outcome(objects, err) == CopyOutcome(old(objects), srcObjectKey, destObjectKey, options, f, now)
    {
      var invalidObjectKey := FindFirstInvalidObject([srcObjectKey, destObjectKey]);
      if invalidObjectKey != "" {
        return Some(NewInvalidObjectNameError(OSS, invalidObjectKey));
      }
      var opts := options.GetOr(CopyOptions(false));
      if !opts.overwrite {
        var exist, e := ObjectExist(destObjectKey, f.stat);
        if e.Some? {
          return Convert(AsNative(e));
        }
        if exist {
          return Some(NewObjectAlreadyExistError(OSS, destObjectKey));
        }
      }
      var ossErr := CopyError(objects, srcObjectKey, f.copy);
      if ossErr.None? {
        objects := CopiedStore(objects, srcObjectKey, destObjectKey, now);
      }
      err := Convert(ossErr);
    }

    method MoveObject(srcObjectKey: string, destObjectKey: string, options: Option<MoveOptions>, f: Faults, now: int)
      returns (err: Option<StorageError>)
      requires bucket.Some?
      modifies this`objects
      ensures Outcome(objects, err) == MoveOutcome(old(objects), srcObjectKey, destObjectKey, options, f, now)
    {
      var opts := options.GetOr(MoveOptions(false));
      err := CopyObject(srcObjectKey, destObjectKey, Some(CopyOptions(true)), f, now);
      if err.Some? {
        return;
      }
      if !opts.preserveSource {
        err := DeleteObject(srcObjectKey, f);
        return;
      }
      return None;
    }

    /**
     * ListObjects: every worker walks the whole listing on its own, so the
     * merged entries are GetConcurrentNum() copies of one walk's entries.
     */
    method ListObjects(opt: ListOptions, lister: PageRequest -> Result<Page, NativeError>, ghost fuel: nat)
      returns (objects: seq<ObjectInfo>, err: Option<StorageError>)
      requires bucket.Some?
      requires Walk(lister, opt, OptionsOnce(opt), "", fuel).Some?
      ensures var w := Walk(lister, opt, OptionsOnce(opt), "", fuel).value;
        w.e.Some? ==> objects == [] && err == Convert(w.e)
      ensures var w := Walk(lister, opt, OptionsOnce(opt), "", fuel).value;
        w.e.None? ==> err.None? && Sorted(objects, opt.sortBy, opt.sortOrder)
      ensures var w := Walk(lister, opt, OptionsOnce(opt), "", fuel).value;
        w.e.None? ==> forall x :: multiset(objects)[x] ==
                        if !opt.includeDirectories && x.isDir then 0 else opt.GetConcurrentNum() * multiset(w.objects)[x]
      ensures forall x :: x in objects ==>
                x.IsListable(opt.objectKeyPrefix, opt.includeDirectories) || (x.size == 0 && x.lastModified == ZeroTime)
      ensures !opt.includeDirectories ==> forall x :: x in objects ==> !x.isDir
    {
      var optionsOnce := OptionsOnce(opt);
      ghost var w := Walk(lister, opt, optionsOnce, "", fuel).value;
      var numWorkers := opt.GetConcurrentNum();
      var results := RunWorkers(lister, opt, optionsOnce, fuel, numWorkers);
      CollectCopies(w, numWorkers);

      var collected, e := Collect(results);
      if e.Some? {
        return [], Convert(e);
      }
      objects := FinishListing(collected, opt.includeDirectories, opt.sortBy, opt.sortOrder);
      CopiesAfterPostProcess(w.objects, numWorkers, opt.includeDirectories);
      WalkEntries(lister, opt, optionsOnce, "", fuel);
      RepeatMembers(w.objects, numWorkers);
      return objects, None;
    }
  }

  /**
   * NewAliyunOSSStorage: connect, then get or create the bucket. The
   * account's buckets stand for the provider; the configuration is not changed.
   */
  method NewAliyunOSSStorage(config: Config, account: map<string, Store>, f: SetupFaults)
    returns (s: OssStorage?, err: Option<StorageError>)
    ensures f.client.Some? ==> s == null && err == Convert(f.client)
    ensures f.client.None? ==>
      var b := GetOrCreateBucket(BucketExists(account, config.bucketName, f.found), f.create, f.bucket,
                                 config.bucketName, config.createBucketIfNotExists);
      (b.err.Some? ==> s == null && err == b.err) &&
      (b.err.None? ==> s != null && fresh(s) && err.None? && s.bucket == b.handle &&
                       s.client == OssClient(config.endpoint, config.accessKeyID, config.accessKeySecret) &&
                       s.objects == Contents(account, config.bucketName))
  {
    if f.client.Some? {
      return null, Convert(f.client);
    }
    var client := OssClient(config.endpoint, config.accessKeyID, config.accessKeySecret);
    var b := GetOrCreateBucket(BucketExists(account, config.bucketName, f.found), f.create, f.bucket,
                               config.bucketName, config.AutoCreateBucket());
    if b.err.Some? {
      return null, b.err;
    }
    s := new OssStorage(client, b.handle, Contents(account, config.bucketName));
    return s, None;
  }
}
