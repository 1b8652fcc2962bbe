/**
 * The MinIO backend (services/minio/minio.go) over an abstract bucket: the
 * constructor's tenant split and bucket setup, the existence check, the
 * delete/copy/move control flow, and the listing's workers and collector.
 *
 * Provider calls are reads and writes of the `objects` map; the error a
 * call fails with is a parameter (`Faults`), and a call on a key the bucket
 * does not hold fails with the provider's NoSuchKey response.
 */
module Minio {
  import opened Wrappers
  import opened GoStrings
  import opened StorageConfig
  import opened Errors
  import opened ObjectInfos
  import opened ObjectSort
  import opened Options
  import opened Utils
  import opened MinioConvert
  import opened MinioUtils
  import opened BucketStore

  // ---------------------------------------------------------------------
  // Construction
  // ---------------------------------------------------------------------

  /**
   * A `tenant:bucket` name becomes the text after its first ':'; a name
   * without ':' is kept as it is.
   */
  function TenantBucket(bucketName: string): (r: string)
    ensures ':' !in bucketName ==> r == bucketName
    ensures ':' in bucketName ==> |r| < |bucketName| && bucketName[|bucketName| - |r|..] == r &&
                                  bucketName[|bucketName| - |r| - 1] == ':' &&
                                  ':' !in bucketName[..|bucketName| - |r| - 1]
  {
    ContainsChar(bucketName, ':');
    if Contains(bucketName, ":") then
      var i := Index(bucketName, ':');
      assert bucketName[..i + 1][..i] == bucketName[..i];
      bucketName[i + 1..]
    else bucketName
  }

  /** A tenant without ':' is dropped together with the first ':', whatever the bucket part holds. */
  lemma TenantBucketSplit(tenant: string, bucket: string)
    requires ':' !in tenant
    ensures TenantBucket(tenant + [':'] + bucket) == bucket
  {
    var name := tenant + [':'] + bucket;
    assert name[|tenant|] == ':';
    assert name[..|tenant|] == tenant;
    assert name[|tenant| + 1..] == bucket;
  }

  /** What the constructor's bucket setup did: whether it made the bucket, and the error it returned. */
  datatype BucketSetup = BucketSetup(made: bool, err: Option<StorageError>)

  /**
   * The `ensureBucketExists` closure, given the answer of BucketExists and the
   * error of MakeBucket should it be called: a missing bucket is made only
   * when auto-create is set, and is otherwise reported as NoSuchBucket.
   */
  function EnsureBucketExists(found: Result<bool, NativeError>, makeFault: Option<NativeError>,
                              bucketName: string, createIfNotExists: bool): (r: BucketSetup)
    ensures r.made ==> found == Success(false) && createIfNotExists && makeFault.None?
    ensures found == Success(true) ==> r == BucketSetup(false, None)
    ensures found == Success(false) && !createIfNotExists ==>
              r == BucketSetup(false, Some(NewBucketNotFoundError(MINIO, bucketName)))
    ensures found == Success(false) && createIfNotExists ==> r == BucketSetup(makeFault.None?, Convert(makeFault))
    ensures found.Failure? ==> r == BucketSetup(false, Convert(Some(found.error)))
    ensures r.err.None? ==> found == Success(true) || r.made ||
                            (found.Failure? && Convert(Some(found.error)).None?) ||
                            (makeFault.Some? && Convert(makeFault).None?)
  {
    if found.Failure? then BucketSetup(false, Convert(Some(found.error)))
    else if !found.value && createIfNotExists then
      (if makeFault.Some? then BucketSetup(false, Convert(makeFault)) else BucketSetup(true, None))
    else if !found.value then BucketSetup(false, Some(NewBucketNotFoundError(MINIO, bucketName)))
    else BucketSetup(false, None)
  }

  /** The settings `minio.New` is given: the endpoint without scheme, the static credentials, TLS from the scheme. */
  datatype MinioClient = MinioClient(endpoint: string, accessKeyID: string, accessKeySecret: string, secure: bool)

  /** The errors of the constructor's provider calls: minio.New, BucketExists, MakeBucket. */
  datatype SetupFaults = SetupFaults(client: Option<NativeError>, found: Option<NativeError>, make: Option<NativeError>)

  // ---------------------------------------------------------------------
  // Object operations, as functions of the bucket's contents
  // ---------------------------------------------------------------------

  /** The message of the provider's NoSuchKey response. */
  const NoSuchKeyMessage: string := "The specified key does not exist."

  /** The response the provider gives for a key the bucket does not hold. */
  const NoSuchKeyResponse: NativeError := MinioErrorResponse("NoSuchKey", NoSuchKeyMessage, NoSuchKeyMessage)

  /** The error a provider call on `key` returns: the injected fault, else NoSuchKey for a missing key, else nil. */
  function KeyError(store: Store, key: string, fault: Option<NativeError>): (r: Option<NativeError>)
    ensures fault.Some? ==> r == fault
    ensures fault.None? ==> (r.None? <==> key in store)
  {
    if fault.Some? then fault else if key in store then None else Some(NoSuchKeyResponse)
  }

  /**
   * ObjectExist: a NoSuchKey response means "absent, no error"; any other
   * error is converted and reported with `false`.
   */
  function ExistOutcome(store: Store, objectKey: string, fault: Option<NativeError>): (r: Existence)
    ensures r.exist ==> objectKey in store && r.err.None?
    ensures fault.None? ==> r == Existence(objectKey in store, None)
    ensures fault.Some? && IsObjectNotFoundError(fault.value) ==> r == Existence(false, None)
    ensures fault.Some? && !IsObjectNotFoundError(fault.value) ==> r == Existence(false, Convert(fault))
  {
    var err := KeyError(store, objectKey, fault);
    if err.Some? then
      if IsObjectNotFoundError(err.value) then Existence(false, None) else Existence(false, Convert(err))
    else Existence(true, None)
  }

  /** DeleteObject: an existence check first; only an object that exists is removed. */
  function DeleteOutcome(store: Store, objectKey: string, f: Faults): (r: Outcome)
    ensures r.store == store || (objectKey in store && r.store == store - {objectKey} && r.err.None?)
    ensures objectKey !in store && f.stat.None? ==> r == Outcome(store, Some(NewObjectNotFoundError(MINIO, objectKey)))
    ensures objectKey in store && f.stat.None? && f.remove.None? ==> r == Outcome(store - {objectKey}, None)
    ensures objectKey in store && f.stat.None? && f.remove.Some? ==> r == Outcome(store, Convert(f.remove))
    ensures f.stat.Some? ==> r.store == store
    ensures f.stat.Some? && !IsObjectNotFoundError(f.stat.value) && Convert(f.stat).Some? ==> r.err == Convert(f.stat)
    ensures f.stat.Some? && (IsObjectNotFoundError(f.stat.value) || Convert(f.stat).None?) ==>
              r.err == Some(NewObjectNotFoundError(MINIO, objectKey))
    ensures WellKeyed(store) ==> WellKeyed(r.store)
  {
    var ex := ExistOutcome(store, objectKey, f.stat);
    if ex.err.Some? then Outcome(store, ex.err)
    else if !ex.exist then Outcome(store, Some(NewObjectNotFoundError(MINIO, objectKey)))
    else if f.remove.Some? then Outcome(store, Convert(f.remove))
    else Outcome(store - {objectKey}, None)
  }

  /**
   * CopyObject: both names are validated before the bucket is touched; unless
   * overwriting (nil options mean no), an existing destination is an error;
   * then the provider copies.
   */
  function CopyOutcome(store: Store, src: string, dst: string, options: Option<CopyOptions>, f: Faults, now: int): (r: Outcome)
    ensures r.store == store || (r.err.None? && src in store && r.store == CopiedStore(store, src, dst, now))
    ensures src != "" && !IsValidObjectName(src) ==> r == Outcome(store, Some(NewInvalidObjectNameError(MINIO, src)))
    ensures IsValidObjectName(src) && dst != "" && !IsValidObjectName(dst) ==>
              r == Outcome(store, Some(NewInvalidObjectNameError(MINIO, dst)))
    ensures (IsValidObjectName(src) && IsValidObjectName(dst) && !options.GetOr(CopyOptions(false)).overwrite &&
             dst in store && f.stat.None?) ==> r == Outcome(store, Some(NewObjectAlreadyExistError(MINIO, dst)))
    ensures (IsValidObjectName(src) && IsValidObjectName(dst) && src in store && f.copy.None? &&
             (options.GetOr(CopyOptions(false)).overwrite || (dst !in store && f.stat.None?))) ==>
              r == Outcome(CopiedStore(store, src, dst, now), None)
    ensures WellKeyed(store) ==> WellKeyed(r.store)
  {
    FirstInvalidOfTwo(src, dst);
    var invalidObjectKey := FindFirstInvalidObject([src, dst]);
    if invalidObjectKey != "" then Outcome(store, Some(NewInvalidObjectNameError(MINIO, invalidObjectKey)))
    else CopyChecked(store, src, dst, options.GetOr(CopyOptions(false)).overwrite, f, now)
  }

  /** CopyObject once both names are valid: the existence check unless overwriting, then the copy. */
  function CopyChecked(store: Store, src: string, dst: string, overwrite: bool, f: Faults, now: int): (r: Outcome)
    ensures r.store == store || (r.err.None? && src in store && r.store == CopiedStore(store, src, dst, now))
    ensures !overwrite && dst in store && f.stat.None? ==> r == Outcome(store, Some(NewObjectAlreadyExistError(MINIO, dst)))
    ensures (src in store && f.copy.None? && (overwrite || (dst !in store && f.stat.None?))) ==>
              r == Outcome(CopiedStore(store, src, dst, now), None)
  {
    var ex := ExistOutcome(store, dst, f.stat);
    if !overwrite && ex.err.Some? then Outcome(store, Convert(AsNative(ex.err)))
    else if !overwrite && ex.exist then Outcome(store, Some(NewObjectAlreadyExistError(MINIO, dst)))
    else
      var copyErr := KeyError(store, src, f.copy);
      if copyErr.Some? then Outcome(store, Convert(copyErr))
      else Outcome(CopiedStore(store, src, dst, now), None)
  }

  /**
   * MoveObject: a copy with overwrite, then, unless the source is preserved
   * (nil options mean it is not), a delete of the source.
   */
  function MoveOutcome(store: Store, src: string, dst: string, options: Option<MoveOptions>, f: Faults, now: int): (r: Outcome)
    ensures var c := CopyOutcome(store, src, dst, Some(CopyOptions(true)), f, now);
      c.err.Some? ==> r == Outcome(store, c.err)
    ensures var c := CopyOutcome(store, src, dst, Some(CopyOptions(true)), f, now);
      options.GetOr(MoveOptions(false)).preserveSource ==> r == c
    ensures (IsValidObjectName(src) && IsValidObjectName(dst) && src in store && src != dst && f == NoFaults &&
             !options.GetOr(MoveOptions(false)).preserveSource) ==>
              r == Outcome(CopiedStore(store, src, dst, now) - {src}, None)
    ensures WellKeyed(store) ==> WellKeyed(r.store)
  {
    var opts := options.GetOr(MoveOptions(false));
    var c := CopyOutcome(store, src, dst, Some(CopyOptions(true)), f, now);
    if c.err.Some? then c
    else if !opts.preserveSource then DeleteOutcome(c.store, src, f)
    else Outcome(c.store, None)
  }

  /** Moving an object onto its own key without preserving the source deletes it. */
  lemma MoveOntoItselfDeletes(store: Store, key: string, now: int)
    requires IsValidObjectName(key) && key in store
    ensures MoveOutcome(store, key, key, None, NoFaults, now) == Outcome(store - {key}, None)
  {
    assert CopiedStore(store, key, key, now) - {key} == store - {key};
  }

  /**
   * A copy that fails with an error no chain node recognises (a plain
   * "connection reset by peer", say) is reported as success, so a move then
   * deletes its source: the object is gone.
   */
  lemma UnrecognisedCopyFailureLosesSource(store: Store, src: string, dst: string, e: NativeError, now: int)
    requires IsValidObjectName(src) && IsValidObjectName(dst) && src in store && dst !in store
    requires Convert(Some(e)).None?
    ensures MoveOutcome(store, src, dst, None, Faults(None, Some(e), None), now) == Outcome(store - {src}, None)
  {
    var f := Faults(None, Some(e), None);
    assert CopyChecked(store, src, dst, true, f, now) == Outcome(store, None);
    assert CopyOutcome(store, src, dst, Some(CopyOptions(true)), f, now) == Outcome(store, None);
  }

  // ---------------------------------------------------------------------
  // Listing
  // ---------------------------------------------------------------------

  /** One item of the channel the listing reads: an object, or an error in `err`. */
  datatype ObjectEntry = ObjectEntry(key: string, size: int, lastModified: int, err: Option<NativeError>)

  /** The listing request: the bucket, the raw prefix, the raw MaxKeys and the recursive flag. */
  datatype ListRequest = ListRequest(bucket: string, prefix: string, maxKeys: int, recursive: bool)

  function EntryInfo(e: ObjectEntry): ObjectInfo {
    NewObjectInfo(e.key, e.size, e.lastModified)
  }

  predicate HasError(entries: seq<ObjectEntry>) {
    exists i :: 0 <= i < |entries| && entries[i].err.Some?
  }

  /** What one entry contributes: its ObjectInfo when that is listable. */
  function Kept(e: ObjectEntry, prefix: string, includeDirectories: bool): seq<ObjectInfo> {
    if EntryInfo(e).IsListable(prefix, includeDirectories) then [EntryInfo(e)] else []
  }

  /** The listable entries, in order: exactly the ObjectInfos of entries that pass IsListable. */
  function Listable(entries: seq<ObjectEntry>, prefix: string, includeDirectories: bool): seq<ObjectInfo> {
    if entries == [] then []
    else Listable(entries[..|entries| - 1], prefix, includeDirectories) + Kept(entries[|entries| - 1], prefix, includeDirectories)
  }

  /** Listable keeps exactly the ObjectInfos of the entries that pass IsListable. */
  lemma {:induction false} ListableMembers(entries: seq<ObjectEntry>, prefix: string, includeDirectories: bool)
    ensures var r := Listable(entries, prefix, includeDirectories);
      forall x :: x in r ==> x.IsListable(prefix, includeDirectories)
    ensures var r := Listable(entries, prefix, includeDirectories);
      forall x :: x in r ==> exists i :: 0 <= i < |entries| && x == EntryInfo(entries[i])
    ensures var r := Listable(entries, prefix, includeDirectories);
      forall i :: 0 <= i < |entries| && EntryInfo(entries[i]).IsListable(prefix, includeDirectories) ==> EntryInfo(entries[i]) in r
    decreases |entries|
  {
    if entries != [] {
      var init := entries[..|entries| - 1];
      var front := Listable(init, prefix, includeDirectories);
      var r := Listable(entries, prefix, includeDirectories);
      assert r == front + Kept(entries[|entries| - 1], prefix, includeDirectories);
      ListableMembers(init, prefix, includeDirectories);
      forall x | x in r
        ensures exists i :: 0 <= i < |entries| && x == EntryInfo(entries[i])
      {
        if x in front {
          var i :| 0 <= i < |init| && x == EntryInfo(init[i]);
          assert init[i] == entries[i];
        } else {
          assert x == EntryInfo(entries[|entries| - 1]);
        }
      }
      forall i | 0 <= i < |entries| && EntryInfo(entries[i]).IsListable(prefix, includeDirectories)
        ensures EntryInfo(entries[i]) in r
      {
        if i < |init| {
          assert init[i] == entries[i];
        }
      }
    }
  }

  /** The error of the first entry that carries one. */
  function FirstError(entries: seq<ObjectEntry>): (r: Option<NativeError>)
    ensures r.None? <==> !HasError(entries)
    ensures r.Some? ==> exists i :: 0 <= i < |entries| && entries[i].err == r &&
                                    forall j :: 0 <= j < i ==> entries[j].err.None?
  {
    if entries == [] then None
    else if entries[0].err.Some? then entries[0].err
    else
      assert forall i :: 1 <= i < |entries| ==> entries[i] == entries[1..][i - 1];
      FirstError(entries[1..])
  }

  /** What a worker sends: the first error it reads, or the listable entries it read. */
  function WorkerResult(part: seq<ObjectEntry>, prefix: string, includeDirectories: bool): ObjectResult {
    if HasError(part) then ObjectResult([], FirstError(part))
    else ObjectResult(Listable(part, prefix, includeDirectories), None)
  }

  /** The results of the workers, in the order they reach the collector. */
  function WorkerResults(parts: seq<seq<ObjectEntry>>, prefix: string, includeDirectories: bool): (r: seq<ObjectResult>)
    ensures |r| == |parts|
    ensures forall i :: 0 <= i < |parts| ==> r[i] == WorkerResult(parts[i], prefix, includeDirectories)
  {
    seq(|parts|, i requires 0 <= i < |parts| => WorkerResult(parts[i], prefix, includeDirectories))
  }

  /** The parts one after another. */
  function Flatten(parts: seq<seq<ObjectEntry>>): seq<ObjectEntry> {
    if parts == [] then [] else Flatten(parts[..|parts| - 1]) + parts[|parts| - 1]
  }

  /** The error of the first entry carrying one is the error FirstError finds. */
  lemma {:induction false} FirstErrorAt(entries: seq<ObjectEntry>, k: int)
    requires 0 <= k < |entries| && entries[k].err.Some?
    requires forall j :: 0 <= j < k ==> entries[j].err.None?
    ensures HasError(entries) && FirstError(entries) == entries[k].err
    decreases k
  {
    if k > 0 {
      assert forall j :: 0 <= j < k - 1 ==> entries[1..][j] == entries[j + 1];
      FirstErrorAt(entries[1..], k - 1);
    }
  }

  /** One worker: reads its entries in order, stops at the first error, keeps the listable ones. */
  method ListWorker(part: seq<ObjectEntry>, opt: ListOptions) returns (res: ObjectResult)
    ensures res == WorkerResult(part, opt.objectKeyPrefix, opt.includeDirectories)
  {
    var objInfos: seq<ObjectInfo> := [];
    var k := 0;
    while k < |part|
      invariant 0 <= k <= |part|
      invariant forall j :: 0 <= j < k ==> part[j].err.None?
      invariant objInfos == Listable(part[..k], opt.objectKeyPrefix, opt.includeDirectories)
    {
      var entry := part[k];
      if entry.err.Some? {
        FirstErrorAt(part, k);
        return ObjectResult([], entry.err);
      }
      var objInfo := NewObjectInfo(entry.key, entry.size, entry.lastModified);
      if objInfo.IsListable(opt.objectKeyPrefix, opt.includeDirectories) {
        objInfos := objInfos + [objInfo];
      }
      assert part[..k + 1][..k] == part[..k];
      k := k + 1;
    }
    assert part[..k] == part;
    return ObjectResult(objInfos, None);
  }

  lemma {:induction false} ListableAppend(a: seq<ObjectEntry>, b: seq<ObjectEntry>, prefix: string, inc: bool)
    ensures Listable(a + b, prefix, inc) == Listable(a, prefix, inc) + Listable(b, prefix, inc)
    decreases |b|
  {
    if b == [] {
      assert a + b == a;
    } else {
      var b' := b[..|b| - 1];
      ListableAppend(a, b', prefix, inc);
      assert (a + b)[..|a + b| - 1] == a + b';
      assert (a + b)[|a + b| - 1] == b[|b| - 1];
    }
  }

  /** The listable entries of a permuted stream are a permutation of the listable entries. */
  lemma {:induction false} ListablePermutation(s1: seq<ObjectEntry>, s2: seq<ObjectEntry>, prefix: string, inc: bool)
    requires multiset(s1) == multiset(s2)
    ensures multiset(Listable(s1, prefix, inc)) == multiset(Listable(s2, prefix, inc))
    decreases |s1|
  {
    if s1 == [] {
      assert s2 == [] by { assert |s2| == |multiset(s2)|; }
    } else {
      var x := s1[|s1| - 1];
      var s1' := s1[..|s1| - 1];
      assert s1 == s1' + [x];
      assert multiset(s1') == multiset(s1) - multiset{x};
      assert x in multiset(s2);
      var j :| 0 <= j < |s2| && s2[j] == x;
      var s2' := ListableRemove(s2, j, prefix, inc);
      ListablePermutation(s1', s2', prefix, inc);
      ListableAppend(s1', [x], prefix, inc);
    }
  }

  /** Taking one entry out of a stream takes its contribution out of the listable entries. */
  lemma ListableRemove(s: seq<ObjectEntry>, j: int, prefix: string, inc: bool) returns (rest: seq<ObjectEntry>)
    requires 0 <= j < |s|
    ensures multiset(rest) == multiset(s) - multiset{s[j]}
    ensures multiset(Listable(s, prefix, inc)) == multiset(Listable(rest, prefix, inc)) + multiset(Listable([s[j]], prefix, inc))
  {
    var a, x, b := s[..j], s[j], s[j + 1..];
    rest := a + b;
    assert s == a + [x] + b;
    assert multiset(s) == multiset(a) + multiset{x} + multiset(b);
    ListableAppend(a + [x], b, prefix, inc);
    ListableAppend(a, [x], prefix, inc);
    ListableAppend(a, b, prefix, inc);
  }

  lemma {:induction false} FlattenMembers(parts: seq<seq<ObjectEntry>>, x: ObjectEntry)
    ensures x in Flatten(parts) <==> exists i :: 0 <= i < |parts| && x in parts[i]
    decreases |parts|
  {
    if parts != [] {
      var init := parts[..|parts| - 1];
      FlattenMembers(init, x);
      assert forall i :: 0 <= i < |init| ==> init[i] == parts[i];
    }
  }

  /** With no error anywhere, the collected entries are the listable entries of all parts. */
  lemma {:induction false} CollectedIsListable(parts: seq<seq<ObjectEntry>>, prefix: string, inc: bool)
    requires forall i :: 0 <= i < |parts| ==> !HasError(parts[i])
    ensures ConcatObjects(WorkerResults(parts, prefix, inc)) == Listable(Flatten(parts), prefix, inc)
    decreases |parts|
  {
    if parts != [] {
      var init := parts[..|parts| - 1];
      CollectedIsListable(init, prefix, inc);
      var rs := WorkerResults(parts, prefix, inc);
      assert rs[..|rs| - 1] == WorkerResults(init, prefix, inc);
      ListableAppend(Flatten(init), parts[|parts| - 1], prefix, inc);
    }
  }

  /** The parts hold exactly the entries of the stream. */
  lemma PartsCoverStream(parts: seq<seq<ObjectEntry>>, stream: seq<ObjectEntry>, x: ObjectEntry)
    requires multiset(Flatten(parts)) == multiset(stream)
    ensures x in stream <==> exists i :: 0 <= i < |parts| && x in parts[i]
  {
    FlattenMembers(parts, x);
    assert x in stream <==> x in multiset(stream);
    assert x in Flatten(parts) <==> x in multiset(Flatten(parts));
  }

  /** The stream holds an error exactly when some worker's part does. */
  lemma ErrorInSomePart(parts: seq<seq<ObjectEntry>>, stream: seq<ObjectEntry>)
    requires multiset(Flatten(parts)) == multiset(stream)
    ensures HasError(stream) <==> exists i :: 0 <= i < |parts| && HasError(parts[i])
  {
    if HasError(stream) {
      var k :| 0 <= k < |stream| && stream[k].err.Some?;
      PartsCoverStream(parts, stream, stream[k]);
      var i :| 0 <= i < |parts| && stream[k] in parts[i];
      var j :| 0 <= j < |parts[i]| && parts[i][j] == stream[k];
    }
    if exists i :: 0 <= i < |parts| && HasError(parts[i]) {
      var i :| 0 <= i < |parts| && HasError(parts[i]);
      var j :| 0 <= j < |parts[i]| && parts[i][j].err.Some?;
      PartsCoverStream(parts, stream, parts[i][j]);
      var k :| 0 <= k < |stream| && stream[k] == parts[i][j];
    }
  }

  /**
   * However the stream is split among the workers and whatever order their
   * results arrive in: the collection fails exactly when the stream holds an
   * error, and then with one of the stream's errors.
   */
  lemma StreamFailure(parts: seq<seq<ObjectEntry>>, stream: seq<ObjectEntry>, prefix: string, inc: bool)
    requires multiset(Flatten(parts)) == multiset(stream)
    ensures CollectResults(WorkerResults(parts, prefix, inc)).Failure? <==> HasError(stream)
    ensures var r := CollectResults(WorkerResults(parts, prefix, inc));
      r.Failure? ==> exists i :: 0 <= i < |stream| && stream[i].err == Some(r.error)
  {
    var rs := WorkerResults(parts, prefix, inc);
    var r := CollectResults(rs);
    ErrorInSomePart(parts, stream);
    assert forall i :: 0 <= i < |parts| ==> (rs[i].e.Some? <==> HasError(parts[i]));
    if r.Failure? {
      var i :| 0 <= i < |rs| && rs[i].e == Some(r.error);
      var k :| 0 <= k < |parts[i]| && parts[i][k].err == Some(r.error);
      PartsCoverStream(parts, stream, parts[i][k]);
      var m :| 0 <= m < |stream| && stream[m] == parts[i][k];
    }
  }

  /**
   * However the stream is split and whatever order the results arrive in: a
   * successful collection holds the listable entries of the stream, up to order.
   */
  lemma StreamSuccess(parts: seq<seq<ObjectEntry>>, stream: seq<ObjectEntry>, prefix: string, inc: bool)
    requires multiset(Flatten(parts)) == multiset(stream)
    ensures var r := CollectResults(WorkerResults(parts, prefix, inc));
      r.Success? ==> multiset(r.value) == multiset(Listable(stream, prefix, inc))
  {
    var rs := WorkerResults(parts, prefix, inc);
    if CollectResults(rs).Success? {
      assert forall i :: 0 <= i < |parts| ==> !HasError(parts[i]) by {
        forall i | 0 <= i < |parts| ensures !HasError(parts[i]) {
          assert rs[i].e.None?;
        }
      }
      CollectedIsListable(parts, prefix, inc);
      ListablePermutation(Flatten(parts), stream, prefix, inc);
    }
  }

  /** Directory removal does not depend on the order of its input. */
  lemma PostProcessPermutation(a: seq<ObjectInfo>, b: seq<ObjectInfo>, includeDirectories: bool)
    requires multiset(a) == multiset(b)
    ensures multiset(PostProcess(a, includeDirectories)) == multiset(PostProcess(b, includeDirectories))
  {
    if !includeDirectories {
      var ra, rb := RemoveDirObjects(a), RemoveDirObjects(b);
      assert forall x :: multiset(ra)[x] == multiset(rb)[x];
    }
  }

  // ---------------------------------------------------------------------
  // The storage
  // ---------------------------------------------------------------------

  class MinioStorage {
    var bucket: string
    var client: MinioClient
    /** The bucket's contents as the provider holds them. */
    var objects: Store

    constructor (bucket: string, client: MinioClient, objects: Store)
      ensures this.bucket == bucket && this.client == client && this.objects == objects
    {
      this.bucket := bucket;
      this.client := client;
      this.objects := objects;
    }

    /** StatObject on the key; a NoSuchKey response reads as "absent". */
    method ObjectExist(objectKey: string, fault: Option<NativeError>) returns (exist: bool, err: Option<StorageError>)
      ensures Existence(exist, err) == ExistOutcome(objects, objectKey, fault)
    {
      var statErr := KeyError(objects, objectKey, fault);
      if statErr.Some? {
        if IsObjectNotFoundError(statErr.value) {
          return false, None;
        }
        return false, Convert(statErr);
      }
      return true, None;
    }

    method DeleteObject(objectKey: string, f: Faults) returns (err: Option<StorageError>)
      modifies this`objects
      ensures Outcome(objects, err) == DeleteOutcome(old(objects), objectKey, f)
    {
      var exist, se := ObjectExist(objectKey, f.stat);
      if se.Some? {
        return se;
      }
      if !exist {
        return Some(NewObjectNotFoundError(MINIO, objectKey));
      }
      var removeErr := f.remove;
      if removeErr.None? {
        objects := objects - {objectKey};
      }
      return Convert(removeErr);
    }

    method CopyObject(srcObjectKey: string, destObjectKey: string, options: Option<CopyOptions>, f: Faults, now: int)
      returns (err: Option<StorageError>)
      modifies this`objects
      ensures Outcome(objects, err) == CopyOutcome(old(objects), srcObjectKey, destObjectKey, options, f, now)
    {
      var invalidObjectKey := FindFirstInvalidObject([srcObjectKey, destObjectKey]);
      if invalidObjectKey != "" {
        return Some(NewInvalidObjectNameError(MINIO, invalidObjectKey));
      }
      var opts := options.GetOr(CopyOptions(false));
      if !opts.overwrite {
        var exist, e := ObjectExist(destObjectKey, f.stat);
        if e.Some? {
          return Convert(AsNative(e));
        }
        if exist {
          return Some(NewObjectAlreadyExistError(MINIO, destObjectKey));
        }
      }
      var copyErr := KeyError(objects, srcObjectKey, f.copy);
      if copyErr.None? {
        objects := CopiedStore(objects, srcObjectKey, destObjectKey, now);
      }
      return Convert(copyErr);
    }

    method MoveObject(srcObjectKey: string, destObjectKey: string, options: Option<MoveOptions>, f: Faults, now: int)
      returns (err: Option<StorageError>)
      modifies this`objects
      ensures Outcome(objects, err) == MoveOutcome(old(objects), srcObjectKey, destObjectKey, options, f, now)
    {
      var opts := options.GetOr(MoveOptions(false));
      err := CopyObject(srcObjectKey, destObjectKey, Some(CopyOptions(true)), f, now);
      if err.Some? {
        return;
      }
      if !opts.preserveSource {
        err := DeleteObject(srcObjectKey, f);
        return;
      }
      return None;
    }

    /**
     * ListObjects. `parts[w]` is what the w-th worker to report read from the
     * shared channel, in order; together the parts are the stream the
     * provider answers the request with, split in any way.
     */
    method ListObjects(opt: ListOptions, listing: ListRequest -> seq<ObjectEntry>, parts: seq<seq<ObjectEntry>>)
      returns (objects: seq<ObjectInfo>, err: Option<StorageError>)
      requires |parts| == opt.GetConcurrentNum()
      requires multiset(Flatten(parts)) == multiset(listing(ListRequest(bucket, opt.objectKeyPrefix, opt.maxKeys, opt.recursive)))
      ensures var stream := listing(ListRequest(bucket, opt.objectKeyPrefix, opt.maxKeys, opt.recursive));
        HasError(stream) ==> objects == [] && exists i :: 0 <= i < |stream| && stream[i].err.Some? && err == Convert(stream[i].err)
      ensures var stream := listing(ListRequest(bucket, opt.objectKeyPrefix, opt.maxKeys, opt.recursive));
        !HasError(stream) ==> err.None? && Sorted(objects, opt.sortBy, opt.sortOrder)
      ensures var stream := listing(ListRequest(bucket, opt.objectKeyPrefix, opt.maxKeys, opt.recursive));
        !HasError(stream) ==>
          multiset(objects) == multiset(PostProcess(Listable(stream, opt.objectKeyPrefix, opt.includeDirectories), opt.includeDirectories))
      ensures forall x :: x in objects ==> x.IsListable(opt.objectKeyPrefix, opt.includeDirectories)
      ensures !opt.includeDirectories ==> forall x :: x in objects ==> !x.isDir
    {
      ghost var stream := listing(ListRequest(bucket, opt.objectKeyPrefix, opt.maxKeys, opt.recursive));
      ghost var prefix, inc := opt.objectKeyPrefix, opt.includeDirectories;
      var results := RunWorkers(parts, opt);
      StreamFailure(parts, stream, prefix, inc);
      StreamSuccess(parts, stream, prefix, inc);

      var collected, e := Collect(results);
      if e.Some? {
        return [], Convert(e);
      }

      ListableMembers(stream, prefix, inc);
      PostProcessPermutation(collected, Listable(stream, prefix, inc), inc);
      objects := FinishListing(collected, opt.includeDirectories, opt.sortBy, opt.sortOrder);
      assert forall x :: x in collected ==> x in Listable(stream, prefix, inc) by {
        forall x | x in collected ensures x in Listable(stream, prefix, inc) {
          assert x in multiset(collected);
        }
      }
      return objects, None;
    }
  }

  /** One worker per part; `results[w]` is the result of the worker owning `parts[w]`. */
  method RunWorkers(parts: seq<seq<ObjectEntry>>, opt: ListOptions) returns (results: seq<ObjectResult>)
    ensures results == WorkerResults(parts, opt.objectKeyPrefix, opt.includeDirectories)
  {
    ghost var expected := WorkerResults(parts, opt.objectKeyPrefix, opt.includeDirectories);
    results := [];
    var w := 0;
    while w < |parts|
      invariant 0 <= w <= |parts|
      invariant results == expected[..w]
    {
      var res := ListWorker(parts[w], opt);
      results := results + [res];
      w := w + 1;
    }
  }

  /**
   * NewMinioStorage: connect, reduce a `tenant:bucket` name to the bucket
   * (writing it back into the configuration), then set the bucket up. The
   * account's buckets stand for the provider.
   */
  method NewMinioStorage(config: Config, account: map<string, Store>, f: SetupFaults)
    returns (s: MinioStorage?, err: Option<StorageError>)
    modifies config`bucketName
    ensures f.client.Some? ==> s == null && err == Convert(f.client) && config.bucketName == old(config.bucketName)
    ensures f.client.None? ==> config.bucketName == TenantBucket(old(config.bucketName))
    ensures f.client.None? ==>
      var setup := EnsureBucketExists(BucketExists(account, config.bucketName, f.found), f.make,
                                      config.bucketName, config.createBucketIfNotExists);
      (setup.err.Some? ==> s == null && err == setup.err) &&
      (setup.err.None? ==> s != null && fresh(s) && err.None? && s.bucket == config.bucketName &&
                           s.client == MinioClient(GetEffectiveEndpoint(config.endpoint), config.accessKeyID,
                                                   config.accessKeySecret, config.GetSecure()) &&
                           s.objects == Contents(account, config.bucketName))
  {
    var endpoint := GetEffectiveEndpoint(config.endpoint);
    var client := MinioClient(endpoint, config.accessKeyID, config.accessKeySecret, config.GetSecure());
    if f.client.Some? {
      return null, Convert(f.client);
    }

    var bucket := config.bucketName;
    ContainsChar(bucket, ':');
    if Contains(bucket, ":") {
      bucket := bucket[Index(bucket, ':') + 1..];
    }
    config.bucketName := bucket;

    var setup := EnsureBucketExists(BucketExists(account, config.bucketName, f.found), f.make,
                                    config.bucketName, config.AutoCreateBucket());
    if setup.err.Some? {
      return null, setup.err;
    }
    s := new MinioStorage(config.bucketName, client, Contents(account, config.bucketName));
    return s, None;
  }
}
