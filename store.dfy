/**
 * The abstract provider behind both backends: a bucket's contents as a map
 * from object key to entry, the outcome of one facade operation on it, and
 * the errors the provider calls made by one operation fail with.
 */
module BucketStore {
  import opened Wrappers
  import opened Errors
  import opened ObjectInfos
  import opened ObjectSort

  /** A bucket's contents, keyed by object name. */
  type Store = map<string, ObjectInfo>

  /** Every entry is filed under its own name. */
  predicate WellKeyed(store: Store) {
    forall k | k in store :: store[k].name == k
  }

  /** The bucket after a facade operation, and the error the operation returned (None for nil). */
  datatype Outcome = Outcome(store: Store, err: Option<StorageError>)

  /** What `ObjectExist` returns. */
  datatype Existence = Existence(exist: bool, err: Option<StorageError>)

  /**
   * The error each kind of provider call of one facade operation fails with,
   * None when the call succeeds: the existence check (`stat`), the copy and
   * the removal. No facade operation makes two calls of the same kind.
   */
  datatype Faults = Faults(stat: Option<NativeError>, copy: Option<NativeError>, remove: Option<NativeError>)

  const NoFaults := Faults(None, None, None)

  /** The provider's bucket-existence query: the injected fault, or whether the account holds the bucket. */
  function BucketExists(account: map<string, Store>, bucketName: string, fault: Option<NativeError>): Result<bool, NativeError> {
    if fault.Some? then Failure(fault.value) else Success(bucketName in account)
  }

  /** A bucket's contents as the account holds them; a bucket that was just made is empty. */
  function Contents(account: map<string, Store>, bucketName: string): Store {
    if bucketName in account then account[bucketName] else map[]
  }

  /** The provider's server-side copy of `src` to `dst` at time `now`: same size, the new name, a new timestamp. */
  function CopiedStore(store: Store, src: string, dst: string, now: int): (r: Store)
    requires src in store
    ensures r.Keys == store.Keys + {dst}
    ensures r[dst].name == dst && r[dst].size == store[src].size && r[dst].lastModified == now
    ensures forall k | k in store && k != dst :: r[k] == store[k]
    ensures WellKeyed(store) ==> WellKeyed(r)
  {
    store[dst := NewObjectInfo(dst, store[src].size, now)]
  }

  /**
   * The tail both listings share: directory removal when directories are
   * not requested, then the sort.
   */
  method FinishListing(objects: seq<ObjectInfo>, includeDirectories: bool, sortBy: int, sortOrder: int)
    returns (r: seq<ObjectInfo>)
    ensures multiset(r) == multiset(PostProcess(objects, includeDirectories))
    ensures Sorted(r, sortBy, sortOrder)
    ensures forall x :: x in r ==> x in objects
    ensures !includeDirectories ==> forall x :: x in r ==> !x.isDir
  {
    var kept := objects;
    if !includeDirectories {
      kept := RemoveDirObjects(kept);
    }
    r := SortSlice(kept, sortBy, sortOrder);
    assert forall x :: x in r ==> x in kept by {
      forall x | x in r ensures x in kept {
        assert x in multiset(r);
      }
    }
  }
}
