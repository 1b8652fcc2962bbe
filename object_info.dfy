/**
 * Listing entries (common/object_info.go): the `ObjectInfo` record, its
 * listing filter, the per-worker `ObjectResult`, and what the listing does
 * with the merged worker results.
 */
module ObjectInfos {
  import opened Wrappers
  import opened GoStrings
  import opened Errors

  /** Timestamps are integers; 0 stands for Go's zero `time.Time{}`. */
  const ZeroTime: int := 0

  datatype ObjectInfo = ObjectInfo(isDir: bool, name: string, size: int, lastModified: int)
  {
    /**
     * An entry is listed unless it is the prefix itself, and a directory
     * entry only when directories are requested.
     */
    function IsListable(objectKeyPrefix: string, includeDirectories: bool): (r: bool)
      ensures name == objectKeyPrefix ==> !r
      ensures name != objectKeyPrefix && isDir ==> (r <==> includeDirectories)
      ensures name != objectKeyPrefix && !isDir ==> r
    {
      if objectKeyPrefix == name then false
      else if isDir then includeDirectories
      else true
    }
  }

  /** A directory marker is an empty object whose name ends in '/'. */
  function NewObjectInfo(name: string, size: int, lastModified: int): (r: ObjectInfo)
    ensures r.name == name && r.size == size && r.lastModified == lastModified
    ensures r.isDir <==> size == 0 && |name| > 0 && name[|name| - 1] == '/'
  {
    ObjectInfo(size == 0 && HasSuffix(name, "/"), name, size, lastModified)
  }

  /** One worker's outcome: its entries, or the error that stopped it. */
  datatype ObjectResult = ObjectResult(objects: seq<ObjectInfo>, e: Option<NativeError>)

  /**
   * RemoveDirObjects is called by both listings but defined outside the
   * modelled files. ASSUMED CONTRACT: it keeps exactly the entries that are
   * not directories. Only the multiset of the result is relied on.
   */
  function RemoveDirObjects(objects: seq<ObjectInfo>): (r: seq<ObjectInfo>)
    ensures forall x :: multiset(r)[x] == if x.isDir then 0 else multiset(objects)[x]
  {
    if objects == [] then []
    else
      assert objects == [objects[0]] + objects[1..];
      (if objects[0].isDir then [] else [objects[0]]) + RemoveDirObjects(objects[1..])
  }

  /** The entries of all worker results, in collection order. */
  function ConcatObjects(results: seq<ObjectResult>): seq<ObjectInfo> {
    if results == [] then [] else ConcatObjects(results[..|results| - 1]) + results[|results| - 1].objects
  }

  /**
   * The collector: the first result carrying an error decides the outcome;
   * otherwise the entries of all results, concatenated.
   */
  function CollectResults(results: seq<ObjectResult>): (r: Result<seq<ObjectInfo>, NativeError>)
    ensures r.Failure? <==> exists i :: 0 <= i < |results| && results[i].e.Some?
    ensures r.Failure? ==> exists i :: 0 <= i < |results| && results[i].e == Some(r.error) &&
                                      forall j :: 0 <= j < i ==> results[j].e.None?
    ensures r.Success? ==> r.value == ConcatObjects(results)
  {
    if results == [] then Success([])
    else if results[0].e.Some? then Failure(results[0].e.value)
    else
      match CollectResults(results[1..])
      case Failure(e) =>
        assert forall i :: 1 <= i < |results| ==> results[i] == results[1..][i - 1];
        Failure(e)
      case Success(rest) =>
        ConcatFront(results);
        Success(results[0].objects + rest)
  }

  lemma {:induction false} ConcatFront(results: seq<ObjectResult>)
    requires results != []
    ensures ConcatObjects(results) == results[0].objects + ConcatObjects(results[1..])
    decreases |results|
  {
    if |results| > 1 {
      var init := results[..|results| - 1];
      ConcatFront(init);
      assert init[1..] == results[1..][..|results[1..]| - 1];
      assert init[0] == results[0];
    } else {
      assert results[1..] == [];
    }
  }

  /**
   * The collector loop: takes the results in arrival order and stops at the
   * first one carrying an error, which it hands back unconverted.
   */
  method Collect(results: seq<ObjectResult>) returns (objects: seq<ObjectInfo>, err: Option<NativeError>)
    ensures CollectResults(results).Failure? ==> objects == [] && err == Some(CollectResults(results).error)
    ensures CollectResults(results).Success? ==> objects == CollectResults(results).value && err.None?
  {
    objects := [];
    var i := 0;
    while i < |results|
      invariant 0 <= i <= |results|
      invariant forall j :: 0 <= j < i ==> results[j].e.None?
      invariant objects == ConcatObjects(results[..i])
    {
      var objResult := results[i];
      if objResult.e.Some? {
        return [], objResult.e;
      }
      assert results[..i + 1][..i] == results[..i];
      objects := objects + objResult.objects;
      i := i + 1;
    }
    assert results[..i] == results;
    return objects, None;
  }

  /** After collection: directory removal when directories are not requested. */
  function PostProcess(objects: seq<ObjectInfo>, includeDirectories: bool): (r: seq<ObjectInfo>)
    ensures forall x :: multiset(r)[x] == if !includeDirectories && x.isDir then 0 else multiset(objects)[x]
    ensures !includeDirectories ==> forall x :: x in r ==> !x.isDir
    ensures forall x :: x in r ==> x in objects
  {
    if includeDirectories then objects
    else
      var r := RemoveDirObjects(objects);
      assert forall x :: x in r ==> multiset(r)[x] > 0;
      r
  }

  /** With directories requested, the filter is exactly "not the prefix itself". */
  lemma ListableWithDirectories(o: ObjectInfo, prefix: string)
    ensures o.IsListable(prefix, true) <==> o.name != prefix
  {
  }
}
