/** Object-name validation (common/utils.go). */
module Utils {
  import opened GoStrings

  /** Validity stated character by character. */
  ghost predicate WellFormedName(name: string) {
    && |name| > 0
    && name[0] != '/'
    && name[|name| - 1] != '/'
    && (forall i :: 0 <= i < |name| ==> name[i] != '\\')
    && (forall i :: 0 <= i < |name| - 1 ==> !(name[i] == '/' && name[i + 1] == '/'))
  }

  /**
   * A (non-strict) valid name is non-empty, does not start with '/' or '\',
   * contains neither "//" nor '\', and does not end with '/'.
   */
  function IsValidObjectName(objectName: string): (r: bool)
    ensures r <==> WellFormedName(objectName)
  {
    ContainsChar(objectName, '\\');
    ContainsPair(objectName, '/', '/');
    !(objectName == "" ||
      HasPrefix(objectName, "/") ||
      HasPrefix(objectName, "\\") ||
      Contains(objectName, "//") ||
      Contains(objectName, "\\") ||
      HasSuffix(objectName, "/"))
  }

  /** The same test with the leading-'\' clause dropped. */
  function ValidWithoutLeadingBackslashTest(objectName: string): bool {
    !(objectName == "" ||
      HasPrefix(objectName, "/") ||
      Contains(objectName, "//") ||
      Contains(objectName, "\\") ||
      HasSuffix(objectName, "/"))
  }

  /** The leading-'\' test is subsumed by the contains-'\' test. */
  lemma LeadingBackslashTestRedundant(objectName: string)
    ensures IsValidObjectName(objectName) == ValidWithoutLeadingBackslashTest(objectName)
  {
    ContainsChar(objectName, '\\');
    if HasPrefix(objectName, "\\") {
      assert objectName[0] == '\\';
    }
  }

  /** Position `k` holds an invalid name and every earlier name is valid. */
  ghost predicate FirstInvalidAt(objectNames: seq<string>, k: int)
    requires 0 <= k < |objectNames|
  {
    !IsValidObjectName(objectNames[k]) && forall i :: 0 <= i < k ==> IsValidObjectName(objectNames[i])
  }

  /**
   * The first name that fails validation, or "" when all pass. The scan
   * stops at the first invalid name, even when that name is "" itself.
   */
  function FindFirstInvalidObject(objectNames: seq<string>): (r: string)
    ensures (forall i :: 0 <= i < |objectNames| ==> IsValidObjectName(objectNames[i])) ==> r == ""
    ensures forall k :: 0 <= k < |objectNames| && FirstInvalidAt(objectNames, k) ==> r == objectNames[k]
    ensures r != "" ==> r in objectNames && !IsValidObjectName(r)
  {
    if objectNames == [] then ""
    else if !IsValidObjectName(objectNames[0]) then objectNames[0]
    else
      var r := FindFirstInvalidObject(objectNames[1..]);
      assert forall k :: 1 <= k < |objectNames| ==> objectNames[k] == objectNames[1..][k - 1];
      assert forall k :: 1 <= k < |objectNames| && FirstInvalidAt(objectNames, k) ==> FirstInvalidAt(objectNames[1..], k - 1);
      r
  }

  /** A non-empty result is the first invalid name: every name before it is valid. */
  lemma {:induction false} FirstInvalidIsFirst(objectNames: seq<string>)
    requires FindFirstInvalidObject(objectNames) != ""
    ensures exists k :: 0 <= k < |objectNames| && objectNames[k] == FindFirstInvalidObject(objectNames) &&
                        forall i :: 0 <= i < k ==> IsValidObjectName(objectNames[i])
  {
    if IsValidObjectName(objectNames[0]) {
      FirstInvalidIsFirst(objectNames[1..]);
      var k :| 0 <= k < |objectNames[1..]| && objectNames[1..][k] == FindFirstInvalidObject(objectNames[1..]) &&
               forall i :: 0 <= i < k ==> IsValidObjectName(objectNames[1..][i]);
      assert objectNames[k + 1] == objectNames[1..][k];
      assert forall i :: 1 <= i < k + 1 ==> objectNames[i] == objectNames[1..][i - 1];
    } else {
      assert objectNames[0] == FindFirstInvalidObject(objectNames);
    }
  }

  /** For two names, as CopyObject passes them: the first if invalid, else the second if invalid, else "". */
  lemma FirstInvalidOfTwo(first: string, second: string)
    ensures FindFirstInvalidObject([first, second]) ==
              if !IsValidObjectName(first) then first else if !IsValidObjectName(second) then second else ""
  {
    assert [first, second][1..] == [second];
    assert [second][1..] == [];
  }

  /** An empty first argument is invalid, yet the result is "", as when every name is valid. */
  lemma EmptyNameGoesUnreported(rest: seq<string>)
    ensures !IsValidObjectName("")
    ensures FindFirstInvalidObject([""] + rest) == ""
  {
  }
}
