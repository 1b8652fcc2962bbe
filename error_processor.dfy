/**
 * The chain of responsibility that classifies native errors
 * (common/error_processor.go). A node pairs a match test with a
 * classification and holds a mutable link to its successor; the end of the
 * chain (no successor) yields nil.
 */
module ErrorProcessor {
  import opened Wrappers
  import opened Errors

  /** A node's behaviour as a value: its `Match` and the classification its `Process` makes on a match. */
  datatype Rule = Rule(matches: NativeError -> bool, classify: NativeError -> StorageError)

  /** The pure meaning of a chain: the first rule that matches decides; none matching means nil. */
  function FirstMatch(rules: seq<Rule>, err: NativeError): (r: Option<StorageError>)
    ensures r.None? <==> forall i :: 0 <= i < |rules| ==> !rules[i].matches(err)
    ensures r.Some? ==> exists i :: 0 <= i < |rules| && rules[i].matches(err) && r.value == rules[i].classify(err) &&
                                    forall j :: 0 <= j < i ==> !rules[j].matches(err)
  {
    if rules == [] then None
    else if rules[0].matches(err) then Some(rules[0].classify(err))
    else
      var r := FirstMatch(rules[1..], err);
      assert forall i :: 1 <= i < |rules| ==> rules[i] == rules[1..][i - 1];
      r
  }

  /** A chain node: the embedded `BaseErrorProcessor` link plus the node's own Match/Process. */
  class ErrorProcessorNode {
    const matches: NativeError -> bool
    const classify: NativeError -> StorageError
    var next: ErrorProcessorNode?

    /** A fresh node, like the zero `BaseErrorProcessor`, has no successor. */
    constructor (matches: NativeError -> bool, classify: NativeError -> StorageError)
      ensures this.matches == matches && this.classify == classify
      ensures next == null
    {
      this.matches := matches;
      this.classify := classify;
      next := null;
    }

    /** SetNext overwrites the link, so the last call wins. */
    method SetNext(n: ErrorProcessorNode?)
      modifies this
      ensures next == n
    {
      next := n;
    }

    /**
     * Process: classify on a match, otherwise hand the unchanged error to
     * the successor. `chain` is the list of nodes reachable from here.
     */
    method Process(err: NativeError, ghost chain: seq<ErrorProcessorNode>) returns (r: Option<StorageError>)
      requires Linked(chain) && chain[0] == this
      ensures r == FirstMatch(RulesOf(chain), err)
      decreases |chain|, 1
    {
      if matches(err) {
        r := Some(classify(err));
      } else {
        r := ProcessNext(err, chain);
      }
    }

    /** ProcessNext: the successor's Process, or nil at the end of the chain. */
    method ProcessNext(err: NativeError, ghost chain: seq<ErrorProcessorNode>) returns (r: Option<StorageError>)
      requires Linked(chain) && chain[0] == this
      ensures next == null ==> r == None
      ensures r == FirstMatch(RulesOf(chain[1..]), err)
      decreases |chain|, 0
    {
      if next != null {
        r := next.Process(err, chain[1..]);
      } else {
        r := None;
      }
    }
  }

  /** `chain` lists a path of nodes, each linked to the next, the last with no successor. */
  ghost predicate Linked(chain: seq<ErrorProcessorNode>)
    reads chain
  {
    && |chain| > 0
    && (forall i :: 0 <= i < |chain| - 1 ==> chain[i].next == chain[i + 1])
    && chain[|chain| - 1].next == null
  }

  /** The rules of the nodes of a chain, in chain order. */
  ghost function RulesOf(chain: seq<ErrorProcessorNode>): (rules: seq<Rule>)
    ensures |rules| == |chain|
    ensures forall i :: 0 <= i < |chain| ==> rules[i] == Rule(chain[i].matches, chain[i].classify)
  {
    if chain == [] then [] else [Rule(chain[0].matches, chain[0].classify)] + RulesOf(chain[1..])
  }

  /** Three nodes linked in a row form a chain whose rules are theirs, in that order. */
  lemma ThreeNodeChain(a: ErrorProcessorNode, b: ErrorProcessorNode, c: ErrorProcessorNode)
    requires a.next == b && b.next == c && c.next == null
    ensures Linked([a, b, c])
    ensures RulesOf([a, b, c]) == [Rule(a.matches, a.classify), Rule(b.matches, b.classify), Rule(c.matches, c.classify)]
  {
    var chain := [a, b, c];
    assert chain[0].next == chain[1] && chain[1].next == chain[2] && chain[2].next == null;
  }
}
