/**
 * Node evaluation in src/core_models/dannn.rs: the min/max/mean scan
 * (`get_mean_of_lowest_and_highest`) and `run_node`, whose logic gates return
 * a "mapped truth value": the largest input for true and the smallest input
 * for false, where an input counts as true-leaning when it is at least the
 * mean of the two extremes. `f64` is modelled as `real`.
 */
module NodeEvaluation {
  import opened Wrappers

  /** The smallest element, folding left to right as the scan does. */
  function Smallest(s: seq<real>): (m: real)
    requires |s| > 0
    ensures m in s
    ensures forall k :: 0 <= k < |s| ==> m <= s[k]
    decreases |s|
  {
    if |s| == 1 then s[0]
    else
      var p := Smallest(s[..|s| - 1]);
      assert forall k :: 0 <= k < |s| - 1 ==> s[..|s| - 1][k] == s[k];
      if s[|s| - 1] < p then s[|s| - 1] else p
  }

  /** The largest element, folding left to right as the scan does. */
  function Largest(s: seq<real>): (m: real)
    requires |s| > 0
    ensures m in s
    ensures forall k :: 0 <= k < |s| ==> s[k] <= m
    decreases |s|
  {
    if |s| == 1 then s[0]
    else
      var p := Largest(s[..|s| - 1]);
      assert forall k :: 0 <= k < |s| - 1 ==> s[..|s| - 1][k] == s[k];
      if s[|s| - 1] > p then s[|s| - 1] else p
  }

  /** What `get_mean_of_lowest_and_highest` returns. */
  datatype MeanScan = MeanScan(mean: real, smallest: real, largest: real)

  /**
   * The result of `get_mean_of_lowest_and_highest`: for a non-empty input the
   * two extremes, which are inputs and bound every input, and their midpoint;
   * for an empty input all three are zero.
   */
  function MeanOfLowestAndHighest(inputs: seq<real>): (r: MeanScan)
    ensures |inputs| == 0 ==> r == MeanScan(0.0, 0.0, 0.0)
    ensures |inputs| > 0 ==> r.smallest in inputs && r.largest in inputs
    ensures forall k :: 0 <= k < |inputs| ==> r.smallest <= inputs[k] <= r.largest
    ensures r.mean == (r.smallest + r.largest) / 2.0
    ensures r.smallest <= r.mean <= r.largest
  {
    if |inputs| == 0 then MeanScan(0.0, 0.0, 0.0)
    else
      var smallest, largest := Smallest(inputs), Largest(inputs);
      MeanScan((smallest + largest) / 2.0, smallest, largest)
  }

  /** `get_mean_of_lowest_and_highest`: one pass updating the running extremes. */
  method GetMeanOfLowestAndHighest(inputs: seq<real>) returns (mean: real, smallest: real, largest: real)
    ensures MeanScan(mean, smallest, largest) == MeanOfLowestAndHighest(inputs)
  {
    if |inputs| < 1 {
      return 0.0, 0.0, 0.0;
    }
    largest := inputs[0];
    smallest := inputs[0];
    for i := 0 to |inputs|
      invariant i == 0 ==> smallest == inputs[0] && largest == inputs[0]
      invariant i > 0 ==> smallest == Smallest(inputs[..i]) && largest == Largest(inputs[..i])
    {
      assert inputs[..i + 1][..i] == inputs[..i];
      if inputs[i] > largest {
        largest := inputs[i];
      }
      if inputs[i] < smallest {
        smallest := inputs[i];
      }
    }
    assert inputs[..|inputs|] == inputs;
    mean := (smallest + largest) / 2.0;
  }

  /** The AND/NAND scan hits: some input is below the mean and differs from the smallest. */
  predicate BelowMeanNotSmallest(inputs: seq<real>, scan: MeanScan)
  {
    exists k :: 0 <= k < |inputs| && inputs[k] < scan.mean && scan.smallest != inputs[k]
  }

  /** The OR/NOR scan hits: some input is at least the mean and is neither extreme. */
  predicate InteriorTrueLeaning(inputs: seq<real>, scan: MeanScan)
  {
    exists k :: 0 <= k < |inputs| && inputs[k] >= scan.mean
      && scan.smallest != inputs[k] && scan.largest != inputs[k]
  }

  /**
   * What `run_node` returns, stated by the existence of an input that stops
   * the scan: AND (101) and NAND (105) share one scan with swapped outcomes,
   * OR (102) and NOR (103) share the other; NOT (104) negates the first input;
   * the XOR arm (106) is empty and every other id yields nothing.
   */
  function NodeOutput(nodeType: nat, inputs: seq<real>): Option<real>
  {
    var scan := MeanOfLowestAndHighest(inputs);
    match nodeType
    case 101 => if BelowMeanNotSmallest(inputs, scan) then Some(scan.smallest) else Some(scan.largest)
    case 102 => if InteriorTrueLeaning(inputs, scan) then Some(scan.largest) else Some(scan.smallest)
    case 103 => if InteriorTrueLeaning(inputs, scan) then Some(scan.smallest) else Some(scan.largest)
    case 104 => if |inputs| == 0 then None else Some(-inputs[0])
    case 105 => if BelowMeanNotSmallest(inputs, scan) then Some(scan.largest) else Some(scan.smallest)
    case _ => None
  }

  /** `run_node`: the gates scan the inputs in order and return at the first input that decides. */
  method RunNode(nodeType: nat, inputs: seq<real>) returns (r: Option<real>)
    ensures r == NodeOutput(nodeType, inputs)
  {
    match nodeType
    case 101 =>
      var mean, smallest, largest := GetMeanOfLowestAndHighest(inputs);
      for i := 0 to |inputs|
        invariant forall k :: 0 <= k < i ==> !(inputs[k] < mean && smallest != inputs[k])
      {
        if inputs[i] < mean && smallest != inputs[i] {
          return Some(smallest);
        }
      }
      return Some(largest);
    case 102 =>
      var mean, smallest, largest := GetMeanOfLowestAndHighest(inputs);
      for i := 0 to |inputs|
        invariant forall k :: 0 <= k < i ==>
          !(inputs[k] >= mean && smallest != inputs[k] && largest != inputs[k])
      {
        if inputs[i] >= mean && smallest != inputs[i] && largest != inputs[i] {
          return Some(largest);
        }
      }
      return Some(smallest);
    case 103 =>
      var mean, smallest, largest := GetMeanOfLowestAndHighest(inputs);
      for i := 0 to |inputs|
        invariant forall k :: 0 <= k < i ==>
          !(inputs[k] >= mean && smallest != inputs[k] && largest != inputs[k])
      {
        if inputs[i] >= mean && smallest != inputs[i] && largest != inputs[i] {
          return Some(smallest);
        }
      }
      return Some(largest);
    case 104 =>
      // The source loops over the inputs and returns at the first one.
      if |inputs| > 0 {
        return Some(inputs[0] * -1.0);
      }
      return None;
    case 105 =>
      var mean, smallest, largest := GetMeanOfLowestAndHighest(inputs);
      for i := 0 to |inputs|
        invariant forall k :: 0 <= k < i ==> !(inputs[k] < mean && smallest != inputs[k])
      {
        if inputs[i] < mean && smallest != inputs[i] {
          return Some(largest);
        }
      }
      return Some(smallest);
    case _ =>
      // Includes the empty XOR arm (106).
      return None;
  }

  /** The ids of the four mapped-truth-value gates: AND, OR, NOR and NAND. */
  predicate IsMappedGate(nodeType: nat)
  {
    nodeType == 101 || nodeType == 102 || nodeType == 103 || nodeType == 105
  }

  /**
   * A gate always produces a result, and that result is one of the two
   * extremes: an input lying between every other input, or 0 for no inputs.
   */
  lemma GateOutputIsExtreme(nodeType: nat, inputs: seq<real>)
    requires IsMappedGate(nodeType)
    ensures NodeOutput(nodeType, inputs).Some?
    ensures var v, scan := NodeOutput(nodeType, inputs).value, MeanOfLowestAndHighest(inputs);
      v == scan.smallest || v == scan.largest
    ensures |inputs| > 0 ==> NodeOutput(nodeType, inputs).value in inputs
    ensures |inputs| > 0 ==>
      Smallest(inputs) <= NodeOutput(nodeType, inputs).value <= Largest(inputs)
    ensures |inputs| == 0 ==> NodeOutput(nodeType, inputs) == Some(0.0)
  {
  }

  /** The extreme that is not `v`; both when they coincide. */
  function Opposite(scan: MeanScan, v: real): real
  {
    if v == scan.smallest then scan.largest else scan.smallest
  }

  /** NAND answers the opposite extreme of AND, and NOR the opposite extreme of OR. */
  lemma NegatedGatesAreOpposites(inputs: seq<real>)
    ensures var scan := MeanOfLowestAndHighest(inputs);
      NodeOutput(105, inputs) == Some(Opposite(scan, NodeOutput(101, inputs).value))
    ensures var scan := MeanOfLowestAndHighest(inputs);
      NodeOutput(103, inputs) == Some(Opposite(scan, NodeOutput(102, inputs).value))
  {
  }

  /**
   * On inputs that take only the two extreme values, AND answers true and OR
   * answers false: AND omits only the smallest value from its scan, OR omits
   * both extremes, so neither scan can hit.
   */
  lemma TwoLevelInputs(inputs: seq<real>)
    requires var scan := MeanOfLowestAndHighest(inputs);
      forall k :: 0 <= k < |inputs| ==> inputs[k] == scan.smallest || inputs[k] == scan.largest
    ensures NodeOutput(101, inputs) == Some(MeanOfLowestAndHighest(inputs).largest)
    ensures NodeOutput(102, inputs) == Some(MeanOfLowestAndHighest(inputs).smallest)
  {
  }

  /** NOT negates its first input and ignores the rest; with no input it yields nothing. */
  lemma NotGate(x: real, rest: seq<real>)
    ensures NodeOutput(104, [x] + rest) == Some(-x)
    ensures NodeOutput(104, []) == None
  {
  }

  /** Every id other than the five implemented gates yields no result, XOR (106) included. */
  lemma OtherIdsYieldNothing(nodeType: nat, inputs: seq<real>)
    requires !(101 <= nodeType <= 105)
    ensures NodeOutput(nodeType, inputs) == None
  {
  }

  /** The values asserted by the source's `node_tests`. */
  lemma SourceTestVectors()
    ensures NodeOutput(101, [10.0, 20.0, 30.0, 40.0]) == Some(10.0)
    ensures NodeOutput(101, [10.0, 30.0, 30.0, 40.0]) == Some(40.0)
    ensures NodeOutput(102, [10.0, 20.0, 20.0, 40.0]) == Some(10.0)
    ensures NodeOutput(102, [10.0, 30.0, 30.0, 40.0]) == Some(40.0)
    ensures NodeOutput(103, [10.0, 20.0, 20.0, 40.0]) == Some(40.0)
    ensures NodeOutput(103, [10.0, 30.0, 30.0, 40.0]) == Some(10.0)
  {
    SpreadInputVector();
    UpperPairVector();
    LowerPairVector();
  }

  /** `[10, 20, 30, 40]`: 20 is below the mean 25 and is not the smallest, so AND answers false. */
  lemma SpreadInputVector()
    ensures NodeOutput(101, [10.0, 20.0, 30.0, 40.0]) == Some(10.0)
  {
    var a := [10.0, 20.0, 30.0, 40.0];
    ScanOfFour(a);
    assert a[1] < 25.0 && a[1] != 10.0;
  }

  /**
   * `[10, 30, 30, 40]`: 30 is at least the mean 25 and is neither extreme, so
   * OR answers true and NOR false; AND answers true.
   */
  lemma UpperPairVector()
    ensures NodeOutput(101, [10.0, 30.0, 30.0, 40.0]) == Some(40.0)
    ensures NodeOutput(102, [10.0, 30.0, 30.0, 40.0]) == Some(40.0)
    ensures NodeOutput(103, [10.0, 30.0, 30.0, 40.0]) == Some(10.0)
  {
    var b := [10.0, 30.0, 30.0, 40.0];
    ScanOfFour(b);
    assert b[1] >= 25.0 && b[1] != 10.0 && b[1] != 40.0;
  }

  /** `[10, 20, 20, 40]`: no interior input reaches the mean 25, so OR answers false and NOR true. */
  lemma LowerPairVector()
    ensures NodeOutput(102, [10.0, 20.0, 20.0, 40.0]) == Some(10.0)
    ensures NodeOutput(103, [10.0, 20.0, 20.0, 40.0]) == Some(40.0)
  {
    var c := [10.0, 20.0, 20.0, 40.0];
    ScanOfFour(c);
    assert c[1] < 25.0;
  }

  /** The scan of an increasing four-element input. */
  lemma ScanOfFour(s: seq<real>)
    requires |s| == 4 && s[0] == 10.0 && s[3] == 40.0
    requires 10.0 <= s[1] <= 40.0 && 10.0 <= s[2] <= 40.0
    ensures MeanOfLowestAndHighest(s) == MeanScan(25.0, 10.0, 40.0)
  {
    var r := MeanOfLowestAndHighest(s);
    assert r.smallest <= s[0] && s[0] <= r.largest;
    assert r.smallest <= 10.0 && 40.0 <= r.largest;
  }
}
