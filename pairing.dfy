/**
 * The sample-test pairer: input lines are grouped by the index N of their
 * `test-example-line-N` class (groups kept in first-encounter order, index 0
 * ignored), output blocks are trimmed, split into lines and concatenated,
 * and the k-th group is paired with the k-th output line.
 */
module Pairing {
  import opened Wrappers
  import opened Text
  import opened Page

  /** One sample test, as the scraper returns it. */
  datatype SampleTest = SampleTest(input: string, output: string)

  /** A line kept for grouping: its nonzero test index and its trimmed text. */
  datatype InputLine = InputLine(index: nat, text: string)

  const OutputPlaceholder := "Output not found"

  /** The test index a line element contributes to: its class index, unless absent or 0. */
  function TestIndex(div: LineElement): (r: Option<nat>)
    ensures r.Some? <==> LineIndex(div.className).Some? && LineIndex(div.className).value != 0
    ensures r.Some? ==> r.value != 0 && r == LineIndex(div.className)
  {
    match LineIndex(div.className)
    case Some(n) => if n == 0 then None else Some(n)
    case None => None
  }

  /** What one line element adds to the grouping: nothing, or its line. */
  function LineOf(div: LineElement): seq<InputLine> {
    match TestIndex(div)
    case Some(n) => [InputLine(n, Trim(div.text))]
    case None => []
  }

  /** The kept lines of one input block, in document order. */
  function BlockLines(divs: seq<LineElement>): (r: seq<InputLine>)
    ensures forall k :: 0 <= k < |r| ==> r[k].index != 0
  {
    if |divs| == 0 then [] else BlockLines(divs[..|divs| - 1]) + LineOf(divs[|divs| - 1])
  }

  /** The kept lines of all input blocks, in document order. */
  function InputLines(blocks: seq<seq<LineElement>>): (r: seq<InputLine>)
    ensures forall k :: 0 <= k < |r| ==> r[k].index != 0
  {
    if |blocks| == 0 then [] else InputLines(blocks[..|blocks| - 1]) + BlockLines(blocks[|blocks| - 1])
  }

  /** Every kept line of a block is the trimmed text of one of its elements, under that element's test index. */
  lemma {:induction false} BlockLinesFrom(divs: seq<LineElement>, q: nat)
    requires q < |BlockLines(divs)|
    ensures exists j :: 0 <= j < |divs| && TestIndex(divs[j]) == Some(BlockLines(divs)[q].index)
                                       && BlockLines(divs)[q].text == Trim(divs[j].text)
  {
    var init, last := divs[..|divs| - 1], divs[|divs| - 1];
    if q < |BlockLines(init)| {
      BlockLinesFrom(init, q);
      var j :| 0 <= j < |init| && TestIndex(init[j]) == Some(BlockLines(init)[q].index)
                               && BlockLines(init)[q].text == Trim(init[j].text);
      assert divs[j] == init[j];
    } else {
      assert BlockLines(divs)[q] == LineOf(last)[0];
      assert divs[|divs| - 1] == last;
    }
  }

  /**
   * Every kept line is the trimmed text of some line element of some block,
   * under that element's nonzero test index; so no kept text has white
   * space at either end.
   */
  lemma {:induction false} InputLinesFrom(blocks: seq<seq<LineElement>>, q: nat)
    requires q < |InputLines(blocks)|
    ensures exists b, j :: 0 <= b < |blocks| && 0 <= j < |blocks[b]|
                           && TestIndex(blocks[b][j]) == Some(InputLines(blocks)[q].index)
                           && InputLines(blocks)[q].text == Trim(blocks[b][j].text)
    ensures Trimmed(InputLines(blocks)[q].text)
  {
    var init, last := blocks[..|blocks| - 1], blocks[|blocks| - 1];
    var line := InputLines(blocks)[q];
    if q < |InputLines(init)| {
      InputLinesFrom(init, q);
      var b, j :| 0 <= b < |init| && 0 <= j < |init[b]|
                  && TestIndex(init[b][j]) == Some(InputLines(init)[q].index)
                  && InputLines(init)[q].text == Trim(init[b][j].text);
      assert blocks[b] == init[b];
      TrimProperties(blocks[b][j].text);
    } else {
      var q' := q - |InputLines(init)|;
      assert line == BlockLines(last)[q'];
      BlockLinesFrom(last, q');
      var j :| 0 <= j < |last| && TestIndex(last[j]) == Some(BlockLines(last)[q'].index)
               && BlockLines(last)[q'].text == Trim(last[j].text);
      assert blocks[|blocks| - 1][j] == last[j];
      TrimProperties(last[j].text);
    }
  }

  /** The keys of the grouping map in insertion order: each index where it first occurs. */
  function GroupOrder(lines: seq<InputLine>): seq<nat> {
    if |lines| == 0 then []
    else
      var order := GroupOrder(lines[..|lines| - 1]);
      var k := lines[|lines| - 1].index;
      if k in order then order else order + [k]
  }

  /** The texts of the lines with index `k`, in document order. */
  function GroupLines(lines: seq<InputLine>, k: nat): seq<string> {
    if |lines| == 0 then []
    else
      var last := lines[|lines| - 1];
      GroupLines(lines[..|lines| - 1], k) + (if last.index == k then [last.text] else [])
  }

  /** The flat output line list: every block trimmed, split on "\n", concatenated in block order. */
  function OutputLines(blocks: seq<string>): (r: seq<string>)
    ensures forall k :: 0 <= k < |r| ==> '\n' !in r[k]
  {
    if |blocks| == 0 then [] else OutputLines(blocks[..|blocks| - 1]) + Split(Trim(blocks[|blocks| - 1]))
  }

  /** `outputArray[k] || "Output not found"`. */
  function ExpectedOutput(outs: seq<string>, k: nat): string {
    if k < |outs| && outs[k] != "" then outs[k] else OutputPlaceholder
  }

  /** Positional alignment of input groups with output lines. */
  function Align(groups: seq<seq<string>>, outs: seq<string>): (r: seq<SampleTest>)
    ensures |r| == |groups|
    ensures forall k :: 0 <= k < |r| ==> r[k].input == Join(groups[k])
    ensures forall k :: 0 <= k < |r| && k < |outs| && outs[k] != "" ==> r[k].output == outs[k]
    ensures forall k :: 0 <= k < |r| && (k >= |outs| || outs[k] == "") ==> r[k].output == OutputPlaceholder
  {
    seq(|groups|, k requires 0 <= k < |groups| => SampleTest(Join(groups[k]), ExpectedOutput(outs, k)))
  }

  /** The input groups in insertion order. */
  function Groups(lines: seq<InputLine>): (r: seq<seq<string>>)
    ensures |r| == |GroupOrder(lines)|
    ensures forall i :: 0 <= i < |r| ==> r[i] == GroupLines(lines, GroupOrder(lines)[i])
  {
    var order := GroupOrder(lines);
    seq(|order|, i requires 0 <= i < |order| => GroupLines(lines, order[i]))
  }

  /** The sample tests of a region, as the pairer computes them. */
  function PairedTests(region: SampleTestsRegion): seq<SampleTest> {
    Align(Groups(InputLines(region.inputs)), OutputLines(region.outputs))
  }

  // ---------------------------------------------------------------------
  // What the grouping and the alignment promise.
  // ---------------------------------------------------------------------

  /** An index is a key exactly when some kept line carries it. */
  lemma {:induction false} GroupOrderMembers(lines: seq<InputLine>, k: nat)
    ensures k in GroupOrder(lines) <==> exists p :: 0 <= p < |lines| && lines[p].index == k
  {
    if |lines| > 0 {
      var init := lines[..|lines| - 1];
      GroupOrderMembers(init, k);
      if exists p :: 0 <= p < |lines| && lines[p].index == k {
        var p :| 0 <= p < |lines| && lines[p].index == k;
        if p < |init| {
          assert init[p].index == k;
        }
      }
      if exists p :: 0 <= p < |init| && init[p].index == k {
        var p :| 0 <= p < |init| && init[p].index == k;
        assert lines[p].index == k;
      }
    }
  }

  /** No index is a key twice: one group per index. */
  lemma {:induction false} GroupOrderDistinct(lines: seq<InputLine>)
    ensures forall i, j :: 0 <= i < j < |GroupOrder(lines)| ==> GroupOrder(lines)[i] != GroupOrder(lines)[j]
  {
    if |lines| > 0 {
      GroupOrderDistinct(lines[..|lines| - 1]);
    }
  }

  /**
   * Keys come in order of first occurrence: wherever the j-th key occurs,
   * the i-th key (i < j) has occurred earlier.
   */
  lemma {:induction false} GroupOrderFirstOccurrence(lines: seq<InputLine>, i: nat, j: nat, p: nat)
    requires i < j < |GroupOrder(lines)|
    requires p < |lines| && lines[p].index == GroupOrder(lines)[j]
    ensures exists q :: 0 <= q < p && lines[q].index == GroupOrder(lines)[i]
  {
    var init := lines[..|lines| - 1];
    var order := GroupOrder(init);
    if j < |order| {
      if p < |init| {
        GroupOrderFirstOccurrence(init, i, j, p);
        var q :| 0 <= q < p && init[q].index == order[i];
        assert lines[q] == init[q];
      } else {
        // the last line repeats a key already present, so it occurred earlier too
        GroupOrderMembers(init, order[j]);
        var p' :| 0 <= p' < |init| && init[p'].index == order[j];
        GroupOrderFirstOccurrence(init, i, j, p');
        var q :| 0 <= q < p' && init[q].index == order[i];
        assert lines[q] == init[q];
      }
    } else {
      // the j-th key is new with the last line: it occurs nowhere before
      assert GroupOrder(lines)[j] == lines[|lines| - 1].index && lines[|lines| - 1].index !in order;
      if p < |init| {
        assert init[p] == lines[p];
        GroupOrderMembers(init, lines[p].index);
        assert false;
      }
      GroupOrderMembers(init, order[i]);
      var q :| 0 <= q < |init| && init[q].index == order[i];
      assert lines[q] == init[q];
    }
  }

  /** The indices the kept lines carry. */
  function Keys(lines: seq<InputLine>): set<nat> {
    set l | l in lines :: l.index
  }

  lemma KeysAppend(a: seq<InputLine>, b: seq<InputLine>)
    ensures Keys(a + b) == Keys(a) + Keys(b)
  {
    assert forall l :: l in a + b <==> l in a || l in b;
  }

  /** The nonzero indices that the line elements of one block carry. */
  function DivIndices(divs: seq<LineElement>): set<nat> {
    set div | div in divs && TestIndex(div).Some? :: TestIndex(div).value
  }

  /** The distinct nonzero indices carried by the line elements of all input blocks. */
  function SeenIndices(blocks: seq<seq<LineElement>>): set<nat> {
    set divs, div | divs in blocks && div in divs && TestIndex(div).Some? :: TestIndex(div).value
  }

  lemma KeysOfLine(div: LineElement)
    ensures Keys(LineOf(div)) == DivIndices([div])
  {
    var t := TestIndex(div);
    var indices := DivIndices([div]);
    forall x ensures x in indices <==> t.Some? && x == t.value {
      assert div in [div];
    }
    if t.Some? {
      var l := InputLine(t.value, Trim(div.text));
      assert LineOf(div) == [l];
      assert l in [l];
      assert forall x :: x in Keys([l]) <==> x == t.value;
    } else {
      assert LineOf(div) == [];
    }
  }

  lemma DivIndicesAppend(a: seq<LineElement>, b: seq<LineElement>)
    ensures DivIndices(a + b) == DivIndices(a) + DivIndices(b)
  {
    assert forall div :: div in a + b <==> div in a || div in b;
  }

  lemma SeenIndicesAppend(a: seq<seq<LineElement>>, divs: seq<LineElement>)
    ensures SeenIndices(a + [divs]) == SeenIndices(a) + DivIndices(divs)
  {
    assert forall x :: x in a + [divs] <==> x in a || x == divs;
  }

  /** A block's kept lines carry exactly the nonzero indices of its line elements. */
  lemma {:induction false} BlockKeys(divs: seq<LineElement>)
    ensures Keys(BlockLines(divs)) == DivIndices(divs)
  {
    if |divs| > 0 {
      var init := divs[..|divs| - 1];
      var last := divs[|divs| - 1];
      BlockKeys(init);
      KeysAppend(BlockLines(init), LineOf(last));
      KeysOfLine(last);
      assert divs == init + [last];
      DivIndicesAppend(init, [last]);
    }
  }

  /** All kept lines carry exactly the nonzero indices of all line elements. */
  lemma {:induction false} InputKeys(blocks: seq<seq<LineElement>>)
    ensures Keys(InputLines(blocks)) == SeenIndices(blocks)
  {
    if |blocks| > 0 {
      var init := blocks[..|blocks| - 1];
      var last := blocks[|blocks| - 1];
      InputKeys(init);
      BlockKeys(last);
      KeysAppend(InputLines(init), BlockLines(last));
      assert blocks == init + [last];
      SeenIndicesAppend(init, last);
    }
  }

  /**
   * The tests are keyed by exactly the distinct nonzero indices seen: a
   * test per index, none for index 0 or for a class without the pattern.
   */
  lemma TestKeysAreSeenIndices(blocks: seq<seq<LineElement>>)
    ensures Elements(GroupOrder(InputLines(blocks))) == SeenIndices(blocks)
    ensures 0 !in GroupOrder(InputLines(blocks))
  {
    var lines := InputLines(blocks);
    InputKeys(blocks);
    forall k ensures k in GroupOrder(lines) <==> k in Keys(lines) {
      GroupOrderMembers(lines, k);
      if k in Keys(lines) {
        var l :| l in lines && l.index == k;
      }
    }
    GroupOrderMembers(lines, 0);
  }

  /** The set of a sequence's elements. */
  function Elements(s: seq<nat>): set<nat> {
    set x | x in s
  }

  lemma {:induction false} DistinctCount(s: seq<nat>)
    requires forall i, j :: 0 <= i < j < |s| ==> s[i] != s[j]
    ensures |Elements(s)| == |s|
  {
    if |s| > 0 {
      var init := s[..|s| - 1];
      var last := s[|s| - 1];
      DistinctCount(init);
      assert s == init + [last];
      assert Elements(s) == Elements(init) + {last};
    } else {
      assert Elements(s) == {};
    }
  }

  /** The number of tests is the number of distinct nonzero indices seen. */
  lemma TestCount(region: SampleTestsRegion)
    ensures |PairedTests(region)| == |SeenIndices(region.inputs)|
  {
    var order := GroupOrder(InputLines(region.inputs));
    TestKeysAreSeenIndices(region.inputs);
    GroupOrderDistinct(InputLines(region.inputs));
    DistinctCount(order);
  }

  /** Every test has at least one input line: the k-th test's input joins the lines of the k-th key. */
  lemma TestInputs(region: SampleTestsRegion, k: nat)
    requires k < |PairedTests(region)|
    ensures var lines := InputLines(region.inputs);
            var group := GroupLines(lines, GroupOrder(lines)[k]);
            |group| >= 1 && PairedTests(region)[k].input == Join(group)
  {
    var lines := InputLines(region.inputs);
    GroupLinesEmpty(lines, GroupOrder(lines)[k]);
  }

  /** Every block trimmed, one entry per block. */
  function TrimAll(blocks: seq<string>): (r: seq<string>)
    ensures |r| == |blocks|
    ensures forall b :: 0 <= b < |blocks| ==> r[b] == Trim(blocks[b])
  {
    if |blocks| == 0 then [] else TrimAll(blocks[..|blocks| - 1]) + [Trim(blocks[|blocks| - 1])]
  }

  /**
   * When every output block is one line, outputs align block by block:
   * the flat output list is the trimmed blocks, the k-th line being the
   * k-th block's trimmed text.
   */
  lemma {:induction false} OneLineOutputs(blocks: seq<string>)
    requires forall b :: 0 <= b < |blocks| ==> '\n' !in Trim(blocks[b])
    ensures OutputLines(blocks) == TrimAll(blocks)
  {
    if |blocks| > 0 {
      var init := blocks[..|blocks| - 1];
      assert forall b :: 0 <= b < |init| ==> '\n' !in Trim(init[b]) by {
        forall b | 0 <= b < |init| ensures init[b] == blocks[b] { }
      }
      OneLineOutputs(init);
      SplitSingle(Trim(blocks[|blocks| - 1]));
    }
  }

  /** Each output block yields at least one line, so there are at least as many output lines as blocks. */
  lemma {:induction false} OutputLinesCount(blocks: seq<string>)
    ensures |OutputLines(blocks)| >= |blocks|
  {
    if |blocks| > 0 {
      OutputLinesCount(blocks[..|blocks| - 1]);
    }
  }

  // ---------------------------------------------------------------------
  // The pairer as the scraper runs it: loops filling a map and two lists.
  // ---------------------------------------------------------------------

  /** Appending a line extends the key order only with an index not seen before. */
  lemma GroupOrderStep(lines: seq<InputLine>, line: InputLine)
    ensures GroupOrder(lines + [line]) ==
            if line.index in GroupOrder(lines) then GroupOrder(lines) else GroupOrder(lines) + [line.index]
  {
    assert (lines + [line])[..|lines|] == lines;
  }

  /** Appending a line extends its own group only. */
  lemma GroupLinesStep(lines: seq<InputLine>, line: InputLine, k: nat)
    ensures GroupLines(lines + [line], k) == GroupLines(lines, k) + (if line.index == k then [line.text] else [])
  {
    assert (lines + [line])[..|lines|] == lines;
  }

  /** The grouping map is in step with the lines seen so far. */
  ghost predicate GroupedAs(inputMap: map<nat, seq<string>>, keys: seq<nat>, seen: seq<InputLine>) {
    && keys == GroupOrder(seen)
    && (forall k :: k in inputMap <==> k in keys)
    && (forall k :: k in inputMap ==> inputMap[k] == GroupLines(seen, k))
  }

  /** The map after `inputMap.get(index).push(text)`, the group created first if missing. */
  function Pushed(inputMap: map<nat, seq<string>>, line: InputLine): map<nat, seq<string>> {
    var group := if line.index in inputMap then inputMap[line.index] else [];
    inputMap[line.index := group + [line.text]]
  }

  lemma PushKeepsGrouping(inputMap: map<nat, seq<string>>, keys: seq<nat>, seen: seq<InputLine>, line: InputLine)
    requires GroupedAs(inputMap, keys, seen)
    ensures GroupedAs(Pushed(inputMap, line), if line.index in inputMap then keys else keys + [line.index], seen + [line])
  {
    var m := Pushed(inputMap, line);
    GroupOrderStep(seen, line);
    forall k | k in m
      ensures m[k] == GroupLines(seen + [line], k)
    {
      GroupLinesStep(seen, line, k);
      if k == line.index && k !in inputMap {
        GroupLinesEmpty(seen, k);
      }
    }
  }

  /** An index has lines exactly when it is one of the map's keys. */
  lemma {:induction false} GroupLinesEmpty(lines: seq<InputLine>, k: nat)
    ensures GroupLines(lines, k) == [] <==> k !in GroupOrder(lines)
  {
    if |lines| > 0 {
      GroupLinesEmpty(lines[..|lines| - 1], k);
    }
  }

  /** Taking one more line element of a block appends that element's line to the lines seen. */
  lemma BlockLinesStep(seen: seq<InputLine>, divs: seq<LineElement>, d: nat)
    requires d < |divs|
    ensures seen + BlockLines(divs[..d + 1]) == (seen + BlockLines(divs[..d])) + LineOf(divs[d])
  {
    assert divs[..d + 1][..d] == divs[..d];
  }

  /** Creating the group of a new index and then pushing onto it is `Pushed`. */
  lemma CreateThenPushIsPushed(inputMap: map<nat, seq<string>>, line: InputLine)
    ensures var created := if line.index in inputMap then inputMap else inputMap[line.index := []];
            created[line.index := created[line.index] + [line.text]] == Pushed(inputMap, line)
  {
  }

  /** A line element with a nonzero index adds its trimmed line. */
  lemma KeepLine(div: LineElement, index: nat)
    requires LineIndex(div.className) == Some(index) && index != 0
    ensures LineOf(div) == [InputLine(index, Trim(div.text))]
  {
  }

  /** A line element without a nonzero index adds nothing. */
  lemma SkipLine(seen: seq<InputLine>, div: LineElement)
    requires LineIndex(div.className).None? || LineIndex(div.className).value == 0
    ensures seen + LineOf(div) == seen
  {
    assert LineOf(div) == [];
  }

  /** One step of the inner `forEach`: a line element with a nonzero index is pushed onto its group. */
  method GroupDiv(div: LineElement, inputMap0: map<nat, seq<string>>, keys0: seq<nat>, ghost seen: seq<InputLine>)
    returns (inputMap: map<nat, seq<string>>, keys: seq<nat>)
    requires GroupedAs(inputMap0, keys0, seen)
    ensures GroupedAs(inputMap, keys, seen + LineOf(div))
  {
    inputMap, keys := inputMap0, keys0;
    var m := LineIndex(div.className);
    if m.Some? && m.value != 0 {
      var index := m.value;
      var text := Trim(div.text);
      ghost var line := InputLine(index, text);
      KeepLine(div, index);
      CreateThenPushIsPushed(inputMap0, line);
      PushKeepsGrouping(inputMap0, keys0, seen, line);
      if index !in inputMap {
        inputMap := inputMap[index := []];
        keys := keys + [index];
      }
      inputMap := inputMap[index := inputMap[index] + [text]];
    } else {
      SkipLine(seen, div);
    }
  }

  /** The inner `forEach` over one input block's `div`s. */
  method GroupBlock(divs: seq<LineElement>, inputMap0: map<nat, seq<string>>, keys0: seq<nat>, ghost seen: seq<InputLine>)
    returns (inputMap: map<nat, seq<string>>, keys: seq<nat>)
    requires GroupedAs(inputMap0, keys0, seen)
    ensures GroupedAs(inputMap, keys, seen + BlockLines(divs))
  {
    inputMap, keys := inputMap0, keys0;
    var d := 0;
    assert seen + BlockLines(divs[..0]) == seen;
    while d < |divs|
      invariant 0 <= d <= |divs|
      invariant GroupedAs(inputMap, keys, seen + BlockLines(divs[..d]))
    {
      BlockLinesStep(seen, divs, d);
      inputMap, keys := GroupDiv(divs[d], inputMap, keys, seen + BlockLines(divs[..d]));
      d := d + 1;
    }
    assert divs[..d] == divs;
  }

  /** The outer `forEach` over the input blocks: builds the grouping map and its key order. */
  method GroupInputs(blocks: seq<seq<LineElement>>) returns (inputMap: map<nat, seq<string>>, keys: seq<nat>)
    ensures keys == GroupOrder(InputLines(blocks))
    ensures forall k :: k in inputMap <==> k in keys
    ensures forall k :: k in inputMap ==> inputMap[k] == GroupLines(InputLines(blocks), k)
  {
    inputMap, keys := map[], [];
    var b := 0;
    while b < |blocks|
      invariant 0 <= b <= |blocks|
      invariant GroupedAs(inputMap, keys, InputLines(blocks[..b]))
    {
      assert blocks[..b + 1][..b] == blocks[..b];
      inputMap, keys := GroupBlock(blocks[b], inputMap, keys, InputLines(blocks[..b]));
      b := b + 1;
    }
    assert blocks[..b] == blocks;
  }

  /** The `forEach` over the output blocks: the flat output line list. */
  method CollectOutputs(blocks: seq<string>) returns (outputArray: seq<string>)
    ensures outputArray == OutputLines(blocks)
  {
    outputArray := [];
    var o := 0;
    while o < |blocks|
      invariant 0 <= o <= |blocks|
      invariant outputArray == OutputLines(blocks[..o])
    {
      assert blocks[..o + 1][..o] == blocks[..o];
      outputArray := outputArray + Split(Trim(blocks[o]));
      o := o + 1;
    }
    assert blocks[..o] == blocks;
  }

  /** Aligning one more group appends that group's test. */
  lemma AlignStep(groups: seq<seq<string>>, outs: seq<string>, i: nat)
    requires i < |groups|
    ensures Align(groups[..i + 1], outs) == Align(groups[..i], outs) + [SampleTest(Join(groups[i]), ExpectedOutput(outs, i))]
  {
    var next := Align(groups[..i + 1], outs);
    var prev := Align(groups[..i], outs);
    forall k | 0 <= k < i ensures next[k] == prev[k] {
      assert groups[..i + 1][k] == groups[..i][k];
    }
  }

  /** Runs the pairer: groups inputs, collects outputs, aligns them; the result is exactly PairedTests. */
  method PairSampleTests(region: SampleTestsRegion) returns (tests: seq<SampleTest>)
    ensures tests == PairedTests(region)
  {
    var inputMap, keys := GroupInputs(region.inputs);
    var outputArray := CollectOutputs(region.outputs);
    ghost var groups := Groups(InputLines(region.inputs));

    tests := [];
    var outputIndex := 0;
    while outputIndex < |keys|
      invariant 0 <= outputIndex <= |keys|
      invariant tests == Align(groups[..outputIndex], outputArray)
    {
      var expected := if outputIndex < |outputArray| && outputArray[outputIndex] != "" then outputArray[outputIndex] else OutputPlaceholder;
      assert inputMap[keys[outputIndex]] == groups[outputIndex];
      AlignStep(groups, outputArray, outputIndex);
      tests := tests + [SampleTest(Join(inputMap[keys[outputIndex]]), expected)];
      outputIndex := outputIndex + 1;
    }
    assert groups[..outputIndex] == groups;
  }
}
