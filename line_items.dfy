/** The list operations every line-item editor performs on its detail rows:
    append a default row, delete a row (never the last one), and replace one
    row. Each editor stores the new list with its state setter. */
module LineItems {

  /** `[...lines, line]`. */
  function AddLine<T>(lines: seq<T>, line: T): (r: seq<T>)
    ensures |r| == |lines| + 1
    ensures r[..|lines|] == lines && r[|lines|] == line
  {
    lines + [line]
  }

  /** `if (lines.length === 1) return; const c = [...lines]; c.splice(index, 1)`:
      with more than one row, row `index` goes and the others keep their order;
      a lone row is never deleted, and an index past the end deletes nothing. */
  function RemoveLine<T>(lines: seq<T>, index: nat): (r: seq<T>)
    ensures |lines| == 1 || index >= |lines| ==> r == lines
    ensures |lines| != 1 && index < |lines| ==>
      |r| == |lines| - 1 &&
      (forall k :: 0 <= k < index ==> r[k] == lines[k]) &&
      (forall k :: index <= k < |r| ==> r[k] == lines[k + 1])
    ensures |lines| >= 1 ==> |r| >= 1
  {
    if |lines| == 1 || index >= |lines| then lines
    else lines[..index] + lines[index + 1..]
  }

  /** `const c = [...lines]; c[index] = line`: row `index` is replaced and no
      other row changes. */
  function UpdateLine<T>(lines: seq<T>, index: nat, line: T): (r: seq<T>)
    requires index < |lines|
    ensures |r| == |lines| && r[index] == line
    ensures forall k :: 0 <= k < |lines| && k != index ==> r[k] == lines[k]
  {
    lines[index := line]
  }

  /** Deleting a row removes exactly that row's value from the rows' multiset. */
  lemma RemoveLineMultiset<T>(lines: seq<T>, index: nat)
    requires |lines| != 1 && index < |lines|
    ensures multiset(RemoveLine(lines, index)) + multiset{lines[index]} == multiset(lines)
  {
    assert lines == lines[..index] + [lines[index]] + lines[index + 1..];
  }

  /** A row list split around row `index`, before and after replacing it. */
  lemma UpdateLineSplit<T>(lines: seq<T>, index: nat, line: T)
    requires index < |lines|
    ensures lines == lines[..index] + [lines[index]] + lines[index + 1..]
    ensures UpdateLine(lines, index, line) == lines[..index] + [line] + lines[index + 1..]
  {
  }

  /** Adding a row and then deleting it again gives back the original rows. */
  lemma RemoveAddedLine<T>(lines: seq<T>, line: T)
    requires |lines| >= 1
    ensures RemoveLine(AddLine(lines, line), |lines|) == lines
  {
    assert AddLine(lines, line)[..|lines|] == lines;
  }
}
