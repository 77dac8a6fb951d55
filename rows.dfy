/**
 * Row logic of the multi-column list: the running average of sampled row
 * heights, the window of rows that is rendered, the heights a measurement
 * appends to the cache, and the selection test of a row.
 */
module MclRows {

  import opened Wrappers
  import opened Numeric
  import opened JsValues

  // ---------------------------------------------------------------------------
  // Average row height

  /**
   * The average row height: the mean of the cached heights, and 0 (the
   * "not yet measured" value) when they sum to 0, which includes an empty cache.
   */
  function MeanHeight(rowCache: seq<nat>): (avg: real)
  {
    if Sum(rowCache) > 0 then Sum(rowCache) as real / |rowCache| as real else 0.0
  }

  /** `updateAverageHeight`: sums the cache and divides by its length unless the sum is 0. */
  method UpdateAverageHeight(rowCache: seq<nat>) returns (avg: real)
    ensures avg == MeanHeight(rowCache)
  {
    var sum: nat := 0;
    for i := 0 to |rowCache|
      invariant sum == Sum(rowCache[..i])
    {
      assert rowCache[..i + 1][..i] == rowCache[..i];
      sum := sum + rowCache[i];
    }
    assert rowCache[..|rowCache|] == rowCache;
    avg := if sum > 0 then sum as real / |rowCache| as real else 0.0;
  }

  /**
   * The average is 0 exactly when every cached height is 0 (or there is none);
   * otherwise it times the number of samples gives their sum.
   */
  lemma MeanHeightZero(rowCache: seq<nat>)
    ensures MeanHeight(rowCache) >= 0.0
    ensures MeanHeight(rowCache) == 0.0 <==> forall i :: 0 <= i < |rowCache| ==> rowCache[i] == 0
    ensures MeanHeight(rowCache) > 0.0 ==> MeanHeight(rowCache) * |rowCache| as real == Sum(rowCache) as real
  {
    SumZero(rowCache);
  }

  /** The average of heights that all lie in `[lo, hi]` lies in `[lo, hi]`. */
  lemma MeanHeightBounds(rowCache: seq<nat>, lo: nat, hi: nat)
    requires |rowCache| > 0
    requires forall i :: 0 <= i < |rowCache| ==> lo <= rowCache[i] <= hi
    ensures lo as real <= MeanHeight(rowCache) <= hi as real
  {
    SumBounds(rowCache, lo, hi);
    var n := |rowCache| as real;
    var total := Sum(rowCache) as real;
    assert n * lo as real <= total <= n * hi as real;
    if Sum(rowCache) > 0 {
      QuotientBounds(total, n, lo as real, hi as real);
    } else {
      SumZero(rowCache);
      assert rowCache[0] == 0;
    }
  }

  // ---------------------------------------------------------------------------
  // The rendered window

  /** How many of the rows `firstIndex .. firstIndex + amountToRender - 1` exist in data of length `dataLen`. */
  function WindowSize(firstIndex: nat, amountToRender: int, dataLen: nat): (size: nat)
  {
    if amountToRender <= 0 || firstIndex >= dataLen then 0 else Min(amountToRender, dataLen - firstIndex)
  }

  /**
   * The rows `render` materialises: the indices `firstIndex + i` for
   * `i < amountToRender` that exist in the data, which is the contiguous
   * range starting at `firstIndex`.
   */
  method RenderedRows(firstIndex: nat, amountToRender: int, dataLen: nat) returns (rows: seq<nat>)
    ensures |rows| == WindowSize(firstIndex, amountToRender, dataLen)
    ensures forall j :: 0 <= j < |rows| ==> rows[j] == firstIndex + j
    ensures forall r :: r in rows <==> firstIndex <= r < firstIndex + amountToRender && r < dataLen
  {
    rows := [];
    for i := 0 to if amountToRender > 0 then amountToRender else 0
      invariant |rows| == WindowSize(firstIndex, i, dataLen)
      invariant forall j :: 0 <= j < |rows| ==> rows[j] == firstIndex + j
    {
      var rowIndex := firstIndex + i;
      if rowIndex < dataLen {
        rows := rows + [rowIndex];
      }
    }
    forall r | firstIndex <= r < firstIndex + amountToRender && r < dataLen
      ensures r in rows
    {
      assert rows[r - firstIndex] == r;
    }
  }

  /** The heights `measureNewRows` appends: one per rendered row, from the container's children in order. */
  function NewRowHeights(firstIndex: nat, amountToRender: int, dataLen: nat, children: seq<nat>): (heights: seq<nat>)
    requires WindowSize(firstIndex, amountToRender, dataLen) <= |children|
  {
    children[..WindowSize(firstIndex, amountToRender, dataLen)]
  }

  // ---------------------------------------------------------------------------
  // Selection

  /**
   * The comparison of one criterion with a row's field: strict equality for a
   * primitive and lodash's deep equality when the criterion is an object
   * (`typeof` gives 'object', `null` included).
   */
  predicate SameValue(expected: Value, actual: Value)
  {
    if IsObject(expected) then DeepEqual(expected, actual) else expected == actual
  }

  /** Every key of the criteria has the same value in the row. */
  predicate MatchesAll(criteria: Record, row: Record)
  {
    forall k :: k in criteria.keys ==> SameValue(Get(criteria, k), Get(row, k))
  }

  /**
   * `maybeSelected`: a row is selected exactly when criteria are given, have at
   * least one key, and every key's value equals the row's value for that key.
   */
  method MaybeSelected(criteria: Option<Record>, row: Record) returns (selected: bool)
    ensures selected <==> criteria.Some? && |criteria.value.keys| > 0 && MatchesAll(criteria.value, row)
  {
    if criteria.None? {
      return false;
    }
    var c := criteria.value;
    selected := |c.keys| > 0;
    var k := 0;
    while k < |c.keys|
      invariant 0 <= k <= |c.keys|
      invariant selected <==> |c.keys| > 0 && forall j :: 0 <= j < k ==> SameValue(Get(c, c.keys[j]), Get(row, c.keys[j]))
    {
      var prop := c.keys[k];
      if !IsObject(Get(c, prop)) {
        if Get(c, prop) != Get(row, prop) {
          selected := false;
          break;
        }
      } else {
        if !DeepEqual(Get(c, prop), Get(row, prop)) {
          selected := false;
          break;
        }
      }
      k := k + 1;
    }
  }

  /**
   * Objects compare by their contents: criteria `{u: {a: 1}}` do not select a
   * row `{u: {b: 2}}`, although both objects print as the same text.
   */
  lemma ObjectsCompareByContent()
    ensures var plain := "[object Object]";
            var criteria := Record(["u"], map["u" := Obj(map["a" := Num(1)], plain)]);
            var row := Record(["u"], map["u" := Obj(map["b" := Num(2)], plain)]);
            !MatchesAll(criteria, row)
  {
    var plain := "[object Object]";
    var criteria := Record(["u"], map["u" := Obj(map["a" := Num(1)], plain)]);
    var row := Record(["u"], map["u" := Obj(map["b" := Num(2)], plain)]);
    assert "a" !in Get(row, "u").content.Keys;
    assert "u" in criteria.keys;
  }
}
