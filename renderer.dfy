/**
 * The windowing state machine of the multi-column list renderer
 * (`MCLRenderer`): which slice of the data is rendered, where it is placed,
 * when more data is requested, and how the height estimate is kept.
 *
 * React's lifecycle calls become explicit methods: the constructor,
 * `DidMount`, `ReceiveProps` (the data-length sync of
 * `componentWillReceiveProps`, after which React replaces the props),
 * `DidUpdate` (`componentDidUpdate`), and the two callbacks the source defers
 * with `requestAnimationFrame`, `InitialMeasure` and `OnTailMeasured`.
 * Heights read from the DOM are parameters.
 */
module MclRenderer {

  import opened Wrappers
  import opened Numeric
  import opened JsValues
  import opened MclColumns
  import opened MclRows

  const OverscanRows: nat := 3
  /** `amountToRender` before anything is measured. */
  const InitialAmountToRender: int := 3

  /** The props the renderer reads. */
  datatype Props = Props(
    contentData: seq<Record>,
    infinite: bool,
    height: Option<real>,
    visibleColumns: Option<seq<string>>,
    columnWidths: Option<map<string, real>>,
    formatter: Formatter,
    headerMetadata: Option<seq<string>>,
    rowMetadata: Option<seq<string>>,
    scrollToIndex: nat)

  /** `height` is truthy: given and non-zero. */
  predicate HasHeight(height: Option<real>)
  {
    height.Some? && height.value != 0.0
  }

  // ---------------------------------------------------------------------------
  // Viewport sizing

  /** What `updateDimensions` returns: the new `amountToRender` and `loading`, which is also whether it called `onFetch`. */
  datatype Dimensions = Dimensions(amountToRender: IntOrNaN, loading: bool)

  /** The average `updateDimensions` divides by: the one passed in, or the state's when that is 0 or absent. */
  function EffectiveAverage(avgHeight: real, stateAverage: real): (avg: real)
  {
    if avgHeight == 0.0 then stateAverage else avgHeight
  }

  /**
   * The number of rows wanted before clamping: all of them without a height,
   * else what fits plus the overscan on both sides. With a zero average the
   * quotient is infinite, `parseInt` of it is NaN, and so is the sum.
   */
  function RequestedAmount(height: Option<real>, dataLen: nat, avg: real, overscanRows: nat): (amount: IntOrNaN)
    ensures amount.NaN? <==> HasHeight(height) && avg == 0.0
    ensures !HasHeight(height) ==> amount == Int(dataLen)
  {
    if !HasHeight(height) then Int(dataLen)
    else if avg == 0.0 then NaN
    else Int(Trunc(height.value / avg) + 2 * overscanRows)
  }

  /**
   * `updateDimensions`: without a height every row is rendered; with one,
   * the rows that fit plus the overscan, clamped to the data. A fetch is
   * requested, and `loading` set, exactly in infinite mode when the data is
   * shorter than twice the unclamped amount. With a height but no average
   * (neither the one passed in nor the state's), the amount is NaN, which no
   * comparison clamps, and nothing is fetched.
   */
  function UpdateDimensions(height: Option<real>, dataLen: nat, avgHeight: real, stateAverage: real,
                            overscanRows: nat, infinite: bool): (d: Dimensions)
    ensures d.amountToRender.Int? ==> d.amountToRender.value <= dataLen
    ensures !HasHeight(height) ==> d.amountToRender == Int(dataLen) && (d.loading <==> infinite && dataLen > 0)
    ensures HasHeight(height) && EffectiveAverage(avgHeight, stateAverage) == 0.0 ==> d == Dimensions(NaN, false)
    ensures HasHeight(height) && height.value > 0.0 && EffectiveAverage(avgHeight, stateAverage) > 0.0 ==>
              d.amountToRender == Int(Min(dataLen, (height.value / EffectiveAverage(avgHeight, stateAverage)).Floor + 2 * overscanRows))
    ensures var requested := RequestedAmount(height, dataLen, EffectiveAverage(avgHeight, stateAverage), overscanRows);
            d.loading <==> infinite && requested.Int? && dataLen < 2 * requested.value
  {
    var avg := EffectiveAverage(avgHeight, stateAverage);
    var newAmount := RequestedAmount(height, dataLen, avg, overscanRows);
    var fetching := newAmount.Int? && dataLen < newAmount.value * 2 && infinite;
    var clamped := if newAmount.Int? && newAmount.value > dataLen then Int(dataLen) else newAmount;
    Dimensions(clamped, fetching)
  }

  /**
   * The re-size `componentDidUpdate` makes after the first measurement
   * (average passed as 0, so the state's is used) computes the same
   * dimensions as the measurement itself, so in infinite mode an initial
   * fetch is requested twice.
   */
  lemma ResizeRepeatsMeasure(height: Option<real>, dataLen: nat, avg: real, overscanRows: nat, infinite: bool)
    ensures UpdateDimensions(height, dataLen, 0.0, avg, overscanRows, infinite)
              == UpdateDimensions(height, dataLen, avg, 0.0, overscanRows, infinite)
    ensures var requested := RequestedAmount(height, dataLen, avg, overscanRows);
            (UpdateDimensions(height, dataLen, avg, 0.0, overscanRows, infinite).loading
             <==> infinite && requested.Int? && dataLen < 2 * requested.value)
  {
  }

  /**
   * With a height but no average, as after the initial measurement of a finite
   * list (which has no row container to measure), the amount becomes NaN, no
   * fetch is requested, and the render loop draws no row.
   */
  lemma UnmeasuredHeightRendersNothing(height: Option<real>, dataLen: nat, firstIndex: nat, infinite: bool)
    requires HasHeight(height)
    ensures var d := UpdateDimensions(height, dataLen, MeanHeight([]), 0.0, OverscanRows, infinite);
            && d.amountToRender.NaN? && !d.loading
            && WindowSize(firstIndex, Iterations(d.amountToRender), dataLen) == 0
  {
  }

  // ---------------------------------------------------------------------------
  // Scroll arithmetic of `handleInfiniteScroll`

  /** Below this scroll offset the view is near the top: the overscan rows' height. */
  function RowsPadding(avg: real, overscanRows: nat): (padding: real)
  {
    avg * overscanRows as real
  }

  /** The offset of the rendered block: a whole number of average rows, one row less than reaches the scroll offset, but never negative. */
  function TopSpacer(scroll: real, avg: real): (spacer: real)
    requires avg > 0.0
  {
    var raw := Ceil(scroll / avg) as real * avg - avg;
    if raw > 0.0 then raw else 0.0
  }

  /** The number of rows above the rendered block. */
  function RowsPast(scroll: real, avg: real): (rows: real)
    requires avg > 0.0
  {
    TopSpacer(scroll, avg) / avg
  }

  /** The block offset `(c - 1) * avg` for `c = ceil(scroll / avg)` lies within one row above `scroll`. */
  lemma BlockOffset(scroll: real, avg: real, c: int)
    requires avg > 0.0
    requires (c - 1) as real < scroll / avg <= c as real
    ensures (c - 1) as real * avg < scroll <= (c - 1) as real * avg + avg
  {
    var q := scroll / avg;
    assert scroll == q * avg;
    ScaleStrict((c - 1) as real, q, avg);
    assert (c as real - q) * avg >= 0.0;
  }

  /** Past the padding, the block starts `ceil(S/H) - 1` rows down, at most one row above the scroll offset. */
  lemma ScrollPosition(scroll: real, avg: real, overscanRows: nat)
    requires avg > 0.0 && scroll > RowsPadding(avg, overscanRows)
    ensures Ceil(scroll / avg) >= 1
    ensures TopSpacer(scroll, avg) == (Ceil(scroll / avg) - 1) as real * avg
    ensures RowsPast(scroll, avg) == (Ceil(scroll / avg) - 1) as real
    ensures RowsPast(scroll, avg).Floor == Ceil(scroll / avg) - 1
    ensures TopSpacer(scroll, avg) < scroll <= TopSpacer(scroll, avg) + avg
  {
    var q := scroll / avg;
    var c := Ceil(q);
    assert avg * overscanRows as real >= 0.0;
    assert q > 0.0;
    assert c >= 1;
    var raw := c as real * avg - avg;
    assert raw == (c - 1) as real * avg;
    assert raw >= 0.0;
    BlockOffset(scroll, avg, c);
    assert RowsPast(scroll, avg) == raw / avg;
  }

  /**
   * After a scroll past the padding, the rows asked for (before clamping to the
   * data) cover every row the viewport shows by the average estimate, with the
   * overscan rows to spare below it.
   */
  lemma WindowCoversViewport(scroll: real, avg: real, height: real)
    requires avg > 0.0 && height > 0.0 && scroll > RowsPadding(avg, OverscanRows)
    ensures var first := RowsPast(scroll, avg).Floor;
            var amount := RequestedAmount(Some(height), 0, avg, OverscanRows);
            && amount.Int?
            && first <= (scroll / avg).Floor
            && ((scroll + height) / avg).Floor + OverscanRows < first + amount.value
  {
    ScrollPosition(scroll, avg, OverscanRows);
    var a := scroll / avg;
    var b := height / avg;
    assert (scroll + height) / avg == a + b;
    assert Trunc(b) == b.Floor;
    assert (a + b).Floor <= a.Floor + b.Floor + 1;
    assert a.Floor <= Ceil(a);
    assert Ceil(a) - 1 <= a.Floor;
  }

  /** `onFetch` is called from a scroll when no fetch is pending and the rows past plus two render amounts overrun the data. */
  predicate FetchOnScroll(loading: bool, rowsPast: real, amountToRender: IntOrNaN, totalRows: nat)
  {
    !loading && amountToRender.Int? && rowsPast + (2 * amountToRender.value) as real > totalRows as real
  }

  /** The rendered block reaches the end of the known data. */
  predicate AtTail(rowsPast: real, amountToRender: IntOrNaN, totalRows: nat)
  {
    amountToRender.Int? && rowsPast + amountToRender.value as real >= totalRows as real
  }

  /** The columns the constructor starts with: the visible columns, else those of the first record, else none. */
  function InitialColumns(p: Props): (columns: Option<seq<string>>)
  {
    if p.visibleColumns.Some? then p.visibleColumns
    else if |p.contentData| > 0 then Some(VisibleKeys(FirstRecordKeys(p.contentData), p.headerMetadata, p.rowMetadata))
    else None
  }

  /** The columns chosen when data arrives after none: the next visible columns, else those of the new first record. */
  function ArrivalColumns(next: Props, current: Props): (columns: seq<string>)
  {
    if next.visibleColumns.Some? then next.visibleColumns.value
    else VisibleKeys(FirstRecordKeys(next.contentData), current.headerMetadata, current.rowMetadata)
  }

  /** `widths` is what `measureColumns` gives `columns` over `data`. */
  predicate MeasuredWidths(widths: map<string, real>, data: seq<Record>, columns: seq<string>,
                           columnWidths: Option<map<string, real>>, formatter: Formatter)
  {
    && Measurable(data, columns, columnWidths, formatter)
    && widths.Keys == (set c | c in columns)
    && forall c :: c in columns ==> widths[c] == ColumnWidth(c, data, columnWidths, formatter)
  }

  class MCLRenderer {
    var props: Props

    var totalRows: nat
    var contentTop: real
    var firstIndex: nat
    var amountToRender: IntOrNaN
    var scrollTop: real
    const overscanRows: nat := OverscanRows
    var loading: bool
    var columns: Option<seq<string>>
    var columnWidths: map<string, real>
    var averageRowHeight: real
    var adjustedHeight: Option<real>

    /** The sampled row heights, appended to by every measurement. */
    var rowCache: seq<nat>

    /** How many times `onFetch` has been called. */
    ghost var fetchRequests: nat

    /**
     * The state invariant: `totalRows` mirrors the data length, the offsets and
     * the average are non-negative, and whenever there is data to render every
     * column has a width.
     */
    ghost predicate Valid()
      reads this
    {
      && totalRows == |props.contentData|
      && averageRowHeight >= 0.0
      && contentTop >= 0.0
      && (adjustedHeight.Some? ==> adjustedHeight.value >= 0.0)
      && (|props.contentData| > 0 ==> columns.Some? && forall c :: c in columns.value ==> c in columnWidths)
    }

    /** The heights a measurement with the given container children appends (none without a row container). */
    ghost function Sampled(children: Option<seq<nat>>): (heights: seq<nat>)
      reads this
      requires children.Some? ==> WindowSize(firstIndex, Iterations(amountToRender), |props.contentData|) <= |children.value|
    {
      if children.None? then [] else NewRowHeights(firstIndex, Iterations(amountToRender), |props.contentData|, children.value)
    }

    /** The state set up by the constructor. */
    constructor (p: Props)
      requires |p.contentData| > 0 ==> Measurable(p.contentData, InitialColumns(p).value, p.columnWidths, p.formatter)
      ensures Valid()
      ensures props == p && totalRows == |p.contentData|
      ensures contentTop == 0.0 && firstIndex == p.scrollToIndex && amountToRender == Int(InitialAmountToRender)
      ensures scrollTop == 0.0 && !loading && averageRowHeight == 0.0 && adjustedHeight.None?
      ensures columns == InitialColumns(p)
      ensures |p.contentData| > 0 ==> MeasuredWidths(columnWidths, p.contentData, columns.value, p.columnWidths, p.formatter)
      ensures |p.contentData| == 0 ==> columnWidths == map[]
      ensures rowCache == [] && fetchRequests == 0
    {
      var cols: Option<seq<string>>;
      if p.visibleColumns.Some? {
        cols := p.visibleColumns;
      } else if |p.contentData| > 0 {
        var inferred := InitColumnsFromData(p.contentData, p.headerMetadata, p.rowMetadata);
        cols := Some(inferred);
      } else {
        cols := None;
      }
      var widths: map<string, real> := map[];
      if |p.contentData| > 0 {
        widths := MeasureColumns(p.contentData, cols.value, p.columnWidths, p.formatter);
      }
      props := p;
      totalRows := |p.contentData|;
      contentTop := 0.0;
      firstIndex := p.scrollToIndex;
      amountToRender := Int(InitialAmountToRender);
      scrollTop := 0.0;
      loading := false;
      columns := cols;
      columnWidths := widths;
      averageRowHeight := 0.0;
      adjustedHeight := None;
      rowCache := [];
      fetchRequests := 0;
    }

    /**
     * `measureNewRows`: with a row container, appends the height of each
     * rendered row, in order; the source's guard against re-measuring compares
     * with the string 'undefined' and so never skips, and a row measured twice
     * is cached twice.
     */
    method MeasureNewRows(children: Option<seq<nat>>)
      requires Valid()
      requires children.Some? ==> WindowSize(firstIndex, Iterations(amountToRender), |props.contentData|) <= |children.value|
      modifies this`rowCache
      ensures Valid()
      ensures rowCache == old(rowCache) + old(Sampled(children))
    {
      if children.None? {
        return;
      }
      var c := children.value;
      var dataLen := |props.contentData|;
      var amount := Iterations(amountToRender);
      ghost var before := rowCache;
      for i := 0 to amount
        invariant WindowSize(firstIndex, i, dataLen) <= WindowSize(firstIndex, amount, dataLen)
        invariant rowCache == before + c[..WindowSize(firstIndex, i, dataLen)]
      {
        var index := firstIndex + i;
        if index < dataLen {
          assert c[..WindowSize(firstIndex, i + 1, dataLen)] == c[..WindowSize(firstIndex, i, dataLen)] + [c[index - firstIndex]];
          rowCache := rowCache + [c[index - firstIndex]];
        }
      }
    }

    /** `backToTop`: empties the height cache and puts the window at the top, changing nothing else. */
    method BackToTop()
      requires Valid()
      modifies this`rowCache, this`firstIndex, this`contentTop
      ensures Valid()
      ensures rowCache == [] && firstIndex == 0 && contentTop == 0.0
    {
      rowCache := [];
      firstIndex := 0;
      contentTop := 0.0;
    }

    /**
     * The data-length sync of `componentWillReceiveProps`, followed by React
     * replacing the props: a change of length updates `totalRows` and clears
     * `loading`, and data arriving after none (re)derives the columns and
     * measures them, with the current props' metadata, widths and formatter.
     */
    method ReceiveProps(next: Props)
      requires Valid()
      requires |next.contentData| != |props.contentData| && |props.contentData| == 0 ==>
                 Measurable(next.contentData, ArrivalColumns(next, props), props.columnWidths, props.formatter)
      modifies this`props, this`totalRows, this`loading, this`columns, this`columnWidths
      ensures Valid()
      ensures props == next && totalRows == |next.contentData|
      ensures |next.contentData| != old(|props.contentData|) ==> !loading
      ensures |next.contentData| == old(|props.contentData|) ==> loading == old(loading)
      ensures if |next.contentData| != old(|props.contentData|) && old(|props.contentData|) == 0 then
                && columns == Some(ArrivalColumns(next, old(props)))
                && MeasuredWidths(columnWidths, next.contentData, columns.value, old(props).columnWidths, old(props).formatter)
              else columns == old(columns) && columnWidths == old(columnWidths)
    {
      if |next.contentData| != |props.contentData| {
        totalRows := |next.contentData|;
        loading := false;
        if |props.contentData| == 0 {
          var cols: seq<string>;
          if next.visibleColumns.Some? {
            cols := next.visibleColumns.value;
          } else {
            cols := InitColumnsFromData(next.contentData, props.headerMetadata, props.rowMetadata);
          }
          var widths := MeasureColumns(next.contentData, cols, props.columnWidths, props.formatter);
          columns := Some(cols);
          columnWidths := widths;
        }
      }
      props := next;
    }

    /** Applies the result of `updateDimensions`, counting the fetch it requests. */
    method ApplyDimensions(d: Dimensions)
      requires Valid()
      modifies this`amountToRender, this`loading, this`fetchRequests
      ensures Valid()
      ensures amountToRender == d.amountToRender && loading == d.loading
      ensures fetchRequests == old(fetchRequests) + (if d.loading then 1 else 0)
    {
      amountToRender := d.amountToRender;
      loading := d.loading;
      if d.loading {
        fetchRequests := fetchRequests + 1;
      }
    }

    /**
     * `componentDidMount` with data present: in infinite mode the rendered rows
     * are measured, and the average and the dimensions follow; otherwise every
     * row is rendered.
     */
    method DidMount(children: Option<seq<nat>>)
      requires Valid()
      requires children.Some? ==> WindowSize(firstIndex, Iterations(amountToRender), |props.contentData|) <= |children.value|
      modifies this`rowCache, this`averageRowHeight, this`amountToRender, this`loading, this`fetchRequests
      ensures Valid()
      ensures |props.contentData| == 0 ==> unchanged(this)
      ensures |props.contentData| > 0 && props.infinite ==>
                && rowCache == old(rowCache + Sampled(children))
                && averageRowHeight == MeanHeight(rowCache)
                && Dimensions(amountToRender, loading)
                     == UpdateDimensions(props.height, |props.contentData|, MeanHeight(rowCache), old(averageRowHeight), overscanRows, true)
                && fetchRequests == old(fetchRequests) + (if loading then 1 else 0)
      ensures |props.contentData| > 0 && !props.infinite ==>
                && amountToRender == Int(|props.contentData|)
                && rowCache == old(rowCache) && averageRowHeight == old(averageRowHeight)
                && loading == old(loading) && fetchRequests == old(fetchRequests)
    {
      var data := props.contentData;
      if |data| == 0 {
        return;
      }
      // The source derives and measures the columns here when there are none;
      // Valid() gives columns whenever there is data, so that branch never runs.
      if props.infinite {
        MeasureNewRows(children);
        var rowAvg := UpdateAverageHeight(rowCache);
        var dimensions := UpdateDimensions(props.height, |data|, rowAvg, averageRowHeight, overscanRows, props.infinite);
        averageRowHeight := rowAvg;
        ApplyDimensions(dimensions);
      } else {
        amountToRender := Int(|data|);
      }
    }

    /**
     * `componentDidUpdate`: schedules the initial measurement when the data
     * length changed to a non-zero one, and re-sizes the viewport (with the
     * state's average) when the average changed in this update.
     */
    method DidUpdate(prevDataLength: nat, prevAverage: real) returns (measureScheduled: bool)
      requires Valid()
      modifies this`amountToRender, this`loading, this`fetchRequests
      ensures Valid()
      ensures measureScheduled <==> |props.contentData| > 0 && |props.contentData| != prevDataLength
      ensures prevAverage != averageRowHeight ==>
                && Dimensions(amountToRender, loading)
                     == UpdateDimensions(props.height, |props.contentData|, 0.0, averageRowHeight, overscanRows, props.infinite)
                && fetchRequests == old(fetchRequests) + (if loading then 1 else 0)
      ensures prevAverage == averageRowHeight ==>
                amountToRender == old(amountToRender) && loading == old(loading) && fetchRequests == old(fetchRequests)
    {
      measureScheduled := |props.contentData| > 0 && |props.contentData| != prevDataLength;
      if prevAverage != averageRowHeight {
        var dimensions := UpdateDimensions(props.height, |props.contentData|, 0.0, averageRowHeight, overscanRows, props.infinite);
        ApplyDimensions(dimensions);
      }
    }

    /**
     * The frame callback `componentDidUpdate` schedules: measures the rendered
     * rows and, while no average is known, takes the average of the cache and
     * sizes the viewport with it.
     */
    method InitialMeasure(children: Option<seq<nat>>)
      requires Valid()
      requires children.Some? ==> WindowSize(firstIndex, Iterations(amountToRender), |props.contentData|) <= |children.value|
      modifies this`rowCache, this`averageRowHeight, this`amountToRender, this`loading, this`fetchRequests
      ensures Valid()
      ensures rowCache == old(rowCache + Sampled(children))
      ensures old(averageRowHeight) == 0.0 ==>
                && averageRowHeight == MeanHeight(rowCache)
                && Dimensions(amountToRender, loading)
                     == UpdateDimensions(props.height, |props.contentData|, averageRowHeight, 0.0, overscanRows, props.infinite)
                && fetchRequests == old(fetchRequests) + (if loading then 1 else 0)
      ensures old(averageRowHeight) != 0.0 ==>
                && averageRowHeight == old(averageRowHeight) && amountToRender == old(amountToRender)
                && loading == old(loading) && fetchRequests == old(fetchRequests)
    {
      MeasureNewRows(children);
      if averageRowHeight == 0.0 {
        var avg := UpdateAverageHeight(rowCache);
        var dimensions := UpdateDimensions(props.height, |props.contentData|, avg, averageRowHeight, overscanRows, props.infinite);
        averageRowHeight := avg;
        ApplyDimensions(dimensions);
      }
    }

    /**
     * The initial measurement followed by the `componentDidUpdate` that its
     * state change brings about: the average was 0 before, so when the
     * measurement yields one the re-size runs `updateDimensions` again with the
     * same result, and a fetch it requests is requested twice.
     */
    method MeasureThenResize(children: Option<seq<nat>>)
      requires Valid()
      requires averageRowHeight == 0.0
      requires children.Some? ==> WindowSize(firstIndex, Iterations(amountToRender), |props.contentData|) <= |children.value|
      modifies this`rowCache, this`averageRowHeight, this`amountToRender, this`loading, this`fetchRequests
      ensures Valid()
      ensures rowCache == old(rowCache + Sampled(children)) && averageRowHeight == MeanHeight(rowCache)
      ensures Dimensions(amountToRender, loading)
                == UpdateDimensions(props.height, |props.contentData|, averageRowHeight, 0.0, overscanRows, props.infinite)
      ensures averageRowHeight != 0.0 ==> fetchRequests == old(fetchRequests) + (if loading then 2 else 0)
      ensures averageRowHeight == 0.0 ==> fetchRequests == old(fetchRequests) + (if loading then 1 else 0)
    {
      InitialMeasure(children);
      ResizeRepeatsMeasure(props.height, |props.contentData|, averageRowHeight, overscanRows, props.infinite);
      var scheduled := DidUpdate(|props.contentData|, 0.0);
    }

    /**
     * `handleInfiniteScroll` for a new vertical offset. Past the padding the
     * block is placed by `TopSpacer`, a fetch is requested if none is pending
     * and the end is near, and at the tail a measurement is scheduled
     * (the result) while off the tail the height adjustment is dropped.
     * Scrolling up to within the padding snaps the window to the top.
     */
    method HandleInfiniteScroll(currentScroll: real) returns (tailMeasureScheduled: bool)
      requires Valid()
      requires currentScroll > RowsPadding(averageRowHeight, overscanRows) ==> averageRowHeight > 0.0
      modifies this`scrollTop, this`contentTop, this`firstIndex, this`loading, this`adjustedHeight, this`fetchRequests
      ensures Valid()
      ensures scrollTop == currentScroll
      ensures old(loading) ==> loading
      ensures old(loading) ==> fetchRequests == old(fetchRequests)
      ensures var padding := RowsPadding(averageRowHeight, overscanRows);
              if currentScroll > padding then
                var rowsPast := RowsPast(currentScroll, averageRowHeight);
                && contentTop == TopSpacer(currentScroll, averageRowHeight)
                && firstIndex == rowsPast.Floor
                && (if FetchOnScroll(old(loading), rowsPast, amountToRender, totalRows)
                    then loading && fetchRequests == old(fetchRequests) + 1
                    else loading == old(loading) && fetchRequests == old(fetchRequests))
                && tailMeasureScheduled == AtTail(rowsPast, amountToRender, totalRows)
                && adjustedHeight == (if tailMeasureScheduled then old(adjustedHeight) else None)
              else
                && !tailMeasureScheduled
                && loading == old(loading) && fetchRequests == old(fetchRequests)
                && adjustedHeight == old(adjustedHeight)
                && if currentScroll < old(scrollTop) && currentScroll < padding then
                     firstIndex == 0 && contentTop == 0.0
                   else
                     firstIndex == old(firstIndex) && contentTop == old(contentTop)
    {
      var rowsPadding := RowsPadding(averageRowHeight, overscanRows);
      var previousScroll := scrollTop;
      tailMeasureScheduled := false;
      if currentScroll > rowsPadding {
        var topSpacer := TopSpacer(currentScroll, averageRowHeight);
        contentTop := topSpacer;
        var rowsPast := RowsPast(currentScroll, averageRowHeight);
        firstIndex := rowsPast.Floor;
        if !loading && amountToRender.Int? && rowsPast + (amountToRender.value * 2) as real > totalRows as real {
          fetchRequests := fetchRequests + 1;
          loading := true;
        }
        if amountToRender.Int? && rowsPast + amountToRender.value as real >= totalRows as real {
          tailMeasureScheduled := true;
        } else if adjustedHeight.Some? {
          adjustedHeight := None;
        }
      }
      if currentScroll < previousScroll {
        if currentScroll < rowsPadding {
          firstIndex := 0;
          contentTop := 0.0;
        }
      }
      scrollTop := currentScroll;
    }

    /**
     * The frame callback scheduled at the tail: raises the height adjustment
     * to the block's offset plus its measured height, and never lowers it.
     */
    method OnTailMeasured(rowsHeight: nat)
      requires Valid()
      modifies this`adjustedHeight
      ensures Valid()
      ensures adjustedHeight.Some?
      ensures adjustedHeight.value == (if old(adjustedHeight).None? then contentTop + rowsHeight as real
                                       else MaxReal(old(adjustedHeight).value, contentTop + rowsHeight as real))
      ensures old(adjustedHeight).Some? ==> adjustedHeight.value >= old(adjustedHeight).value
    {
      var newAdjustment := contentTop + rowsHeight as real;
      if adjustedHeight.None? || newAdjustment > adjustedHeight.value {
        adjustedHeight := Some(newAdjustment);
      }
    }
  }
}
