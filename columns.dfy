/**
 * Column logic of the multi-column list: the columns inferred from the first
 * record, the width estimate of each column, the header row (its widths and
 * sort flags) and the column-name mapping.
 */
module MclColumns {

  import opened Wrappers
  import opened Numeric
  import opened JsValues

  /** The `formatter` prop: a function per column name, applied to the whole row. */
  type Formatter = map<string, Record -> Value>

  const CellPadding: nat := 28
  const CharWidth: nat := 9
  /** The character length assumed for a formatter result that is not a string, number or boolean. */
  const MinimalCharLength: nat := 25
  const BooleanCharLength: nat := 3
  /** Extra width of the last header cell over the last body cell. */
  const LastHeaderAllowance: nat := 16

  // ---------------------------------------------------------------------------
  // Inferring the columns from the data

  /** `list.indexOf(name) !== -1` for an optional list. */
  predicate Listed(list: Option<seq<string>>, name: string)
  {
    list.Some? && name in list.value
  }

  /** A key named by `headerMetadata` or `rowMetadata` is hidden by default. */
  predicate IsMetadata(name: string, headerMetadata: Option<seq<string>>, rowMetadata: Option<seq<string>>)
  {
    Listed(headerMetadata, name) || Listed(rowMetadata, name)
  }

  /** The keys of `keys` that are not metadata, in order. */
  function VisibleKeys(keys: seq<string>, headerMetadata: Option<seq<string>>, rowMetadata: Option<seq<string>>): (visible: seq<string>)
  {
    if keys == [] then []
    else
      var last := keys[|keys| - 1];
      VisibleKeys(keys[..|keys| - 1], headerMetadata, rowMetadata)
        + (if IsMetadata(last, headerMetadata, rowMetadata) then [] else [last])
  }

  /** Both directions: a name is a visible key exactly when it is a key and not metadata. */
  lemma {:induction false} VisibleKeysMembers(keys: seq<string>, headerMetadata: Option<seq<string>>, rowMetadata: Option<seq<string>>)
    ensures |VisibleKeys(keys, headerMetadata, rowMetadata)| <= |keys|
    ensures forall h :: h in VisibleKeys(keys, headerMetadata, rowMetadata) <==> h in keys && !IsMetadata(h, headerMetadata, rowMetadata)
  {
    if keys != [] {
      var init := keys[..|keys| - 1];
      VisibleKeysMembers(init, headerMetadata, rowMetadata);
      assert keys == init + [keys[|keys| - 1]];
    }
  }

  /** The keys of the first record (`for..in` over `data[0]`, which is `undefined` for no data). */
  function FirstRecordKeys(data: seq<Record>): (keys: seq<string>)
  {
    if |data| == 0 then [] else data[0].keys
  }

  /** `initColumnsFromData`: the first record's keys in order, without the metadata names. */
  method InitColumnsFromData(data: seq<Record>, headerMetadata: Option<seq<string>>, rowMetadata: Option<seq<string>>)
    returns (columns: seq<string>)
    ensures columns == VisibleKeys(FirstRecordKeys(data), headerMetadata, rowMetadata)
    ensures forall h :: h in columns <==> |data| > 0 && h in data[0].keys && !IsMetadata(h, headerMetadata, rowMetadata)
  {
    var keys := FirstRecordKeys(data);
    columns := [];
    for k := 0 to |keys|
      invariant columns == VisibleKeys(keys[..k], headerMetadata, rowMetadata)
    {
      var header := keys[k];
      assert keys[..k + 1][..k] == keys[..k];
      if !Listed(headerMetadata, header) && !Listed(rowMetadata, header) {
        columns := columns + [header];
      }
    }
    assert keys[..|keys|] == keys;
    VisibleKeysMembers(keys, headerMetadata, rowMetadata);
  }

  // ---------------------------------------------------------------------------
  // Measuring the columns

  /** The width of a column's header label (its `.length` times 9, plus 28), the least width an estimated column gets. */
  function HeaderWidth(colName: string): (w: real)
  {
    (Utf16Length(colName) * CharWidth + CellPadding) as real
  }

  /** The row can be measured for the column: a formatter applies, or the raw value has `toString()`. */
  predicate RowMeasurable(colName: string, row: Record, formatter: Formatter)
  {
    colName in formatter || HasToString(Get(row, colName))
  }

  /**
   * The character length (`.length`, in UTF-16 code units) of one row's cell
   * in the column: of the formatter's string, of the decimal form of its
   * number (sign and digits), 3 for its boolean and 25 for anything else; of
   * the value's `toString()` without a formatter.
   */
  function CharLength(colName: string, row: Record, formatter: Formatter): (len: nat)
    requires RowMeasurable(colName, row, formatter)
    ensures colName in formatter && formatter[colName](row).Str? ==>
              var text := formatter[colName](row).str;
              |text| <= len <= 2 * |text| && (len == |text| <==> forall i :: 0 <= i < |text| ==> text[i] as int <= 0xFFFF)
    ensures colName in formatter && formatter[colName](row).Num? ==>
              var v := formatter[colName](row).num;
              var digits := len - (if v < 0 then 1 else 0);
              digits >= 1 && Abs(v) < Pow10(digits) && (digits > 1 ==> Pow10(digits - 1) <= Abs(v))
    ensures colName in formatter && formatter[colName](row).Bool? ==> len == BooleanCharLength
    ensures colName in formatter && !formatter[colName](row).Str? && !formatter[colName](row).Num? && !formatter[colName](row).Bool? ==>
              len == MinimalCharLength
    ensures colName !in formatter ==>
              var text := ToJsString(Get(row, colName));
              |text| <= len <= 2 * |text| && (len == |text| <==> forall i :: 0 <= i < |text| ==> text[i] as int <= 0xFFFF)
  {
    if colName in formatter then
      match formatter[colName](row)
      case Str(s) => Utf16LengthBounds(s); Utf16Length(s)
      case Num(n) => DecimalUtf16Length(n); DecimalRoundTrip(n); NatDigitsRoundTrip(Abs(n)); Utf16Length(DecimalString(n))
      case Bool(_) => BooleanCharLength
      case _ => MinimalCharLength
    else
      var text := ToJsString(Get(row, colName));
      Utf16LengthBounds(text);
      Utf16Length(text)
  }

  predicate ColumnMeasurable(colName: string, data: seq<Record>, formatter: Formatter)
  {
    forall i :: 0 <= i < |data| ==> RowMeasurable(colName, data[i], formatter)
  }

  function CharLengths(colName: string, data: seq<Record>, formatter: Formatter): (lengths: seq<nat>)
    requires ColumnMeasurable(colName, data, formatter)
  {
    seq(|data|, i requires 0 <= i < |data| => CharLength(colName, data[i], formatter))
  }

  /**
   * The estimated width of a column: the mean character length times the
   * character width plus the cell padding, but never below the header's own
   * width; the header width alone when there is no data.
   */
  function EstimatedWidth(colName: string, data: seq<Record>, formatter: Formatter): (w: real)
    requires ColumnMeasurable(colName, data, formatter)
  {
    if |data| == 0 then HeaderWidth(colName)
    else
      var avg := Sum(CharLengths(colName, data, formatter)) as real / |data| as real;
      MaxReal(avg * CharWidth as real + CellPadding as real, HeaderWidth(colName))
  }

  /** The `columnWidths` prop pins the column's width. */
  predicate HasExplicitWidth(colName: string, columnWidths: Option<map<string, real>>)
  {
    columnWidths.Some? && colName in columnWidths.value
  }

  /** Every column that is estimated can be measured on every row. */
  predicate Measurable(data: seq<Record>, columns: seq<string>, columnWidths: Option<map<string, real>>, formatter: Formatter)
  {
    forall c :: c in columns && !HasExplicitWidth(c, columnWidths) ==> ColumnMeasurable(c, data, formatter)
  }

  /** The width `measureColumns` gives one column. */
  function ColumnWidth(colName: string, data: seq<Record>, columnWidths: Option<map<string, real>>, formatter: Formatter): (w: real)
    requires HasExplicitWidth(colName, columnWidths) || ColumnMeasurable(colName, data, formatter)
  {
    if HasExplicitWidth(colName, columnWidths) then columnWidths.value[colName]
    else EstimatedWidth(colName, data, formatter)
  }

  /** The estimate of one column: the body of the `forEach` over the columns that have no pinned width. */
  method MeasureColumn(colName: string, data: seq<Record>, formatter: Formatter) returns (width: real)
    requires ColumnMeasurable(colName, data, formatter)
    ensures width == EstimatedWidth(colName, data, formatter)
  {
    var charLengthArray: seq<nat> := [];
    var headerWidth := HeaderWidth(colName);
    for i := 0 to |data|
      invariant |charLengthArray| == i
      invariant forall j :: 0 <= j < i ==> charLengthArray[j] == CharLength(colName, data[j], formatter)
    {
      var row := data[i];
      var charLength: nat := MinimalCharLength;
      if colName in formatter {
        var res := formatter[colName](row);
        if res.Str? {
          charLength := Utf16Length(res.str);
        } else if res.Num? {
          charLength := Utf16Length(DecimalString(res.num));
        } else if res.Bool? {
          charLength := BooleanCharLength;
        }
      } else {
        charLength := Utf16Length(ToJsString(Get(row, colName)));
      }
      charLengthArray := charLengthArray + [charLength];
    }
    assert charLengthArray == CharLengths(colName, data, formatter);
    var sum: nat := 0;
    for j := 0 to |charLengthArray|
      invariant sum == Sum(charLengthArray[..j])
    {
      assert charLengthArray[..j + 1][..j] == charLengthArray[..j];
      sum := sum + charLengthArray[j];
    }
    assert charLengthArray[..|charLengthArray|] == charLengthArray;
    if sum != 0 || |charLengthArray| != 0 {
      var avg := sum as real / |charLengthArray| as real;
      width := avg * CharWidth as real + CellPadding as real;
      if width < headerWidth {
        width := headerWidth;
      }
    } else {
      width := headerWidth;
    }
  }

  /**
   * `measureColumns`: an entry for exactly the given columns; a pinned column
   * keeps the `columnWidths` value verbatim, any other gets its estimate.
   */
  method MeasureColumns(data: seq<Record>, columns: seq<string>, columnWidths: Option<map<string, real>>, formatter: Formatter)
    returns (cellWidths: map<string, real>)
    requires Measurable(data, columns, columnWidths, formatter)
    ensures cellWidths.Keys == set c | c in columns
    ensures forall c :: c in columns ==> cellWidths[c] == ColumnWidth(c, data, columnWidths, formatter)
  {
    cellWidths := map[];
    for k := 0 to |columns|
      invariant cellWidths.Keys == set c | c in columns[..k]
      invariant forall c :: c in columns[..k] ==> cellWidths[c] == ColumnWidth(c, data, columnWidths, formatter)
    {
      var colName := columns[k];
      assert columns[..k + 1] == columns[..k] + [colName];
      if HasExplicitWidth(colName, columnWidths) {
        cellWidths := cellWidths[colName := columnWidths.value[colName]];
      } else {
        var width := MeasureColumn(colName, data, formatter);
        cellWidths := cellWidths[colName := width];
      }
    }
    assert columns[..|columns|] == columns;
  }

  /** An estimated column is never narrower than its header; with no data it is exactly the header width. */
  lemma EstimatedWidthAtLeastHeader(colName: string, data: seq<Record>, formatter: Formatter)
    requires ColumnMeasurable(colName, data, formatter)
    ensures EstimatedWidth(colName, data, formatter) >= HeaderWidth(colName)
    ensures |data| == 0 ==> EstimatedWidth(colName, data, formatter) == HeaderWidth(colName)
  {
  }

  /** When every row of a column has character length `len`, the estimate is `max(len * 9 + 28, header width)`. */
  lemma UniformColumnWidth(colName: string, data: seq<Record>, formatter: Formatter, len: nat)
    requires |data| > 0
    requires ColumnMeasurable(colName, data, formatter)
    requires forall i :: 0 <= i < |data| ==> CharLength(colName, data[i], formatter) == len
    ensures EstimatedWidth(colName, data, formatter)
              == MaxReal((len * CharWidth + CellPadding) as real, HeaderWidth(colName))
  {
    var lengths := CharLengths(colName, data, formatter);
    assert forall i :: 0 <= i < |lengths| ==> lengths[i] == len;
    MeanOfUniform(lengths, len);
    var avg := Sum(lengths) as real / |data| as real;
    assert avg * CharWidth as real + CellPadding as real == (len * CharWidth + CellPadding) as real;
  }

  // ---------------------------------------------------------------------------
  // The header row

  /** `getMappedColumnName`: the `columnMapping` alias of a column, or the column itself. */
  function MappedColumnName(column: string, columnMapping: Option<map<string, string>>): (name: string)
    ensures columnMapping.Some? && column in columnMapping.value ==> name == columnMapping.value[column]
    ensures columnMapping.None? || column !in columnMapping.value ==> name == column
  {
    if columnMapping.None? then column
    else if column in columnMapping.value then columnMapping.value[column]
    else column
  }

  /** The sort and direction flags of a header cell, and its label and width. */
  datatype Header = Header(name: string, width: real, sorted: bool, ascending: bool, descending: bool)

  /** The widths of the body cells of a row, column by column. */
  function CellWidths(columns: seq<string>, widths: map<string, real>): (cells: seq<real>)
    requires forall c :: c in columns ==> c in widths
  {
    seq(|columns|, i requires 0 <= i < |columns| => widths[columns[i]])
  }

  /** The width of header cell `i`: the column's width, plus the allowance on the last column. */
  function HeaderCellWidth(columns: seq<string>, widths: map<string, real>, i: nat): (w: real)
    requires i < |columns| && forall c :: c in columns ==> c in widths
  {
    if i != |columns| - 1 then widths[columns[i]] else widths[columns[i]] + LastHeaderAllowance as real
  }

  function RealSum(s: seq<real>): (total: real)
  {
    if s == [] then 0.0 else RealSum(s[..|s| - 1]) + s[|s| - 1]
  }

  /**
   * `generateHeaders`: one header per column, in column order, named after the
   * column name, as wide as the column except that the last one is 16 wider, and
   * marked sorted when `sortOrder` or `sortedColumn` names the mapped column.
   */
  method GenerateHeaders(columns: seq<string>, widths: map<string, real>, columnMapping: Option<map<string, string>>,
                         sortOrder: Option<string>, sortedColumn: Option<string>, sortDirection: Option<string>)
    returns (headers: seq<Header>)
    requires forall c :: c in columns ==> c in widths
    ensures |headers| == |columns|
    ensures forall i :: 0 <= i < |columns| ==> headers[i].name == columns[i]
    ensures forall i :: 0 <= i < |columns| - 1 ==> headers[i].width == widths[columns[i]]
    ensures |columns| > 0 ==> headers[|columns| - 1].width == widths[columns[|columns| - 1]] + LastHeaderAllowance as real
    ensures forall i :: 0 <= i < |columns| ==>
              (headers[i].sorted <==> (sortOrder == Some(MappedColumnName(columns[i], columnMapping))
                                       || sortedColumn == Some(MappedColumnName(columns[i], columnMapping))))
    ensures forall i :: 0 <= i < |columns| ==>
              (headers[i].ascending <==> sortDirection == Some("ascending"))
              && (headers[i].descending <==> sortDirection == Some("descending"))
  {
    headers := [];
    for i := 0 to |columns|
      invariant |headers| == i
      invariant forall j :: 0 <= j < i ==> headers[j].name == columns[j] && headers[j].width == HeaderCellWidth(columns, widths, j)
      invariant forall j :: 0 <= j < i ==>
                  (headers[j].sorted <==> (sortOrder == Some(MappedColumnName(columns[j], columnMapping))
                                           || sortedColumn == Some(MappedColumnName(columns[j], columnMapping))))
                  && (headers[j].ascending <==> sortDirection == Some("ascending"))
                  && (headers[j].descending <==> sortDirection == Some("descending"))
    {
      var header := columns[i];
      var headerWidth: real;
      if i != |columns| - 1 {
        headerWidth := widths[header];
      } else {
        headerWidth := widths[header] + LastHeaderAllowance as real;
      }
      var mapped := MappedColumnName(header, columnMapping);
      var sorted := sortOrder == Some(mapped) || sortedColumn == Some(mapped);
      headers := headers + [Header(header, headerWidth, sorted, sortDirection == Some("ascending"), sortDirection == Some("descending"))];
    }
  }

  function HeaderWidths(headers: seq<Header>): (ws: seq<real>)
  {
    seq(|headers|, i requires 0 <= i < |headers| => headers[i].width)
  }

  /** A header row is exactly the allowance wider than the body row below it. */
  lemma HeaderRowWidth(columns: seq<string>, widths: map<string, real>, headers: seq<Header>)
    requires |columns| > 0 && forall c :: c in columns ==> c in widths
    requires |headers| == |columns|
    requires forall i :: 0 <= i < |columns| ==> headers[i].width == HeaderCellWidth(columns, widths, i)
    ensures RealSum(HeaderWidths(headers)) == RealSum(CellWidths(columns, widths)) + LastHeaderAllowance as real
  {
    var n := |columns|;
    var hw := HeaderWidths(headers);
    var cw := CellWidths(columns, widths);
    assert hw[..n - 1] == cw[..n - 1];
  }
}
