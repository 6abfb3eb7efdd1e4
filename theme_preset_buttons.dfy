/**
 * The preset marquee of the home page (src/components/home/theme-preset-buttons.tsx): the
 * preset names dealt round-robin into three rows, each non-empty row repeated four times and
 * animated over the width of one copy, and each button labelled and marked selected.
 *
 * Colours and the animation itself are not modelled; a row is the record of its props.
 */
module ThemePresetButtons {
  import opened Common
  import opened Js

  const NumRows := 3
  const ButtonWidthPx := 160
  const GapPx := 16
  const DuplicationFactor := 4
  const BaseDurationPerItem := 5

  /** Row `r` after dealing `names` in order: name `i` goes to row `i % 3`. */
  function RowOf(names: seq<string>, r: nat): (row: seq<string>)
    requires r < NumRows
  {
    if names == [] then []
    else RowOf(names[..|names| - 1], r) + (if (|names| - 1) % NumRows == r then [names[|names| - 1]] else [])
  }

  /** The three rows of `presetsByRow`. */
  function Rows(names: seq<string>): (rows: seq<seq<string>>)
    ensures |rows| == NumRows
  {
    [RowOf(names, 0), RowOf(names, 1), RowOf(names, 2)]
  }

  /** Row `r` holds `(n + 2 - r) / 3` names: those at the indices `r`, `r + 3`, ... below `n`. */
  lemma {:induction false} RowOfSize(names: seq<string>, r: nat)
    requires r < NumRows
    ensures |RowOf(names, r)| == (|names| + 2 - r) / 3
  {
    if names != [] {
      RowOfSize(names[..|names| - 1], r);
    }
  }

  /** Row `r` holds every third name from the `r`-th, in order. */
  lemma {:induction false} RowOfIndex(names: seq<string>, r: nat)
    requires r < NumRows
    ensures forall k :: 0 <= k < |RowOf(names, r)| ==> 3 * k + r < |names| && RowOf(names, r)[k] == names[3 * k + r]
  {
    if names != [] {
      var init := names[..|names| - 1];
      RowOfIndex(init, r);
      RowOfSize(init, r);
      RowOfSize(names, r);
      forall k | 0 <= k < |RowOf(init, r)|
        ensures init[3 * k + r] == names[3 * k + r]
      {
      }
    }
  }

  /** The rows together hold every name once: their sizes add up to `n` and differ by at most one. */
  lemma RowSizes(names: seq<string>)
    ensures |RowOf(names, 0)| + |RowOf(names, 1)| + |RowOf(names, 2)| == |names|
    ensures |RowOf(names, 2)| <= |RowOf(names, 1)| <= |RowOf(names, 0)| <= |RowOf(names, 2)| + 1
  {
    RowOfSize(names, 0);
    RowOfSize(names, 1);
    RowOfSize(names, 2);
  }

  /** Name `i` is the `i / 3`-th entry of row `i % 3`. */
  lemma NamePosition(names: seq<string>, i: nat)
    requires i < |names|
    ensures i / 3 < |RowOf(names, i % 3)| && RowOf(names, i % 3)[i / 3] == names[i]
  {
    RowOfSize(names, i % 3);
    RowOfIndex(names, i % 3);
  }

  /** The `forEach` that pushes each name onto row `index % 3`. */
  method DistributeRows(names: seq<string>) returns (rows: seq<seq<string>>)
    ensures rows == Rows(names)
  {
    rows := [[], [], []];
    for i := 0 to |names|
      invariant rows == Rows(names[..i])
    {
      ghost var prefix := names[..i + 1];
      assert prefix[..|prefix| - 1] == names[..i] && prefix[|prefix| - 1] == names[i];
      rows := rows[i % NumRows := rows[i % NumRows] + [names[i]]];
      assert rows[0] == RowOf(prefix, 0);
      assert rows[1] == RowOf(prefix, 1);
      assert rows[2] == RowOf(prefix, 2);
    }
    assert names[..|names|] == names;
  }

  /** `Array(4).fill(s).flat()`: four copies of `s`, one after the other. */
  function Duplicate(s: seq<string>): (r: seq<string>)
    ensures |r| == DuplicationFactor * |s|
    ensures forall i :: 0 <= i < |s| ==>
      r[i] == s[i] && r[|s| + i] == s[i] && r[2 * |s| + i] == s[i] && r[3 * |s| + i] == s[i]
  {
    s + s + s + s
  }

  /** The props of one animated row. */
  datatype RowProps = RowProps(key: string, presets: seq<string>, numOriginalPresets: nat,
                               xFrom: int, xTo: int, duration: nat)

  /** `createRowProps(rowIndex)`: nothing for an empty row. */
  function CreateRowProps(rows: seq<seq<string>>, rowIndex: nat): (r: Option<RowProps>)
    requires rowIndex < |rows|
    ensures r.None? <==> rows[rowIndex] == []
    ensures r.Some? ==>
      var k := |rows[rowIndex]|;
      r.value.key == "row-" + Decimal(rowIndex) && r.value.numOriginalPresets == k
      && |r.value.presets| == DuplicationFactor * k
      && r.value.presets == Duplicate(rows[rowIndex])
      && r.value.xFrom == 0 && r.value.xTo == -(k * (ButtonWidthPx + GapPx))
      && r.value.duration == k * BaseDurationPerItem
  {
    var row := rows[rowIndex];
    var k := |row|;
    if k == 0 then None
    else Some(RowProps("row-" + Decimal(rowIndex), Duplicate(row), k,
                       0, 0 - k * (ButtonWidthPx + GapPx), k * BaseDurationPerItem))
  }

  /** `.filter(Boolean)`: the rows that are present, in order. */
  function Present(rows: seq<Option<RowProps>>): (r: seq<RowProps>)
    ensures |r| <= |rows|
    ensures forall x :: x in r <==> Some(x) in rows
  {
    if rows == [] then []
    else
      var rest := Present(rows[1..]);
      assert forall o :: o in rows <==> o == rows[0] || o in rows[1..];
      (if rows[0].Some? then [rows[0].value] else []) + rest
  }

  /** The component: nothing for no presets, otherwise the non-empty rows. */
  function Render(names: seq<string>): (r: Option<seq<RowProps>>)
    ensures r.None? <==> names == []
  {
    if |names| == 0 then None
    else
      var rows := Rows(names);
      Some(Present([CreateRowProps(rows, 0), CreateRowProps(rows, 1), CreateRowProps(rows, 2)]))
  }

  /** The number of buttons in a list of rows. */
  function ButtonCount(rows: seq<RowProps>): nat
  {
    if rows == [] then 0 else |rows[0].presets| + ButtonCount(rows[1..])
  }

  /** A row that may be absent, as the list `.filter(Boolean)` keeps of it. */
  function Shown(o: Option<RowProps>): seq<RowProps>
  {
    if o.Some? then [o.value] else []
  }

  /** The present rows of three optional ones. */
  lemma PresentOfThree(a: Option<RowProps>, b: Option<RowProps>, c: Option<RowProps>)
    ensures Present([a, b, c]) == Shown(a) + Shown(b) + Shown(c)
  {
    assert [a, b, c][1..] == [b, c] && [b, c][1..] == [c] && [c][1..] == [];
    assert Present([c]) == Shown(c) + Present([]);
    assert Present([b, c]) == Shown(b) + Present([c]);
    assert Present([a, b, c]) == Shown(a) + Present([b, c]);
  }

  /** The buttons of a row list are those of its first rows and of the rest. */
  lemma {:induction false} ButtonCountAppend(xs: seq<RowProps>, ys: seq<RowProps>)
    ensures ButtonCount(xs + ys) == ButtonCount(xs) + ButtonCount(ys)
  {
    if xs != [] {
      assert (xs + ys)[0] == xs[0] && (xs + ys)[1..] == xs[1..] + ys;
      ButtonCountAppend(xs[1..], ys);
    } else {
      assert xs + ys == ys;
    }
  }

  /** One dealt row on screen: shown exactly when non-empty, with four buttons per name. */
  lemma ShownRow(rows: seq<seq<string>>, i: nat)
    requires i < |rows|
    ensures |Shown(CreateRowProps(rows, i))| == (if rows[i] == [] then 0 else 1)
    ensures ButtonCount(Shown(CreateRowProps(rows, i))) == DuplicationFactor * |rows[i]|
    ensures rows[i] != [] ==> Shown(CreateRowProps(rows, i))[0].numOriginalPresets == |rows[i]|
  {
    var p := Shown(CreateRowProps(rows, i));
    if rows[i] != [] {
      assert p[1..] == [];
    }
  }

  /** The buttons of the three dealt rows together. */
  lemma RenderedButtons(names: seq<string>)
    requires names != []
    ensures ButtonCount(Render(names).value) == DuplicationFactor * |names|
  {
    RowSizes(names);
    var rows := Rows(names);
    var pa, pb, pc := Shown(CreateRowProps(rows, 0)), Shown(CreateRowProps(rows, 1)), Shown(CreateRowProps(rows, 2));
    PresentOfThree(CreateRowProps(rows, 0), CreateRowProps(rows, 1), CreateRowProps(rows, 2));
    ShownRow(rows, 0);
    ShownRow(rows, 1);
    ShownRow(rows, 2);
    ButtonCountAppend(pa, pb);
    ButtonCountAppend(pa + pb, pc);
  }

  /**
   * One row is shown per name up to three, in row order, and the rows hold four buttons per
   * name, so every preset is on screen four times.
   */
  lemma RenderedRows(names: seq<string>)
    requires names != []
    ensures |Render(names).value| == Min(|names|, NumRows)
    ensures forall i :: 0 <= i < |Render(names).value| ==> Render(names).value[i].numOriginalPresets == |RowOf(names, i)|
    ensures ButtonCount(Render(names).value) == DuplicationFactor * |names|
  {
    RowSizes(names);
    RenderedButtons(names);
    var rows := Rows(names);
    var pa, pb, pc := Shown(CreateRowProps(rows, 0)), Shown(CreateRowProps(rows, 1)), Shown(CreateRowProps(rows, 2));
    PresentOfThree(CreateRowProps(rows, 0), CreateRowProps(rows, 1), CreateRowProps(rows, 2));
    ShownRow(rows, 0);
    ShownRow(rows, 1);
    ShownRow(rows, 2);
    var shown := Render(names).value;
    assert shown == pa + pb + pc;
    assert |rows[0]| >= 1;
    assert shown[0] == pa[0];
    if |names| >= 2 {
      assert |rows[1]| >= 1;
      assert shown[1] == pb[0];
    }
    if |names| >= 3 {
      assert |rows[2]| >= 1;
      assert shown[2] == pc[0];
    }
  }

  /** `isSelected`: the button of the editor's current preset. */
  predicate IsSelected(presetName: string, currentPreset: Option<string>)
  {
    currentPreset == Some(presetName)
  }

  /**
   * In a shown row a button is marked exactly when the name it copies is the current
   * preset, so the four copies of a name are marked together.
   */
  lemma SelectedCopies(row: seq<string>, current: Option<string>)
    ensures |Duplicate(row)| == 4 * |row|
    ensures forall j :: 0 <= j < |row| ==>
      (IsSelected(Duplicate(row)[j], current) <==> current == Some(row[j]))
      && (IsSelected(Duplicate(row)[|row| + j], current) <==> current == Some(row[j]))
      && (IsSelected(Duplicate(row)[2 * |row| + j], current) <==> current == Some(row[j]))
      && (IsSelected(Duplicate(row)[3 * |row| + j], current) <==> current == Some(row[j]))
  {
  }

  /** The label: the name with every "-" turned into a space. */
  function DisplayName(presetName: string): (r: string)
    ensures |r| == |presetName| && '-' !in r
    ensures '-' !in presetName ==> r == presetName
    ensures forall i :: 0 <= i < |presetName| ==> r[i] == (if presetName[i] == '-' then ' ' else presetName[i])
  {
    var r := ReplaceAll(presetName, '-', ' ');
    assert forall i :: 0 <= i < |r| ==> r[i] != '-';
    r
  }
}
