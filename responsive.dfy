/** `hooks/useResponsive.js`: the number of grid columns for a window width
    and the device-class predicates. Widths are real numbers of points. */
module Responsive {

  /** `UI_CONSTANTS.MIN_PRODUCT_WIDTH`, `MIN_COLUMNS` and `MAX_COLUMNS`. */
  const MinProductWidth := 150.0
  const MinColumns := 1
  const MaxColumns := 3

  /** `Math.max(MIN_COLUMNS, Math.min(Math.floor(width / MIN_PRODUCT_WIDTH), MAX_COLUMNS))`. */
  function NumColumns(width: real): (n: int)
    ensures MinColumns <= n <= MaxColumns
    ensures MinColumns <= (width / MinProductWidth).Floor <= MaxColumns ==> n == (width / MinProductWidth).Floor
  {
    var calculated := (width / MinProductWidth).Floor;
    var capped := if calculated < MaxColumns then calculated else MaxColumns;
    if MinColumns < capped then capped else MinColumns
  }

  /** The column count by width band: one column below 300 points, two below
      450, three from 450 on. */
  lemma NumColumnsBands(width: real)
    ensures width < 300.0 ==> NumColumns(width) == 1
    ensures 300.0 <= width < 450.0 ==> NumColumns(width) == 2
    ensures 450.0 <= width ==> NumColumns(width) == 3
  {
    var f := (width / MinProductWidth).Floor;
    assert f as real <= width / 150.0 < f as real + 1.0;
    if width < 300.0 {
      assert f < 2;
    } else if width < 450.0 {
      assert 2 <= f < 3;
    } else {
      assert 3 <= f;
    }
  }

  /** `isSmallDevice`: narrower than 375 points, which leaves room for at most
      two columns. */
  predicate IsSmallDevice(width: real): (b: bool)
    ensures b ==> NumColumns(width) <= 2
  {
    NumColumnsBands(width);
    width < 375.0
  }

  /** `isTablet`: at least 768 points wide, which always shows the most columns. */
  predicate IsTablet(width: real): (b: bool)
    ensures b ==> NumColumns(width) == MaxColumns
  {
    NumColumnsBands(width);
    width >= 768.0
  }

  /** `isLandscape`: wider than tall, so the grid never has fewer columns than
      it would across the height. */
  predicate IsLandscape(width: real, height: real): (b: bool)
    ensures b ==> NumColumns(width) >= NumColumns(height)
  {
    NumColumnsBands(width);
    NumColumnsBands(height);
    width > height
  }

  /** `isCompact`: narrower than 400 points, at most two columns. */
  predicate IsCompact(width: real): (b: bool)
    ensures b ==> NumColumns(width) <= 2
  {
    NumColumnsBands(width);
    width < 400.0
  }

  /** A small device is never a tablet, and is always compact. */
  lemma DeviceClasses(width: real)
    ensures !(IsSmallDevice(width) && IsTablet(width))
    ensures IsSmallDevice(width) ==> IsCompact(width)
  {
  }
}
