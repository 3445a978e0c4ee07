/**
 * The ward heat map of the inventory report (src/pages/InventoryReport.tsx): each ward's
 * share of inventoried households, in percent, picks a red, amber or emerald dot and badge.
 */
module InventoryReport {
  import opened Types
  import opened JsNumbers

  /** `(ward.inventoried / ward.affected) * 100`. */
  function Progress(inventoried: nat, affected: nat): Num
  {
    Mul(Div(FromInt(inventoried), FromInt(affected)), FromInt(100))
  }

  /** The dot: red below 50, amber below 80, emerald otherwise (including NaN and the infinities). */
  function DotClass(progress: Num): string
  {
    if Less(progress, Finite(50.0)) then "bg-red-500"
    else if Less(progress, Finite(80.0)) then "bg-amber-500"
    else "bg-emerald-500"
  }

  /** The badge beside the ward's figures, under the same two tests. */
  function BadgeClass(progress: Num): string
  {
    if Less(progress, Finite(50.0)) then "bg-red-100 text-red-700"
    else if Less(progress, Finite(80.0)) then "bg-amber-100 text-amber-700"
    else "bg-emerald-100 text-emerald-700"
  }

  function DotColor(t: Tone): string
  {
    match t
    case Red => "bg-red-500"
    case Amber => "bg-amber-500"
    case _ => "bg-emerald-500"
  }

  function BadgeColor(t: Tone): string
  {
    match t
    case Red => "bg-red-100 text-red-700"
    case Amber => "bg-amber-100 text-amber-700"
    case _ => "bg-emerald-100 text-emerald-700"
  }

  /**
   * The tier in whole numbers: a ward with no affected household is emerald; otherwise red
   * when fewer than half are inventoried, emerald from four fifths on, amber between.
   */
  function CountTier(inventoried: nat, affected: nat): Tone
  {
    if affected == 0 then Emerald
    else if 2 * inventoried < affected then Red
    else if 5 * inventoried < 4 * affected then Amber
    else Emerald
  }

  /** For a positive `y`, `x / y * 100 < bound` exactly when `100 * x < bound * y`. */
  lemma PercentBelow(x: real, y: real, bound: real)
    requires y > 0.0
    ensures x / y * 100.0 < bound <==> 100.0 * x < bound * y
  {
    var q := x / y;
    assert q * y == x;
    if q * 100.0 < bound {
      assert q * 100.0 * y < bound * y;
    }
    if 100.0 * x < bound * y {
      assert (q * 100.0) * y < bound * y;
    }
  }

  /** The float progress and the whole-number tier agree: both the dot and the badge show `CountTier`. */
  lemma DotAndBadgeShowTier(inventoried: nat, affected: nat)
    ensures DotClass(Progress(inventoried, affected)) == DotColor(CountTier(inventoried, affected))
    ensures BadgeClass(Progress(inventoried, affected)) == BadgeColor(CountTier(inventoried, affected))
  {
    if affected > 0 {
      var x, y := inventoried as real, affected as real;
      PercentBelow(x, y, 50.0);
      PercentBelow(x, y, 80.0);
      assert Progress(inventoried, affected) == Finite(x / y * 100.0);
    }
  }

  /** A ward with no affected household is emerald: 0 / 0 is NaN and n / 0 is Infinity, and neither is below 50 or 80. */
  lemma NoAffectedIsEmerald(inventoried: nat)
    ensures DotClass(Progress(inventoried, 0)) == "bg-emerald-500"
    ensures BadgeClass(Progress(inventoried, 0)) == "bg-emerald-100 text-emerald-700"
  {
    DotAndBadgeShowTier(inventoried, 0);
  }

  /** For a fixed number of affected households, inventorying more never gives a worse tier. */
  lemma CountTierMonotone(inventoried: nat, more: nat, affected: nat)
    requires inventoried <= more
    ensures Rank(CountTier(inventoried, affected)) <= Rank(CountTier(more, affected))
    ensures CountTier(inventoried, affected) in {Red, Amber, Emerald}
  {
  }
}
