/** One row of the sales export the dashboard loads once at start-up. The
    order date arrives already split into year, month, day, quarter and
    season columns. */
module Sales {

  /** A sales-order line. `amount` is the order value in cents, kept exact;
      `qty` is the ordered quantity, never missing. */
  datatype Record = Record(
    year: int,          // Order_Year
    month: string,      // Order_Month
    day: string,        // Order_Day
    quarter: string,    // quarter
    season: string,     // season
    sku: string,        // SKU
    category: string,   // Category
    size: string,       // Size
    style: string,      // Style
    state: string,      // ship-state
    qty: nat,           // Qty
    amount: int)        // Amount

  // Column accessors, passed to the group-by and sum operations as the
  // grouping key or the measure.
  function YearOf(r: Record): int { r.year }
  function MonthOf(r: Record): string { r.month }
  function DayOf(r: Record): string { r.day }
  function QuarterOf(r: Record): string { r.quarter }
  function SkuOf(r: Record): string { r.sku }
  function CategoryOf(r: Record): string { r.category }
  function SizeOf(r: Record): string { r.size }
  function StyleOf(r: Record): string { r.style }
  function StateOf(r: Record): string { r.state }
  function YearMonthDayOf(r: Record): (int, string, string) { (r.year, r.month, r.day) }
  function QtyOf(r: Record): int { r.qty }
  function AmountOf(r: Record): int { r.amount }
  /** The measure that `value_counts()` sums: one per row. */
  function One(r: Record): int { 1 }
}
