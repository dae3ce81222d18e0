/** Default write-buffer limits (`add_flowcontrol_defaults`), computed in C ints. */
module FlowControl {
  import opened Wrappers

  datatype Limits = Limits(high: int, low: int) | BadLimits

  const FLOW_CONTROL_HIGH_WATER := 64
  const FLOW_CONTROL_HIGH_WATER_SSL_WRITE := 512
  const FLOW_CONTROL_HIGH_WATER_SSL_READ := 256

  predicate IsCInt(x: int) {
    -0x8000_0000 <= x < 0x8000_0000
  }

  /** Two's complement wrap-around of a C int. */
  function Wrap(x: int): (r: int)
    ensures IsCInt(r) && (r - x) % 0x1_0000_0000 == 0
  {
    (x + 0x8000_0000) % 0x1_0000_0000 - 0x8000_0000
  }

  /** The limits for given or defaulted arguments; BadLimits stands for the
      exceptions: a Python int that does not fit a C int, or limits out of order. */
  function AddFlowcontrolDefaults(high: Option<int>, low: Option<int>, kb: int): (r: Limits)
    requires 0 <= kb <= 0x1F_FFFF
    ensures r.Limits? ==> 0 <= r.low <= r.high < 0x8000_0000
    ensures r.Limits? && high.Some? ==> r.high == high.value
    ensures r.Limits? && low.Some? ==> r.low == low.value
    ensures high.None? && low.None? ==> r == Limits(kb * 1024, kb * 256)
    ensures high.Some? && low.Some? ==>
              (r.Limits? <==> 0 <= low.value <= high.value < 0x8000_0000)
    ensures high.Some? && low.None? ==> (r.Limits? <==> 0 <= high.value < 0x8000_0000)
    ensures r.Limits? && low.None? ==> 4 * r.low <= r.high < 4 * r.low + 4
  {
    if (high.Some? && !IsCInt(high.value)) || (low.Some? && !IsCInt(low.value)) then BadLimits
    else
      var h := match high
               case Some(v) => v
               case None => if low.None? then kb * 1024 else Wrap(4 * low.value);
      // Floor division by a positive constant: Dafny's `/` agrees with Python's `//`.
      var l := match low case Some(v) => v case None => h / 4;
      if h >= l && l >= 0 then Limits(h, l) else BadLimits
  }

  /** A low limit given alone is accepted exactly when four times it, wrapped to
      a C int, is not below it; the documented factor of four then holds iff
      the product did not wrap. */
  lemma LowAlone(low: int, kb: int)
    requires 0 <= kb <= 0x1F_FFFF
    ensures var r := AddFlowcontrolDefaults(None, Some(low), kb);
            && (r.Limits? <==> 0 <= low < 0x2000_0000 || 0x5555_5556 <= low < 0x6000_0000)
            && (r.Limits? ==> r.high == if low < 0x2000_0000 then 4 * low else 4 * low - 0x1_0000_0000)
  {
  }
}
