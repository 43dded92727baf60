/**
 * calculateEstimation: how many saving periods are still needed to reach a
 * goal, with the period unit taken from the record's frequency label.
 * The displayed text "<n> <unit> Lagi" / "Tercapai!" is represented by the
 * datatype Estimation.
 */
module Estimation {

  /** The unit word: Hari, Minggu, Bulan, or the fallback Periode. */
  datatype Unit = Hari | Minggu | Bulan | Periode

  /**
   * `Math.ceil(remaining / amount)`: a whole number, or Infinity when the
   * per-period amount is zero (JavaScript divides by zero without failing).
   */
  datatype Count = Exactly(n: int) | Infinity

  datatype Estimation = Reached | Periods(count: Count, unit: Unit)

  /** The unit for a frequency label of the form: Harian, Mingguan, Bulanan, anything else. */
  function UnitOf(freq: string): Unit
  {
    if freq == "Harian" then Hari
    else if freq == "Mingguan" then Minggu
    else if freq == "Bulanan" then Bulan
    else Periode
  }

  /** The ceiling of the exact quotient `r / a`. */
  function CeilDiv(r: int, a: int): (q: int)
    requires a != 0
    ensures a > 0 ==> (q - 1) * a < r <= q * a
    ensures a < 0 ==> q * a <= r < (q - 1) * a
  {
    if a > 0 then
      var d := (-r) / a;
      assert -r == d * a + (-r) % a;
      -d
    else
      var d := r / (-a);
      assert r == d * (-a) + r % (-a);
      -d
  }

  /** calculateEstimation(remaining, amount, freq). */
  function Estimate(remaining: int, amount: int, freq: string): (e: Estimation)
    ensures e == Reached <==> remaining <= 0
    ensures e.Periods? ==> e.unit == UnitOf(freq)
    ensures e.Periods? && amount == 0 ==> e.count == Infinity
    ensures e.Periods? && amount > 0 ==>
              e.count.Exactly? && e.count.n >= 1
              && (e.count.n - 1) * amount < remaining <= e.count.n * amount
    ensures e.Periods? && amount < 0 ==> e.count.Exactly? && e.count.n <= 0
  {
    if remaining <= 0 then Reached
    else if amount == 0 then Periods(Infinity, UnitOf(freq))
    else Periods(Exactly(CeilDiv(remaining, amount)), UnitOf(freq))
  }

  /** The four unit words and the fallback, in both directions. */
  lemma UnitLabels(freq: string)
    ensures UnitOf(freq) == Hari <==> freq == "Harian"
    ensures UnitOf(freq) == Minggu <==> freq == "Mingguan"
    ensures UnitOf(freq) == Bulan <==> freq == "Bulanan"
    ensures UnitOf(freq) == Periode <==> freq != "Harian" && freq != "Mingguan" && freq != "Bulanan"
  {
  }

  /** The period count is the least number of periods whose savings cover what remains. */
  lemma EstimateIsLeast(remaining: int, amount: int, freq: string, m: int)
    requires remaining > 0 && amount > 0
    requires m * amount >= remaining
    ensures Estimate(remaining, amount, freq).count.n <= m
  {
  }

  /** Two hundred and fifty left at one hundred a week is three weeks; nothing left is reached. */
  lemma EstimateExamples()
    ensures Estimate(250, 100, "Mingguan") == Periods(Exactly(3), Minggu)
    ensures Estimate(300, 100, "Harian") == Periods(Exactly(3), Hari)
    ensures Estimate(0, 100, "Bulanan") == Reached
    ensures Estimate(1, 100, "Tahunan") == Periods(Exactly(1), Periode)
  {
  }
}
