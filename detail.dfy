/**
 * What openDetail shows for one record: its figures, the clamped remaining
 * amount, the estimation and the history with the newest entry first.
 */
module Detail {
  import opened Records
  import opened Estimation
  import opened Listing

  /** Shown in place of a record that has no image. */
  const Placeholder := "https://via.placeholder.com/400x200?text=No+Image"

  /** `Math.max(0, goal - collected)`. */
  function Remaining(goal: int, collected: int): (r: int)
    ensures r >= 0 && r >= goal - collected
    ensures r == 0 || r == goal - collected
  {
    if goal - collected > 0 then goal - collected else 0
  }

  /** Nothing remains exactly for the records listed on the complete tab. */
  lemma RemainingZeroIffComplete(r: Record)
    ensures Remaining(r.goal, r.collected) == 0 <==> IsComplete(r)
  {
  }

  /**
   * The home cards estimate from the unclamped `goal - collected`, the detail
   * view from the clamped remaining amount; both give the same estimation,
   * and it is "reached" exactly for complete records.
   */
  lemma CardAndDetailEstimationsAgree(r: Record)
    ensures Estimate(r.goal - r.collected, r.savingAmount, r.frequency)
         == Estimate(Remaining(r.goal, r.collected), r.savingAmount, r.frequency)
    ensures Estimate(r.goal - r.collected, r.savingAmount, r.frequency) == Reached <==> IsComplete(r)
  {
  }

  /** `[...history].reverse()`. */
  function NewestFirst(h: seq<HistoryEntry>): (v: seq<HistoryEntry>)
    ensures |v| == |h|
    ensures forall i :: 0 <= i < |h| ==> v[i] == h[|h| - 1 - i]
  {
    if h == [] then [] else [h[|h| - 1]] + NewestFirst(h[..|h| - 1])
  }

  /** A transaction just recorded appears at the top of the history view. */
  lemma NewestFirstAppend(h: seq<HistoryEntry>, e: HistoryEntry)
    ensures NewestFirst(h + [e]) == [e] + NewestFirst(h)
  {
  }

  /** Reversing the view gives back the log in the order it was written. */
  lemma NewestFirstInvolution(h: seq<HistoryEntry>)
    ensures NewestFirst(NewestFirst(h)) == h
  {
  }

  /** The figures of the detail view. */
  datatype DetailView = DetailView(
    title: string,
    image: string,
    goal: int,
    savingAmount: int,
    frequency: string,
    createdDate: string,
    collected: int,
    remaining: int,
    estimation: Estimation,
    reminderOn: bool,
    history: seq<HistoryEntry>)

  function DetailOf(r: Record): (d: DetailView)
    ensures d.title == r.name && d.goal == r.goal && d.savingAmount == r.savingAmount
    ensures d.frequency == r.frequency && d.createdDate == r.createdDate
    ensures d.collected == r.collected && d.reminderOn == r.reminderOn
    ensures d.image == (if r.image == "" then Placeholder else r.image) && d.image != ""
    ensures d.remaining == Remaining(r.goal, r.collected)
    ensures d.remaining >= 0 && d.remaining >= r.goal - r.collected
    ensures d.estimation == Estimate(d.remaining, r.savingAmount, r.frequency)
    ensures d.estimation == Reached <==> IsComplete(r)
    ensures |d.history| == |r.history|
    ensures forall i :: 0 <= i < |r.history| ==> d.history[i] == r.history[|r.history| - 1 - i]
  {
    DetailView(
      r.name,
      if r.image == "" then Placeholder else r.image,
      r.goal, r.savingAmount, r.frequency, r.createdDate, r.collected,
      Remaining(r.goal, r.collected),
      Estimate(Remaining(r.goal, r.collected), r.savingAmount, r.frequency),
      r.reminderOn,
      NewestFirst(r.history))
  }
}
