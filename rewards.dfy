/**
 * The two reward tables of the scene: the bonus paid for a run of
 * consecutive wins, and the refund of a room's entry fee.
 */
module Rewards {
  import opened Wrappers

  /** The win streaks that earn a bonus, and the bonus for each. */
  const BonusTable: map<int, nat> := map[3 := 50, 5 := 100, 10 := 300]

  /** The rooms with an entry fee, and the refund for each. */
  const RefundTable: map<string, nat> :=
    map["Silver Room" := 50, "Gold Room" := 100, "Platinum Room" := 200, "Diamond Room" := 500]

  /** `calcBonus`: an if/else-if chain over the streak length. */
  function CalcBonus(wins: int): (r: nat)
    ensures r > 0 <==> wins in BonusTable
    ensures r in {0, 50, 100, 300}
  {
    if wins == 3 then 50
    else if wins == 5 then 100
    else if wins == 10 then 300
    else 0
  }

  /** `calcRefundAmount`: a switch over the room name; no case leaves the amount undefined. */
  function CalcRefundAmount(roomName: string): (r: Option<nat>)
    ensures r.Some? <==> roomName in RefundTable
    ensures r.Some? ==> r.value > 0
  {
    if roomName == "Silver Room" then Some(50)
    else if roomName == "Gold Room" then Some(100)
    else if roomName == "Platinum Room" then Some(200)
    else if roomName == "Diamond Room" then Some(500)
    else None
  }

  /** The chain agrees with the table: a listed streak gets its entry, any other streak nothing. */
  lemma CalcBonusMatchesTable(wins: int)
    ensures CalcBonus(wins) == if wins in BonusTable then BonusTable[wins] else 0
  {
  }

  /** A longer rewarded streak earns a larger bonus. */
  lemma CalcBonusGrows(w: int, w': int)
    requires w in BonusTable && w' in BonusTable && w < w'
    ensures CalcBonus(w) < CalcBonus(w')
  {
  }

  /** The switch agrees with the table, and every room outside it is refunded nothing. */
  lemma CalcRefundMatchesTable(roomName: string)
    ensures CalcRefundAmount(roomName) == if roomName in RefundTable then Some(RefundTable[roomName]) else None
  {
  }

  /** The refunds rise with the room's rank: Silver, Gold, Platinum, Diamond. */
  lemma RefundsRiseWithRank()
    ensures CalcRefundAmount("Silver Room").value < CalcRefundAmount("Gold Room").value
              < CalcRefundAmount("Platinum Room").value < CalcRefundAmount("Diamond Room").value
    ensures CalcRefundAmount("Classic Room") == None
  {
  }
}
