/** The admin's control page for one game: its seat statistics and the End
    Game button. */
module GameControl {
  import opened Common

  /** `gameStats`. */
  datatype GameStats = GameStats(totalSeats: nat, bookedSeats: nat, remainingSeats: int, gameStatus: string)

  /** The statistics of a fetched game. The total is the length of the seat
      list (not the game's own `totalSeats` field), the booked count is the
      number of occupied seats, and the remainder is their difference, so the
      booked and remaining seats add up to the total and neither is negative. */
  function Stats(g: ServerGame): (s: GameStats)
    ensures s.totalSeats == |g.seats|
    ensures s.bookedSeats == CountOccupied(g.seats)
    ensures s.remainingSeats == CountFree(g.seats)
    ensures s.bookedSeats + s.remainingSeats == s.totalSeats
    ensures 0 <= s.remainingSeats <= s.totalSeats
    ensures s.gameStatus == g.status
  {
    var booked := CountOccupied(g.seats);
    var total := |g.seats|;
    OccupiedPlusFree(g.seats);
    GameStats(total, booked, total - booked, g.status)
  }

  /** The statistics after the mount-time fetch: set from a 200 reply, left
      as they were (initially none) otherwise. */
  function LoadStats(current: Option<GameStats>, reply: Reply<ServerGame>): (r: Option<GameStats>)
    ensures reply.Response? && reply.status == 200 ==> r == Some(Stats(reply.data))
    ensures !(reply.Response? && reply.status == 200) ==> r == current
  {
    if reply.Response? && reply.status == 200 then Some(Stats(reply.data)) else current
  }

  /** The End Game button is shown only for a game whose status is
      'active'; before any statistics arrive, the "Game Ended" text is shown. */
  function EndGameShown(stats: Option<GameStats>): (shown: bool)
    ensures shown <==> stats.Some? && stats.value.gameStatus == "active"
  {
    match stats
    case None => false
    case Some(s) => s.gameStatus == "active"
  }

  /** `handleEndGame`: after the call the page goes to the dashboard. The
      helper yields nothing when the call fails, and reading its message then
      throws before the navigation. */
  function EndGameRoute<T>(reply: Option<T>): (r: Option<Route>)
    ensures r.Some? <==> reply.Some?
    ensures r.Some? ==> r.value == AdminDashboardPage
  {
    if reply.Some? then Some(AdminDashboardPage) else None
  }
}
