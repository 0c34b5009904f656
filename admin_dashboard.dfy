/** The admin dashboard: the admin check on mount, the list of games with
    their counts, the per-game actions and logout. */
module AdminDashboard {
  import opened Common
  import RouteGuards

  /** A game as listed on the dashboard: the server's game, unchanged, plus
      its two counts. */
  datatype DashboardGame = DashboardGame(game: ServerGame, bookedSeats: nat, pendingRequests: nat)

  /** A game with its counts: the occupied seats and the pending requests. */
  function WithCounts(g: ServerGame): (d: DashboardGame)
    ensures d.game == g
    ensures d.bookedSeats == CountOccupied(g.seats) <= |g.seats|
    ensures d.pendingRequests == |g.pendingRequests|
  {
    DashboardGame(g, CountOccupied(g.seats), |g.pendingRequests|)
  }

  /** `activeGames` after the mount-time fetch (`reply` is what the helper
      returns: the list, or nothing when the call failed). A non-empty list
      gives one entry per game, in order; otherwise the list stays empty (the
      error branch reads a field of the missing or empty reply and throws,
      and the initial list was empty). */
  function LoadGames(reply: Option<seq<ServerGame>>): (r: seq<DashboardGame>)
    ensures reply.Some? && |reply.value| > 0 ==>
      |r| == |reply.value| && forall i :: 0 <= i < |r| ==> r[i] == WithCounts(reply.value[i])
    ensures !(reply.Some? && |reply.value| > 0) ==> r == []
  {
    if reply.Some? && |reply.value| > 0 then
      seq(|reply.value|, i requires 0 <= i < |reply.value| => WithCounts(reply.value[i]))
    else []
  }

  /** `handleGameAction`: the three known actions route to the game's
      control page, its requests page and its leaderboard; any other action
      does nothing. */
  function GameActionRoute(gameId: string, action: string): (r: Option<Route>)
    ensures action == "control" ==> r == Some(GameControl(gameId))
    ensures action == "requests" ==> r == Some(ManageRequests(gameId))
    ensures action == "Leaderboard" ==> r == Some(Leaderboard(gameId))
    ensures action !in {"control", "requests", "Leaderboard"} ==> r == None
  {
    if action == "control" then Some(GameControl(gameId))
    else if action == "requests" then Some(ManageRequests(gameId))
    else if action == "Leaderboard" then Some(Leaderboard(gameId))
    else None
  }

  /** The actions a game's card offers: control and requests for an active
      game, the leaderboard otherwise. */
  function VisibleActions(g: ServerGame): (actions: seq<string>)
    ensures g.status == "active" ==> actions == ["control", "requests"]
    ensures g.status != "active" ==> actions == ["Leaderboard"]
  {
    if g.status == "active" then ["control", "requests"] else ["Leaderboard"]
  }

  /** Every button a card shows leads somewhere: an active game to its
      control and requests pages, any other game to its leaderboard. */
  lemma VisibleActionsRoute(g: ServerGame)
    ensures forall a :: a in VisibleActions(g) ==> GameActionRoute(g.id, a).Some?
    ensures g.status == "active" ==>
      forall a :: a in VisibleActions(g) ==> GameActionRoute(g.id, a) != Some(Leaderboard(g.id))
    ensures g.status != "active" ==>
      forall a :: a in VisibleActions(g) ==> GameActionRoute(g.id, a) == Some(Leaderboard(g.id))
  {
  }

  /** The stored `user` record, reduced to its role (None when it has no role). */
  datatype StoredUser = StoredUser(role: Option<string>)

  /** The mount-time check: missing user data, or a role other than
      'admin', sends the page to the admin login. */
  function AdminCheck(user: Option<StoredUser>): (r: Option<Route>)
    ensures r.None? <==> user.Some? && user.value.role == Some("admin")
    ensures r.Some? ==> r.value == AdminLogin
  {
    if user.None? || user.value.role != Some("admin") then Some(AdminLogin) else None
  }

  /** The logout button: the session keys `userId`, `token` and `isAdmin`
      are removed, everything else (including `user`) kept, and the page goes
      to the admin login. */
  method Logout(storage: LocalStorage) returns (nav: Route)
    modifies storage
    ensures storage.items == old(storage.items) - {"userId", "token", "isAdmin"}
    ensures nav == AdminLogin
  {
    storage.RemoveItem("userId");
    storage.RemoveItem("token");
    storage.RemoveItem("isAdmin");
    nav := AdminLogin;
  }

  /** After logout neither guard lets the session in, and the stored user
      record is still there. */
  lemma LogoutClosesSession(before: map<string, string>)
    ensures var after := before - {"userId", "token", "isAdmin"};
      && "token" !in after && "isAdmin" !in after
      && ("user" in before ==> "user" in after && after["user"] == before["user"])
      && RouteGuards.AdminGuard(Lookup(after, "isAdmin"), Lookup(after, "token")) == RouteGuards.Redirect(AdminLogin)
      && RouteGuards.UserGuard(Lookup(after, "isAdmin"), Lookup(after, "token")) == RouteGuards.Redirect(Home)
  {
  }
}
