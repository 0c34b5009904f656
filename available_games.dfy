/** The user's list of active games: the card shown for each game, the
    action it offers, and the outcome of a join request. */
module AvailableGames {
  import opened Common
  import RouteGuards

  /** `requestStatus`: 'rejected', 'approved' or null. */
  datatype RequestStatus = Rejected | Approved | NoStatus

  /** One card of the list. */
  datatype GameCard = GameCard(
    id: string,
    name: string,
    availableSeats: nat,
    totalSeats: int,
    requestStatus: RequestStatus,
    status: string)

  /** `find(user => user.userId === userId)`: a request of that user when
      there is one, and none otherwise. */
  function FindRequest(requests: seq<JoinRequest>, userId: string): (r: Option<JoinRequest>)
    ensures r.None? <==> forall i :: 0 <= i < |requests| ==> requests[i].userId != userId
    ensures r.Some? ==> r.value in requests && r.value.userId == userId
  {
    if requests == [] then None
    else if requests[0].userId == userId then Some(requests[0])
    else FindRequest(requests[1..], userId)
  }

  /** The request found is the user's first one in list order. */
  lemma {:induction false} FindRequestIsFirst(requests: seq<JoinRequest>, userId: string, i: int)
    requires 0 <= i < |requests| && requests[i].userId == userId
    requires forall j :: 0 <= j < i ==> requests[j].userId != userId
    ensures FindRequest(requests, userId) == Some(requests[i])
  {
    if i > 0 {
      FindRequestIsFirst(requests[1..], userId, i - 1);
    }
  }

  /** The status shown for the signed-in user (`user` is the stored
      `userId`, None when absent; an absent id matches nobody): 'rejected'
      when that user's first request in the list is rejected, otherwise
      'approved' when the user is among the approved users, otherwise none. */
  function RequestStatusOf(g: ServerGame, user: Option<string>): (r: RequestStatus)
    ensures user.None? ==> r == NoStatus
    ensures r == Rejected <==>
      user.Some? && FindRequest(g.pendingRequests, user.value).Some?
      && FindRequest(g.pendingRequests, user.value).value.status == "rejected"
    ensures r == Approved <==> r != Rejected && user.Some? && user.value in g.approvedUsers
  {
    if user.None? then NoStatus
    else
      var request := FindRequest(g.pendingRequests, user.value);
      if request.Some? && request.value.status == "rejected" then Rejected
      else if user.value in g.approvedUsers then Approved
      else NoStatus
  }

  /** A rejection wins over an approval of the same user. */
  lemma RejectionOverridesApproval(g: ServerGame, user: string)
    requires user in g.approvedUsers
    requires forall i :: 0 <= i < |g.pendingRequests| && g.pendingRequests[i].userId == user ==>
      g.pendingRequests[i].status == "rejected"
    requires exists i :: 0 <= i < |g.pendingRequests| && g.pendingRequests[i].userId == user
    ensures RequestStatusOf(g, Some(user)) == Rejected
  {
    var r := FindRequest(g.pendingRequests, user);
    assert r.value in g.pendingRequests;
  }

  /** The card of one game: the free-seat count, the server's total, the
      user's request status and the game's status. */
  function Card(g: ServerGame, user: Option<string>): (c: GameCard)
    ensures c.id == g.id && c.name == g.gameName && c.totalSeats == g.totalSeats && c.status == g.status
    ensures c.availableSeats <= |g.seats|
    ensures c.availableSeats == |g.seats| - CountOccupied(g.seats)
    ensures c.requestStatus == RequestStatusOf(g, user)
  {
    OccupiedPlusFree(g.seats);
    GameCard(g.id, g.gameName, CountFree(g.seats), g.totalSeats, RequestStatusOf(g, user), g.status)
  }

  /** The cards for a 200 reply: one per game, in the reply's order. */
  function Cards(games: seq<ServerGame>, user: Option<string>): (r: seq<GameCard>)
    ensures |r| == |games|
    ensures forall i :: 0 <= i < |games| ==> r[i] == Card(games[i], user)
  {
    seq(|games|, i requires 0 <= i < |games| => Card(games[i], user))
  }

  /** The list after the mount-time fetch: replaced on a 200 reply, kept
      otherwise (a non-200 only shows a message; a failed call makes the
      handler throw). */
  function LoadGames(current: seq<GameCard>, reply: Reply<seq<ServerGame>>, user: Option<string>): (r: seq<GameCard>)
    ensures reply.Response? && reply.status == 200 ==> r == Cards(reply.data, user)
    ensures !(reply.Response? && reply.status == 200) ==> r == current
  {
    if reply.Response? && reply.status == 200 then Cards(reply.data, user) else current
  }

  /** What a card offers. */
  datatype CardAction =
    | ViewLeaderboard(to: Route)   // "Game Ended! View Leaderboard"
    | EnterGame(to: Route)         // "Request Approved! join the game."
    | RejectedLabel                // "Request Rejected!."
    | JoinButton(disabled: bool)   // "Request to Join" / "No Seats Available"

  /** The action, by priority: an ended game offers its leaderboard, then an
      approved request the seat picker, then a rejected request its label,
      and otherwise the join button, disabled exactly when no seat is free. */
  function Action(c: GameCard): (a: CardAction)
    ensures c.status == "ended" <==> a.ViewLeaderboard?
    ensures a.ViewLeaderboard? ==> a.to == Leaderboard(c.id)
    ensures a.EnterGame? <==> c.status != "ended" && c.requestStatus == Approved
    ensures a.EnterGame? ==> a.to == SelectSeat(c.id)
    ensures a.RejectedLabel? <==> c.status != "ended" && c.requestStatus == Rejected
    ensures a.JoinButton? <==> c.status != "ended" && c.requestStatus == NoStatus
    ensures a.JoinButton? ==> (a.disabled <==> c.availableSeats == 0)
  {
    if c.status == "ended" then ViewLeaderboard(Leaderboard(c.id))
    else if c.requestStatus == Approved then EnterGame(SelectSeat(c.id))
    else if c.requestStatus == Rejected then RejectedLabel
    else assert c.requestStatus == NoStatus; JoinButton(c.availableSeats == 0)
  }

  /** A game the user may still join with every seat taken shows a disabled
      join button; with a free seat, an enabled one. */
  lemma JoinDisabledIffFull(g: ServerGame, user: Option<string>)
    requires g.status != "ended" && RequestStatusOf(g, user) == NoStatus
    ensures Action(Card(g, user)) == JoinButton(CountOccupied(g.seats) == |g.seats|)
  {
  }

  /** `handleJoin`'s outcome: success exactly on a 201; a 2xx answer other
      than 201 shows the error toast. A non-2xx answer or a failed call is
      `NoResponse`: the helper hands back the caught error object, which has
      no `data`, so the error branch throws before showing anything. */
  datatype JoinOutcome = RequestSent | RequestRefused | NoFeedback

  function JoinOutcomeOf(reply: Reply<()>): (o: JoinOutcome)
    ensures o == RequestSent <==> reply.Response? && reply.status == 201
    ensures o == NoFeedback <==> reply.NoResponse?
  {
    if reply.Response? && reply.status == 201 then RequestSent
    else if reply.Response? then RequestRefused
    else NoFeedback
  }

  /** The page's logout button: only `userId` and `token` are removed, so
      `isAdmin` stays stored, unlike the admin dashboard's logout; the page
      goes to `/`. */
  method Logout(storage: LocalStorage) returns (nav: Route)
    modifies storage
    ensures storage.items == old(storage.items) - {"userId", "token"}
    ensures nav == Home
  {
    storage.RemoveItem("userId");
    storage.RemoveItem("token");
    nav := Home;
  }

  /** After this logout the stored `isAdmin` entry is still there, yet with
      the token gone neither guard lets the session in. */
  lemma LogoutKeepsIsAdmin(before: map<string, string>)
    ensures var after := before - {"userId", "token"};
      && "token" !in after && "userId" !in after
      && ("isAdmin" in before ==> "isAdmin" in after && after["isAdmin"] == before["isAdmin"])
      && RouteGuards.AdminGuard(Lookup(after, "isAdmin"), Lookup(after, "token")) == RouteGuards.Redirect(AdminLogin)
      && RouteGuards.UserGuard(Lookup(after, "isAdmin"), Lookup(after, "token")) == RouteGuards.Redirect(Home)
  {
  }
}
