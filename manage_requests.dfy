/** The admin's join-request list for one game: loading it from the game,
    and approving or rejecting a request. */
module ManageRequests {
  import opened Common

  /** One row of the table. */
  datatype RequestRow = RequestRow(id: string, userName: string, gameName: string, status: string)

  /** The body of the status-update call. */
  datatype StatusUpdate = StatusUpdate(requestId: string, status: string)

  /** `filter(request => request.id !== id)`. */
  function RemoveId(rows: seq<RequestRow>, id: string): (r: seq<RequestRow>)
    ensures |r| <= |rows|
  {
    if rows == [] then []
    else RemoveId(rows[..|rows| - 1], id) + (if rows[|rows| - 1].id == id then [] else [rows[|rows| - 1]])
  }

  /** The rows kept are exactly the rows whose id differs. */
  lemma {:induction false} RemoveIdMembers(rows: seq<RequestRow>, id: string)
    ensures forall row :: row in RemoveId(rows, id) <==> row in rows && row.id != id
  {
    if rows != [] {
      var front := rows[..|rows| - 1];
      var last := rows[|rows| - 1];
      RemoveIdMembers(front, id);
      assert rows == front + [last];
      forall row
        ensures row in RemoveId(rows, id) <==> row in rows && row.id != id
      {
        assert row in rows <==> row in front || row == last;
      }
    }
  }

  /** Removing an id works piece by piece, so the rows kept stay in their
      original order. */
  lemma {:induction false} RemoveIdAppend(a: seq<RequestRow>, b: seq<RequestRow>, id: string)
    ensures RemoveId(a + b, id) == RemoveId(a, id) + RemoveId(b, id)
    decreases |b|
  {
    if b == [] {
      assert a + b == a;
    } else {
      var b' := b[..|b| - 1];
      assert (a + b)[..|a + b| - 1] == a + b';
      RemoveIdAppend(a, b', id);
    }
  }

  /** A list without that id is left exactly as it was. */
  lemma {:induction false} RemoveAbsentId(rows: seq<RequestRow>, id: string)
    requires forall i :: 0 <= i < |rows| ==> rows[i].id != id
    ensures RemoveId(rows, id) == rows
  {
    if rows != [] {
      var front := rows[..|rows| - 1];
      RemoveAbsentId(front, id);
      assert front + [rows[|rows| - 1]] == rows;
    }
  }

  /** Number of rows carrying an id. */
  function CountId(rows: seq<RequestRow>, id: string): nat {
    if rows == [] then 0
    else CountId(rows[..|rows| - 1], id) + (if rows[|rows| - 1].id == id then 1 else 0)
  }

  /** Exactly the rows with that id are removed. */
  lemma {:induction false} RemoveIdCount(rows: seq<RequestRow>, id: string)
    ensures |RemoveId(rows, id)| == |rows| - CountId(rows, id)
  {
    if rows != [] {
      RemoveIdCount(rows[..|rows| - 1], id);
    }
  }

  /** The rows for a fetched game: one per pending request, in order, each
      with the request's id, the requester's name, the game's name and the
      request's status. */
  function Rows(g: ServerGame): (r: seq<RequestRow>)
    ensures |r| == |g.pendingRequests|
    ensures forall i :: 0 <= i < |r| ==>
      r[i] == RequestRow(g.pendingRequests[i].id, g.pendingRequests[i].username, g.gameName, g.pendingRequests[i].status)
  {
    seq(|g.pendingRequests|, i requires 0 <= i < |g.pendingRequests| =>
      RequestRow(g.pendingRequests[i].id, g.pendingRequests[i].username, g.gameName, g.pendingRequests[i].status))
  }

  /** Approve and reject buttons are shown only on a request still exactly
      'pending', so never on one already approved or rejected. */
  predicate ActionsOffered(row: RequestRow): (offered: bool)
    ensures offered ==> row.status != "approved" && row.status != "rejected"
  {
    row.status == "pending"
  }

  /** In a fetched game's table, a row carries the approve and reject
      buttons exactly when its request's status is 'pending'. */
  lemma ActionsOfferedOnPending(g: ServerGame, i: int)
    requires 0 <= i < |g.pendingRequests|
    ensures ActionsOffered(Rows(g)[i]) <==> g.pendingRequests[i].status == "pending"
  {
  }

  /** Once a status update for `id` is answered with 200, no row left in the
      table offers the buttons for that id, while every other row that
      offered them still does. */
  lemma ActionsGoneAfterUpdate(rows: seq<RequestRow>, id: string)
    ensures forall row :: row in RemoveId(rows, id) && ActionsOffered(row) ==> row.id != id
    ensures forall row :: row in rows && ActionsOffered(row) && row.id != id ==> row in RemoveId(rows, id)
  {
    RemoveIdMembers(rows, id);
  }

  class RequestsPage {
    var requests: seq<RequestRow>
    var update: bool
    var loading: bool

    ghost predicate Valid()
      reads this
    {
      !loading
    }

    constructor ()
      ensures Valid() && requests == [] && !update
    {
      requests, update, loading := [], false, false;
    }

    /** The fetch run on mount and after every `update` toggle: a reply whose
        game has requests replaces the list by its rows; a reply without
        requests, or no reply, empties it. The status code is not looked at. */
    method Load(reply: Reply<ServerGame>)
      requires Valid()
      modifies this`requests
      ensures Valid()
      ensures reply.Response? && |reply.data.pendingRequests| > 0 ==> requests == Rows(reply.data)
      ensures !(reply.Response? && |reply.data.pendingRequests| > 0) ==> requests == []
      ensures requests == [] <==> !reply.Response? || |reply.data.pendingRequests| == 0
    {
      if reply.Response? && |reply.data.pendingRequests| > 0 {
        requests := Rows(reply.data);
      } else {
        requests := [];
      }
    }

    /** `handleApprove` / `handleReject` (`status` is 'approved' or
        'rejected'): sends the new status for that id; a 200 answer removes
        every row with that id and toggles `update`; anything else changes
        nothing. */
    method SetRequestStatus(id: string, status: string, reply: Reply<()>) returns (sent: StatusUpdate)
      requires Valid()
      modifies this`requests, this`update, this`loading
      ensures Valid() && sent == StatusUpdate(id, status)
      ensures reply.Response? && reply.status == 200 ==>
        requests == RemoveId(old(requests), id) && update == !old(update)
      ensures !(reply.Response? && reply.status == 200) ==>
        requests == old(requests) && update == old(update)
    {
      loading := true;
      sent := StatusUpdate(id, status);
      if reply.Response? && reply.status == 200 {
        requests := RemoveId(requests, id);
        update := !update;
      }
      loading := false;
    }

    /** `handleApprove`. */
    method HandleApprove(id: string, reply: Reply<()>) returns (sent: StatusUpdate)
      requires Valid()
      modifies this`requests, this`update, this`loading
      ensures Valid() && sent == StatusUpdate(id, "approved")
      ensures reply.Response? && reply.status == 200 ==>
        requests == RemoveId(old(requests), id) && update == !old(update)
      ensures !(reply.Response? && reply.status == 200) ==>
        requests == old(requests) && update == old(update)
    {
      sent := SetRequestStatus(id, "approved", reply);
    }

    /** `handleReject`. */
    method HandleReject(id: string, reply: Reply<()>) returns (sent: StatusUpdate)
      requires Valid()
      modifies this`requests, this`update, this`loading
      ensures Valid() && sent == StatusUpdate(id, "rejected")
      ensures reply.Response? && reply.status == 200 ==>
        requests == RemoveId(old(requests), id) && update == !old(update)
      ensures !(reply.Response? && reply.status == 200) ==>
        requests == old(requests) && update == old(update)
    {
      sent := SetRequestStatus(id, "rejected", reply);
    }
  }
}
