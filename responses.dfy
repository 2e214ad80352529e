/**
 * The client-response table as seen by one (request, client) pair: the
 * accept upsert and the always-appending respond.
 */
module Responses {
  import opened Wrappers
  import opened Records
  import opened Queries

  const AcceptedMessage: string := "Accepted"

  predicate ForPair(row: ClientResponse, req: nat, client: int) {
    row.requestId == req && row.clientId == client
  }

  /** How many rows answer request `req` on behalf of `client`. */
  function CountPair(rows: seq<ClientResponse>, req: nat, client: int): nat {
    if rows == [] then 0
    else CountPair(rows[..|rows| - 1], req, client) + (if ForPair(rows[|rows| - 1], req, client) then 1 else 0)
  }

  /** `ClientResponse.query.filter_by(request_id=req, client_id=client).first()`, as a row index. */
  function FirstResponse(rows: seq<ClientResponse>, req: nat, client: int): (r: Option<nat>)
    ensures r.Some? ==> r.value < |rows| && ForPair(rows[r.value], req, client)
    ensures r.Some? ==> forall j :: 0 <= j < r.value ==> !ForPair(rows[j], req, client)
    ensures r.None? ==> forall j :: 0 <= j < |rows| ==> !ForPair(rows[j], req, client)
  {
    FirstMatch(rows, (x: ClientResponse) => ForPair(x, req, client))
  }

  lemma CountPairAppend(rows: seq<ClientResponse>, y: ClientResponse, req: nat, client: int)
    ensures CountPair(rows + [y], req, client) == CountPair(rows, req, client) + (if ForPair(y, req, client) then 1 else 0)
  {
  }

  /** The pair has no row exactly when its count is zero. */
  lemma {:induction false} CountPairZero(rows: seq<ClientResponse>, req: nat, client: int)
    ensures CountPair(rows, req, client) == 0 <==> FirstResponse(rows, req, client).None?
  {
    if rows != [] {
      var init := rows[..|rows| - 1];
      CountPairZero(init, req, client);
      assert forall j :: 0 <= j < |init| ==> init[j] == rows[j];
    }
  }

  /** Replacing a row by one that belongs to the pair exactly when the old one did keeps the count. */
  lemma {:induction false} CountPairUpdate(rows: seq<ClientResponse>, i: nat, y: ClientResponse, req: nat, client: int)
    requires i < |rows|
    requires ForPair(y, req, client) == ForPair(rows[i], req, client)
    ensures CountPair(rows[i := y], req, client) == CountPair(rows, req, client)
  {
    var n := |rows|;
    if i < n - 1 {
      assert rows[i := y][..n - 1] == rows[..n - 1][i := y];
      CountPairUpdate(rows[..n - 1], i, y, req, client);
    } else {
      assert rows[i := y][..n - 1] == rows[..n - 1];
    }
  }

  /**
   * Accepting request `req` as `client` at time `now`: when the pair has no
   * row, one accepted row with message "Accepted" is appended; otherwise the
   * pair's first row is marked accepted and re-timestamped, and nothing else
   * changes.
   */
  function AcceptUpsert(rows: seq<ClientResponse>, req: nat, client: int, now: nat): (r: seq<ClientResponse>)
    ensures CountPair(r, req, client) == if CountPair(rows, req, client) == 0 then 1 else CountPair(rows, req, client)
    ensures FirstResponse(rows, req, client).None? ==>
              r == rows + [ClientResponse(|rows| + 1, req, client, Some(AcceptedMessage), true, now)]
    ensures FirstResponse(rows, req, client).Some? ==>
              |r| == |rows| &&
              var i := FirstResponse(rows, req, client).value;
              r[i] == rows[i].(accepted := true, respondedAt := now) &&
              forall j :: 0 <= j < |rows| && j != i ==> r[j] == rows[j]
    ensures var f := FirstResponse(r, req, client);
            f.Some? && r[f.value].accepted && r[f.value].respondedAt == now
  {
    CountPairZero(rows, req, client);
    match FirstResponse(rows, req, client)
    case None =>
      var row := ClientResponse(|rows| + 1, req, client, Some(AcceptedMessage), true, now);
      CountPairAppend(rows, row, req, client);
      var r := rows + [row];
      assert forall j :: 0 <= j < |rows| ==> r[j] == rows[j];
      r
    case Some(i) =>
      var row := rows[i].(accepted := true, respondedAt := now);
      CountPairUpdate(rows, i, row, req, client);
      rows[i := row]
  }

  /** Accepting twice leaves exactly as many rows for the pair as accepting once, and at least one. */
  lemma AcceptTwiceKeepsOneRow(rows: seq<ClientResponse>, req: nat, client: int, t1: nat, t2: nat)
    ensures var once := AcceptUpsert(rows, req, client, t1);
            var twice := AcceptUpsert(once, req, client, t2);
            |twice| == |once| && CountPair(twice, req, client) == CountPair(once, req, client) >= 1
    ensures CountPair(rows, req, client) == 0 ==>
              CountPair(AcceptUpsert(AcceptUpsert(rows, req, client, t1), req, client, t2), req, client) == 1
  {
  }

  /** A response row: the respond handler always appends one of these. */
  function MessageRow(id: nat, req: nat, client: int, message: Option<string>, now: nat): (row: ClientResponse)
    ensures ForPair(row, req, client) && !row.accepted && row.message == message
  {
    ClientResponse(id, req, client, message, false, now)
  }

  /** Responding twice adds two rows for the pair, whatever the messages. */
  lemma RespondTwiceAddsTwoRows(rows: seq<ClientResponse>, req: nat, client: int, m1: Option<string>, m2: Option<string>, t1: nat, t2: nat)
    ensures var once := rows + [MessageRow(|rows| + 1, req, client, m1, t1)];
            var twice := once + [MessageRow(|once| + 1, req, client, m2, t2)];
            CountPair(twice, req, client) == CountPair(rows, req, client) + 2 &&
            twice[..|rows|] == rows
  {
  }
}
