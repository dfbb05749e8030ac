/** Room membership as the editor page holds it: the list of participants
    last declared by the server, reduced by departures. */
module Membership {

  /** One participant of the room as the server describes it. The socket id is
      the transport-assigned identity; the display name is not unique. */
  datatype Client = Client(socketId: string, userName: string)

  /** The list without every entry whose socket id is `id`, keeping the
      relative order of the rest (the `prev.filter(...)` of the
      user-disconnected handler). */
  function RemoveById(clients: seq<Client>, id: string): (r: seq<Client>)
    ensures |r| <= |clients|
    ensures forall c :: c in r <==> c in clients && c.socketId != id
  {
    if |clients| == 0 then []
    else
      assert clients == [clients[0]] + clients[1..];
      if clients[0].socketId == id then RemoveById(clients[1..], id)
      else [clients[0]] + RemoveById(clients[1..], id)
  }

  /** Removal drops every copy of a matching entry and keeps every copy of
      the others. */
  lemma {:induction false} RemoveKeepsCounts(clients: seq<Client>, id: string, c: Client)
    ensures multiset(RemoveById(clients, id))[c] == if c.socketId == id then 0 else multiset(clients)[c]
    decreases |clients|
  {
    if |clients| > 0 {
      RemoveKeepsCounts(clients[1..], id, c);
      assert clients == [clients[0]] + clients[1..];
      assert multiset(clients) == multiset([clients[0]]) + multiset(clients[1..]);
      if clients[0].socketId != id {
        assert RemoveById(clients, id) == [clients[0]] + RemoveById(clients[1..], id);
        assert multiset(RemoveById(clients, id)) == multiset([clients[0]]) + multiset(RemoveById(clients[1..], id));
      }
    }
  }

  /** `a` can be obtained from `b` by deleting elements. */
  ghost predicate IsSubsequence(a: seq<Client>, b: seq<Client>)
    decreases |b|
  {
    if |a| == 0 then true
    else if |b| == 0 then false
    else (a[0] == b[0] && IsSubsequence(a[1..], b[1..])) || IsSubsequence(a, b[1..])
  }

  /** Removal keeps the survivors in their original relative order. */
  lemma {:induction false} RemoveIsSubsequence(clients: seq<Client>, id: string)
    ensures IsSubsequence(RemoveById(clients, id), clients)
    decreases |clients|
  {
    if |clients| > 0 {
      RemoveIsSubsequence(clients[1..], id);
      var rest := RemoveById(clients[1..], id);
      if clients[0].socketId != id {
        var r := RemoveById(clients, id);
        assert r == [clients[0]] + rest;
        assert r[0] == clients[0] && r[1..] == rest;
      }
    }
  }

  /** Removing an id nobody has leaves the list exactly as it was. */
  lemma {:induction false} RemoveNonMemberIsNoOp(clients: seq<Client>, id: string)
    requires forall i :: 0 <= i < |clients| ==> clients[i].socketId != id
    ensures RemoveById(clients, id) == clients
    decreases |clients|
  {
    if |clients| > 0 {
      RemoveNonMemberIsNoOp(clients[1..], id);
      assert clients == [clients[0]] + clients[1..];
    }
  }

  /** Applying the same departure twice equals applying it once. */
  lemma {:induction false} RemoveIdempotent(clients: seq<Client>, id: string)
    ensures RemoveById(RemoveById(clients, id), id) == RemoveById(clients, id)
  {
    var r := RemoveById(clients, id);
    forall i | 0 <= i < |r|
      ensures r[i].socketId != id
    {
      assert r[i] in r;
    }
    RemoveNonMemberIsNoOp(r, id);
  }

  /** Removal works element by element: it distributes over concatenation. */
  lemma {:induction false} RemoveDistributes(a: seq<Client>, b: seq<Client>, id: string)
    ensures RemoveById(a + b, id) == RemoveById(a, id) + RemoveById(b, id)
    decreases |a|
  {
    if |a| == 0 {
      assert a + b == b;
    } else {
      assert (a + b)[0] == a[0];
      assert (a + b)[1..] == a[1..] + b;
      RemoveDistributes(a[1..], b, id);
    }
  }

  /** Two departures may be processed in either order. */
  lemma {:induction false} RemoveCommutes(clients: seq<Client>, x: string, y: string)
    ensures RemoveById(RemoveById(clients, x), y) == RemoveById(RemoveById(clients, y), x)
    decreases |clients|
  {
    if |clients| > 0 {
      RemoveCommutes(clients[1..], x, y);
    }
  }

  /** A run of departures applied one after another, in order. */
  function RemoveAll(clients: seq<Client>, ids: seq<string>): (r: seq<Client>)
    ensures forall c :: c in r <==> c in clients && c.socketId !in ids
    decreases |ids|
  {
    if |ids| == 0 then clients
    else
      assert forall k :: k in ids <==> k == ids[0] || k in ids[1..];
      RemoveAll(RemoveById(clients, ids[0]), ids[1..])
  }
}
