/** Changing the proxy's destinations: its members stay connected, also when a dial fails half-way. */
module ProxyServer {
  import opened Destinations
  import opened Options
  import opened Sums
  import opened ConnMap

  /** The connection map as one caller sees it; every method is one of ConnMap's calls run to its end. */
  class ClientConnMap {
    var conns: map<Destination, Conn>
    var dialled: seq<Destination>
    var closed: seq<Conn>

    ghost function Seen(): View
      reads this
    {
      View(conns, closed)
    }

    /** Connections are filed under their destinations, and none in the map is closed. */
    ghost predicate Valid()
      reads this
    {
      && (forall d :: d in conns ==> conns[d] < |dialled| && dialled[conns[d]] == d && conns[d] !in closed)
      && (forall i :: 0 <= i < |closed| ==> closed[i] < |dialled|)
    }

    constructor ()
      ensures Valid() && conns == map[] && dialled == [] && closed == []
    {
      conns, dialled, closed := map[], [], [];
    }

    method Get(d: Destination) returns (conn: Option<Conn>)
      ensures conn == if d in conns then Some(conns[d]) else None
    {
      conn := if d in conns then Some(conns[d]) else None;
    }

    /** Whether a dial succeeds is up to the network. */
    method Dial(d: Destination) returns (conn: Option<Conn>)
      requires Valid()
      modifies this`dialled
      ensures Valid()
      ensures conn.None? ==> dialled == old(dialled)
      ensures conn.Some? ==> conn.value == |old(dialled)| && dialled == old(dialled) + [d]
    {
      var ok := *;
      if ok {
        conn := Some(|dialled|);
        dialled := dialled + [d];
      } else {
        conn := None;
      }
    }

    /** Leaves a connected destination alone and dials any other. */
    method Add(d: Destination) returns (ok: bool)
      requires Valid()
      modifies this
      ensures Valid() && closed == old(closed)
      ensures OneCall(old(Seen()), Seen())
      ensures d in old(conns) ==> ok && conns == old(conns) && dialled == old(dialled)
      ensures d !in old(conns) ==>
                if ok then conns == old(conns)[d := |old(dialled)|] && dialled == old(dialled) + [d]
                else conns == old(conns) && dialled == old(dialled)
    {
      var present := Get(d);
      if present.Some? {
        return true;
      }
      // No rival can have filed the destination in between: see ConnMap for callers that race.
      var conn := Dial(d);
      if conn.Some? {
        conns := conns[d := conn.value];
      }
      ok := conn.Some?;
    }

    method Delete(d: Destination)
      requires Valid()
      modifies this
      ensures Valid() && conns == Removed(old(conns), d) && dialled == old(dialled)
      ensures closed == old(closed) + (if d in old(conns) then [old(conns)[d]] else [])
      ensures OneCall(old(Seen()), Seen())
    {
      assert d !in conns ==> Removed(conns, d) == conns;
      if d in conns {
        closed := closed + [conns[d]];
      }
      conns := map k | k in conns && k != d :: conns[k];
    }

    /** The destinations in the map, in any order. */
    method Keys() returns (keys: seq<Destination>)
      ensures Visits(keys, conns)
    {
      keys := [];
      var left := conns.Keys;
      while left != {}
        invariant left <= conns.Keys
        invariant forall i :: 0 <= i < |keys| ==> keys[i] in conns && keys[i] !in left
        invariant forall i, j :: 0 <= i < j < |keys| ==> keys[i] != keys[j]
        invariant forall k :: k in conns ==> k in keys || k in left
        decreases |left|
      {
        var k :| k in left;
        keys := keys + [k];
        left := left - {k};
      }
    }
  }

  /** What others may see of the map between two calls. */
  datatype View = View(conns: map<Destination, Conn>, closed: seq<Conn>)

  /** One call's doing: nothing, one destination deleted and closed, or one added. */
  ghost predicate OneCall(v: View, w: View) {
    || w == v
    || (exists d :: d in v.conns && w == View(Removed(v.conns, d), v.closed + [v.conns[d]]))
    || (exists d :: d in w.conns && d !in v.conns && w == View(v.conns[d := w.conns[d]], v.closed))
  }

  /** From the first view to the last, call by call. */
  ghost predicate Chain(views: seq<View>, first: View, last: View) {
    && |views| > 0 && views[0] == first && views[|views| - 1] == last
    && forall i :: 0 <= i < |views| - 1 ==> OneCall(views[i], views[i + 1])
  }

  /** Every member of the ring can be reached over the connection it had, which is open. */
  ghost predicate Serves(v: View, ring: seq<Destination>, base: map<Destination, Conn>) {
    forall d :: d in ring ==> d in base && d in v.conns && v.conns[d] == base[d] && base[d] !in v.closed
  }

  /** All the views of a change, in each of which the ring is served. */
  ghost predicate Throughout(views: seq<View>, first: View, last: View, ring: seq<Destination>) {
    Chain(views, first, last) && forall i :: 0 <= i < |views| ==> Serves(views[i], ring, first.conns)
  }

  lemma ThroughoutStarts(v: View, ring: seq<Destination>)
    requires Serves(v, ring, v.conns)
    ensures Throughout([v], v, v, ring)
  {
    hide Serves, OneCall;
  }

  lemma ThroughoutGrows(views: seq<View>, first: View, v: View, w: View, ring: seq<Destination>)
    requires Throughout(views, first, v, ring) && OneCall(v, w) && Serves(w, ring, first.conns)
    ensures Throughout(views + [w], first, w, ring)
  {
    hide OneCall, Serves;
  }

  /** A map after the keys of a list that may not stay are gone. */
  function Pruned(conns: map<Destination, Conn>, keys: seq<Destination>, stay: seq<Destination>):
    map<Destination, Conn>
  {
    map d | d in conns && (d !in keys || d in stay) :: conns[d]
  }

  lemma PrunedNone(conns: map<Destination, Conn>, stay: seq<Destination>)
    ensures Pruned(conns, [], stay) == conns
  {
  }

  lemma PrunedStep(conns: map<Destination, Conn>, keys: seq<Destination>, stay: seq<Destination>, k: Destination)
    ensures Pruned(conns, keys + [k], stay)
         == if k in stay then Pruned(conns, keys, stay) else Removed(Pruned(conns, keys, stay), k)
  {
  }

  class Server {
    var destinations: seq<Destination>
    const conns: ClientConnMap

    /** Every member of the active ring is connected. */
    ghost predicate Valid()
      reads this, conns
    {
      conns.Valid() && forall d :: d in destinations ==> d in conns.conns
    }

    constructor (connections: ClientConnMap)
      requires connections.Valid()
      ensures Valid() && conns == connections && destinations == []
    {
      conns, destinations := connections, [];
    }

    lemma StillServes(base: map<Destination, Conn>)
      requires conns.Valid()
      requires forall d :: d in destinations ==> d in base && d in conns.conns && conns.conns[d] == base[d]
      ensures Serves(conns.Seen(), destinations, base)
    {
    }

    /** Deletes what neither ring has. */
    method Prune(members: seq<Destination>) returns (ghost views: seq<View>)
      requires Valid()
      modifies conns
      ensures Valid() && conns.dialled == old(conns.dialled)
      ensures forall d :: d in conns.conns <==> d in old(conns.conns) && (d in destinations || d in members)
      ensures forall d :: d in conns.conns ==> conns.conns[d] == old(conns.conns)[d]
      ensures Throughout(views, old(conns.Seen()), conns.Seen(), destinations)
    {
      hide Removed, Throughout, Serves, OneCall;
      var keys := conns.Keys();
      ghost var first, stay := conns.Seen(), destinations + members;
      PrunedNone(first.conns, stay);
      views := [first];
      StillServes(first.conns);
      ThroughoutStarts(first, destinations);
      for i := 0 to |keys|
        invariant conns.Valid() && conns.dialled == old(conns.dialled)
        invariant conns.conns == Pruned(first.conns, keys[..i], stay)
        invariant Throughout(views, first, conns.Seen(), destinations)
      {
        PrunedStep(first.conns, keys[..i], stay, keys[i]);
        assert keys[..i + 1] == keys[..i] + [keys[i]];
        if keys[i] !in destinations && keys[i] !in members {
          ghost var was := conns.Seen();
          conns.Delete(keys[i]);
          StillServes(first.conns);
          ThroughoutGrows(views, first, was, conns.Seen(), destinations);
          views := views + [conns.Seen()];
        }
      }
      assert keys[..|keys|] == keys;
    }

    /**
      On success the new ring is active and connected; on failure the old ring is
      still active and still connected, over the very connections it had. All the
      while, whatever a concurrent forward sees, it finds the old ring connected.
     */
    method SetDestinations(members: seq<Destination>) returns (ok: bool, ghost views: seq<View>)
      requires Valid()
      modifies this, conns
      ensures Valid()
      ensures destinations == if ok then members else old(destinations)
      ensures forall d :: d in old(conns.conns) && (d in old(destinations) || d in members) ==>
                d in conns.conns && conns.conns[d] == old(conns.conns)[d]
      ensures forall d :: d in conns.conns ==> d in old(destinations) || d in members
      ensures forall d :: d in conns.conns && d !in old(conns.conns) ==> conns.conns[d] >= |old(conns.dialled)|
      ensures ok || exists d :: d in members && d !in conns.conns
      ensures Throughout(views, old(conns.Seen()), conns.Seen(), old(destinations))
    {
      hide Removed, Throughout, Serves, OneCall;
      ghost var first := conns.Seen();
      views := Prune(members);
      ghost var kept := conns.conns;
      for i := 0 to |members|
        invariant Valid() && destinations == old(destinations)
        invariant forall d :: d in kept ==> d in conns.conns && conns.conns[d] == kept[d]
        invariant forall d :: d in conns.conns ==> d in kept || d in members
        invariant forall d :: d in conns.conns && d !in kept ==> conns.conns[d] >= |old(conns.dialled)|
        invariant |conns.dialled| >= |old(conns.dialled)|
        invariant forall j :: 0 <= j < i ==> members[j] in conns.conns
        invariant Throughout(views, first, conns.Seen(), destinations)
      {
        ghost var was := conns.Seen();
        var added := conns.Add(members[i]);
        StillServes(first.conns);
        ThroughoutGrows(views, first, was, conns.Seen(), destinations);
        views := views + [conns.Seen()];
        if !added {
          return false, views;
        }
      }
      destinations := members;
      ok := true;
    }
  }
}
