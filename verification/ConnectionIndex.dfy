/** The table that leads from a connection's printed name to its id, and what looking a socket up in it means. */
module ConnectionIndex {
  import opened Connections

  type ConnectionMap = map<int, ConnectionPair>

  function NameOf(p: ConnectionPair): string { ConnString(p.src, p.dst) }

  /**
   The index holds the names of the connections in `ids` and no others, and each leads to a connection of that name.
   */
  ghost predicate Indexes(index: map<string, int>, conns: ConnectionMap, ids: set<int>)
    requires ids <= conns.Keys
  {
    && (forall id | id in ids :: NameOf(conns[id]) in index)
    && (forall s | s in index :: index[s] in ids && NameOf(conns[index[s]]) == s)
  }

  lemma IndexNone(conns: ConnectionMap)
    ensures Indexes(map[], conns, {})
  {
  }

  lemma IndexOne(index: map<string, int>, conns: ConnectionMap, ids: set<int>, id: int)
    requires ids <= conns.Keys && id in conns && Indexes(index, conns, ids)
    ensures Indexes(index[NameOf(conns[id]) := id], conns, ids + {id})
  {
    hide NameOf;
  }

  lemma SomeKeyLeft(s: set<int>)
    requires s != {}
    ensures exists id :: id in s
  {
    if forall id :: id !in s {
      assert false;
    }
  }

  /** startup: enters every configured connection, in whatever order the map yields them. */
  method BuildIndex(conns: ConnectionMap) returns (index: map<string, int>)
    ensures Indexes(index, conns, conns.Keys)
  {
    hide NameOf, Indexes;
    index := map[];
    var left := conns.Keys;
    ghost var done: set<int> := {};
    IndexNone(conns);
    while left != {}
      invariant done <= conns.Keys && left == conns.Keys - done
      invariant Indexes(index, conns, done)
      decreases |left|
    {
      SomeKeyLeft(left);
      var id :| id in left;
      IndexOne(index, conns, done, id);
      index := index[NameOf(conns[id]) := id];
      left := left - {id};
      done := done + {id};
    }
    assert done == conns.Keys;
  }

  ghost predicate AllIPv4(conns: ConnectionMap) {
    forall id | id in conns :: conns[id].src.family == conns[id].dst.family == AF_INET
  }

  /** Looking a socket's name up finds it iff a configured pair compares equal to it, and yields such a pair. */
  lemma LookupAgreesWithScan(index: map<string, int>, conns: ConnectionMap, peer: SockAddr, local: SockAddr)
    requires AllIPv4(conns) && peer.family == local.family == AF_INET
    requires Indexes(index, conns, conns.Keys)
    ensures var s := ConnString(peer, local);
            && (s in index <==> exists id :: id in conns && SamePair(conns[id], ConnectionPair(peer, local)))
            && (s in index ==> index[s] in conns && SamePair(conns[index[s]], ConnectionPair(peer, local)))
  {
    hide ConnString, SamePair;
    var s, p := ConnString(peer, local), ConnectionPair(peer, local);
    forall id | id in conns ensures NameOf(conns[id]) == s <==> SamePair(conns[id], p) {
      NamesAgreeWithComparison(conns[id], p);
    }
    if s in index {
      var id := index[s];
      assert id in conns && NameOf(conns[id]) == s && SamePair(conns[id], ConnectionPair(peer, local));
    }
  }
}
