/** The broker: live connections, routes by subdomain, and each connection's open streams. */
module Broker {
  import opened Results
  import opened Text
  import Streams
  import Gateway

  class Stream {
    const id: nat
    const tunnelId: string
    var done: bool

    constructor (id: nat, tunnelId: string)
      ensures this.id == id && this.tunnelId == tunnelId && !done
    {
      this.id := id;
      this.tunnelId := tunnelId;
      done := false;
    }

    /** `close(s.Done)`; closing a closed channel panics. */
    method Close()
      requires !done
      modifies this
      ensures done
    {
      done := true;
    }
  }

  class ClientConn {
    const connId: string
    const userId: string
    var streams: map<nat, Stream>

    constructor (connId: string, userId: string)
      ensures this.connId == connId && this.userId == userId && streams == map[]
    {
      this.connId := connId;
      this.userId := userId;
      streams := map[];
    }
  }

  class Broker {
    var connections: map<string, ClientConn>
    var subdomainToConn: map<string, string>
    var nextStreamId: nat
    ghost var openCount: nat

    /** The 32-bit counter holds the number of streams opened so far, modulo 2^32. */
    ghost predicate Valid()
      reads this
    {
      nextStreamId == openCount % UINT32
    }

    constructor ()
      ensures Valid() && connections == map[] && subdomainToConn == map[] && openCount == 0
    {
      connections := map[];
      subdomainToConn := map[];
      nextStreamId := 0;
      openCount := 0;
    }

    method AddConnection(connId: string, userId: string) returns (conn: ClientConn)
      modifies this`connections
      ensures fresh(conn) && conn.connId == connId && conn.userId == userId && conn.streams == map[]
      ensures connections == old(connections)[connId := conn]
    {
      conn := new ClientConn(connId, userId);
      connections := connections[connId := conn];
    }

    /** The streams in the tables of a connection, if it is there. */
    function StreamsOf(connId: string): set<Stream>
      reads this, connections.Values
    {
      if connId in connections then connections[connId].streams.Values else {}
    }

    /** The first loop of `RemoveConnection`: the routes are visited in any order and deleted on the way. */
    method RemoveRoutes(connId: string)
      modifies this`subdomainToConn
      ensures subdomainToConn == Gateway.RoutesWithout(old(subdomainToConn), connId)
    {
      ghost var start := subdomainToConn;
      var toVisit := subdomainToConn.Keys;
      while toVisit != {}
        invariant toVisit <= start.Keys
        invariant subdomainToConn == map sub | sub in start && (sub in toVisit || start[sub] != connId) :: start[sub]
      {
        var sub :| sub in toVisit;
        toVisit := toVisit - {sub};
        if subdomainToConn[sub] == connId {
          subdomainToConn := subdomainToConn - {sub};
        }
      }
    }

    /** The second loop: every stream's Done is closed, unless it already is. */
    method CloseAll(conn: ClientConn)
      modifies conn.streams.Values
      ensures forall s | s in conn.streams.Values :: s.done
    {
      var toVisit := conn.streams.Values;
      while toVisit != {}
        invariant toVisit <= conn.streams.Values
        invariant forall s | s in conn.streams.Values :: s in toVisit || s.done
      {
        var s :| s in toVisit;
        toVisit := toVisit - {s};
        if !s.done {
          s.Close();
        }
      }
    }

    method RemoveConnection(connId: string)
      modifies this`connections, this`subdomainToConn, StreamsOf(connId)
      ensures connections == old(connections) - {connId}
      ensures subdomainToConn ==
              if connId in old(connections) then Gateway.RoutesWithout(old(subdomainToConn), connId)
              else old(subdomainToConn)
      ensures forall s | s in old(StreamsOf(connId)) :: s.done
    {
      if connId !in connections {
        assert connections - {connId} == connections;
        return;
      }
      var conn := connections[connId];
      RemoveRoutes(connId);
      CloseAll(conn);
      connections := connections - {connId};
    }

    method MapSubdomain(subdomain: string, connId: string)
      modifies this`subdomainToConn
      ensures subdomainToConn == old(subdomainToConn)[subdomain := connId]
    {
      subdomainToConn := subdomainToConn[subdomain := connId];
    }

    method UnmapSubdomain(subdomain: string)
      modifies this`subdomainToConn
      ensures subdomainToConn == old(subdomainToConn) - {subdomain}
    {
      subdomainToConn := subdomainToConn - {subdomain};
    }

    method GetConnectionBySubdomain(subdomain: string) returns (conn: Option<ClientConn>)
      ensures conn.Some? <==> subdomain in subdomainToConn && subdomainToConn[subdomain] in connections
      ensures conn.Some? ==> conn.value == connections[subdomainToConn[subdomain]]
    {
      if subdomain !in subdomainToConn {
        return None;
      }
      var connId := subdomainToConn[subdomain];
      if connId !in connections {
        return None;
      }
      return Some(connections[connId]);
    }

    /** The n-th stream opened gets the ID that the protocol model gives it. */
    method OpenStream(conn: ClientConn, tunnelId: string) returns (s: Stream)
      requires Valid()
      modifies this`nextStreamId, this`openCount, conn`streams
      ensures Valid() && openCount == old(openCount) + 1
      ensures fresh(s) && s.id == Streams.StreamIdOf(old(openCount)) && s.tunnelId == tunnelId && !s.done
      ensures conn.streams == old(conn.streams)[s.id := s]
    {
      nextStreamId := (nextStreamId + 1) % UINT32;
      openCount := openCount + 1;
      s := new Stream(nextStreamId, tunnelId);
      conn.streams := conn.streams[s.id := s];
    }

    method CloseStream(conn: ClientConn, streamId: nat)
      modifies conn`streams, if streamId in conn.streams then {conn.streams[streamId]} else {}
      ensures conn.streams == old(conn.streams) - {streamId}
      ensures streamId in old(conn.streams) ==> old(conn.streams)[streamId].done
    {
      if streamId !in conn.streams {
        assert conn.streams - {streamId} == conn.streams;
        return;
      }
      var s := conn.streams[streamId];
      if !s.done {
        s.Close();
      }
      conn.streams := conn.streams - {streamId};
    }
  }
}
