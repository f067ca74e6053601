/**
 From the tunnel ID to the local port: the client finds the port by the suffix
 of the ID.
 */
module Routing {
  import opened Results
  import opened Text
  import opened Strings
  import opened TunnelIds

  datatype ClientTunnel = ClientTunnel(subdomain: string, port: int)

  /** The first tunnel whose subdomain, after a dash, ends the target ID. */
  function FirstMatch(tunnels: seq<ClientTunnel>, target: string): (r: Option<nat>)
    ensures r.Some? ==> r.value < |tunnels| && HasSuffix(target, "-" + tunnels[r.value].subdomain)
    ensures forall j | 0 <= j < (if r.Some? then r.value else |tunnels|) :: !HasSuffix(target, "-" + tunnels[j].subdomain)
  {
    if tunnels == [] then None
    else if HasSuffix(target, "-" + tunnels[0].subdomain) then Some(0)
    else
      match FirstMatch(tunnels[1..], target)
      case Some(i) => Some(i + 1)
      case None => None
  }

  /** `resolvePort`: the first match, else the first tunnel, else 0. */
  method ResolvePort(tunnels: seq<ClientTunnel>, target: string) returns (port: int)
    ensures port == match FirstMatch(tunnels, target)
                    case Some(i) => tunnels[i].port
                    case None => if tunnels != [] then tunnels[0].port else 0
  {
    for i := 0 to |tunnels|
      invariant forall j | 0 <= j < i :: !HasSuffix(target, "-" + tunnels[j].subdomain)
    {
      if HasSuffix(target, "-" + tunnels[i].subdomain) {
        return tunnels[i].port;
      }
    }
    if |tunnels| > 0 {
      return tunnels[0].port;
    }
    return 0;
  }

  /** Subdomain `x` is taken for `y`: it is `y`, or what follows a dash in `y`, or the connection's number, a dash and `y`. */
  predicate Shadows(connId: string, x: string, y: string) {
    x == y || HasSuffix(y, "-" + x) || (|connId| >= 5 && x == connId[5..] + "-" + y)
  }

  lemma OnlyDash(connId: string, q: nat)
    requires Generated(connId) && q < |connId|
    ensures connId[q] == '-' <==> q == 4
  {
    if q < 5 {
      assert connId[q] == connId[..5][q];
    } else {
      assert IsDigit(connId[5..][q - 5]);
    }
  }

  /** A suffix that reaches into the connection ID can only start at its one dash. */
  lemma LongSuffix(connId: string, x: string, y: string)
    requires Generated(connId) && |x| > |y|
    ensures HasSuffix(TunnelId(connId, y), "-" + x) <==> x == connId[5..] + "-" + y
  {
    var id := TunnelId(connId, y);
    assert id[5..] == connId[5..] + "-" + y;
    assert id[4..] == "-" + id[5..] by {
      assert id[4] == connId[..5][4] == '-';
    }
    if HasSuffix(id, "-" + x) {
      var q := |id| - |x| - 1;
      assert id[q] == ("-" + x)[0] == '-' && id[q] == connId[q];
      OnlyDash(connId, q);
      assert ("-" + x)[1..] == x && ("-" + id[5..])[1..] == id[5..];
    }
  }

  lemma SuffixIffShadows(connId: string, x: string, y: string)
    requires Generated(connId)
    ensures HasSuffix(TunnelId(connId, y), "-" + x) <==> Shadows(connId, x, y)
  {
    var id := TunnelId(connId, y);
    assert id[|connId|..] == "-" + y;
    if |x| < |y| {
      assert id[|id| - |x| - 1..] == y[|y| - |x| - 1..];
    } else if |x| == |y| {
      assert ("-" + x)[1..] == x && ("-" + y)[1..] == y;
    } else {
      LongSuffix(connId, x, y);
    }
  }

  /** The client picks the right tunnel exactly when no earlier one is taken for it. */
  lemma ResolvesIffUnshadowed(connId: string, tunnels: seq<ClientTunnel>, i: nat)
    requires Generated(connId) && i < |tunnels|
    ensures FirstMatch(tunnels, TunnelId(connId, tunnels[i].subdomain)) == Some(i)
            <==> forall j | 0 <= j < i :: !Shadows(connId, tunnels[j].subdomain, tunnels[i].subdomain)
  {
    var target := TunnelId(connId, tunnels[i].subdomain);
    var r := FirstMatch(tunnels, target);
    SuffixIffShadows(connId, tunnels[i].subdomain, tunnels[i].subdomain);
    assert r.Some? && r.value <= i;
    SuffixIffShadows(connId, tunnels[r.value].subdomain, tunnels[i].subdomain);
    if r == Some(i) {
      forall j | 0 <= j < i
        ensures !Shadows(connId, tunnels[j].subdomain, tunnels[i].subdomain)
      {
        SuffixIffShadows(connId, tunnels[j].subdomain, tunnels[i].subdomain);
      }
    }
  }

  /** With a dash in a subdomain the wrong tunnel can win, whatever the connection. */
  lemma DashedSubdomainsCanCross(connId: string)
    requires Generated(connId)
    ensures FirstMatch([ClientTunnel("b", 1), ClientTunnel("a-b", 2)], TunnelId(connId, "a-b")) == Some(0)
  {
    var tunnels := [ClientTunnel("b", 1), ClientTunnel("a-b", 2)];
    assert "a-b"[1..] == "-b" == "-" + "b";
    assert Shadows(connId, tunnels[0].subdomain, tunnels[1].subdomain);
    SuffixIffShadows(connId, "b", "a-b");
  }

  predicate DashFree(tunnels: seq<ClientTunnel>) {
    forall i | 0 <= i < |tunnels| :: '-' !in tunnels[i].subdomain
  }

  /** Different subdomains without dashes do not shadow each other. */
  lemma UnshadowedWithoutDashes(connId: string, x: string, y: string)
    requires Generated(connId) && x != y && '-' !in x && '-' !in y
    ensures !Shadows(connId, x, y)
  {
    assert ("-" + x)[0] == '-';
    if |x| < |y| {
      assert y[|y| - |x| - 1..][0] in y;
    }
    assert (connId[5..] + "-" + y)[|connId| - 5] == '-';
  }
}
