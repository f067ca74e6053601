/** Tunnel IDs: the server builds them as connection ID, dash, subdomain. */
module TunnelIds {
  import opened Text

  function TunnelId(connId: string, subdomain: string): string {
    connId + "-" + subdomain
  }

  /** A connection ID the server makes up: "conn-" and a decimal number of nanoseconds. */
  predicate Generated(connId: string) {
    |connId| > 5 && connId[..5] == "conn-" && AllDigits(connId[5..])
  }

  lemma GeneratedFromClock(nanos: nat)
    ensures Generated("conn-" + Decimal(nanos))
  {
    ValueOfDecimal(nanos);
    var c := "conn-" + Decimal(nanos);
    assert c[..5] == "conn-" && c[5..] == Decimal(nanos);
  }

  lemma PrefixOfCollision(a: string, x: string, b: string, y: string)
    requires TunnelId(a, x) == TunnelId(b, y)
    ensures |a| < |b| ==> a + "-" <= b
  {
    var id := TunnelId(a, x);
    assert id[..|a| + 1] == a + "-" && id[..|b|] == b;
    if |a| < |b| {
      assert id[..|b|][..|a| + 1] == id[..|a| + 1];
    }
  }

  lemma CollisionFromPrefix(a: string, b: string)
    requires a + "-" <= b
    ensures TunnelId(a, b[|a| + 1..] + "-") == TunnelId(b, "")
  {
    assert b == a + "-" + b[|a| + 1..];
  }

  /** Two connection IDs can yield the same tunnel ID exactly when one of them, with a dash, starts the other. */
  lemma CollideIff(a: string, b: string)
    requires a != b
    ensures (exists x, y :: TunnelId(a, x) == TunnelId(b, y)) <==> a + "-" <= b || b + "-" <= a
  {
    if x, y :| TunnelId(a, x) == TunnelId(b, y) {
      PrefixOfCollision(a, x, b, y);
      PrefixOfCollision(b, y, a, x);
      assert a == TunnelId(a, x)[..|a|] && b == TunnelId(b, y)[..|b|];
    }
    if a + "-" <= b {
      CollisionFromPrefix(a, b);
    }
    if b + "-" <= a {
      CollisionFromPrefix(b, a);
    }
  }

  lemma GeneratedNotPrefix(a: string, b: string)
    requires Generated(a) && Generated(b)
    ensures !(a + "-" <= b)
  {
    if |a| < |b| {
      assert IsDigit(b[5..][|a| - 5]);
      assert b[|a|] != '-' && (a + "-")[|a|] == '-';
    }
  }

  /** For IDs the server makes up, the tunnel ID determines connection and subdomain, dashes or not. */
  lemma GeneratedDecodable(a: string, x: string, b: string, y: string)
    requires Generated(a) && Generated(b) && TunnelId(a, x) == TunnelId(b, y)
    ensures a == b && x == y
  {
    PrefixOfCollision(a, x, b, y);
    PrefixOfCollision(b, y, a, x);
    GeneratedNotPrefix(a, b);
    GeneratedNotPrefix(b, a);
    assert a == TunnelId(a, x)[..|a|] && b == TunnelId(b, y)[..|b|];
    assert x == TunnelId(a, x)[|a| + 1..] && y == TunnelId(b, y)[|b| + 1..];
  }

  /** Connection IDs chosen by clients can collide. */
  lemma ChosenIdsCollide()
    ensures TunnelId("a", "b-c") == TunnelId("a-b", "c")
  {
    assert "a" + "-" + "b-c" == "a-b-c" == "a-b" + "-" + "c";
  }
}
