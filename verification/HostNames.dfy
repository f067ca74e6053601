/**
 From the Host header to the subdomain: the proxy drops a port, white space and
 letter case, and takes the one label before the public name.
 */
module HostNames {
  import opened Text
  import opened Strings
  import R = Registry

  // ---------------------------------------------------------------------------
  // Ports

  /** `strconv.Atoi` succeeds: an optional sign and digits that fit in 64 bits. */
  predicate IsInt(s: string) {
    var negative := s != "" && s[0] == '-';
    var digits := if s != "" && (s[0] == '-' || s[0] == '+') then s[1..] else s;
    && digits != "" && AllDigits(digits)
    && Value(digits) <= if negative then R.TWO63 else R.TWO63 - 1
  }

  function StripPort(host: string): string {
    var colon := LastColon(host);
    if colon.Some? && IsInt(host[colon.value + 1..]) then host[..colon.value] else host
  }

  lemma DigitsAreIntIff(d: string)
    requires d != "" && AllDigits(d)
    ensures IsInt(d) <==> Value(d) < 0x8000_0000_0000_0000
    ensures IsInt("+" + d) <==> Value(d) < 0x8000_0000_0000_0000
    ensures IsInt("-" + d) <==> Value(d) <= 0x8000_0000_0000_0000
  {
    assert ("+" + d)[1..] == d && ("-" + d)[1..] == d;
    assert IsDigit(d[0]);
  }

  /** Decimal numbers are accepted, with a sign or without, exactly if they fit in 64 bits. */
  lemma DecimalIsIntIff(n: nat)
    ensures IsInt(Decimal(n)) <==> n < 0x8000_0000_0000_0000
    ensures IsInt("+" + Decimal(n)) <==> n < 0x8000_0000_0000_0000
    ensures IsInt("-" + Decimal(n)) <==> n <= 0x8000_0000_0000_0000
  {
    ValueOfDecimal(n);
    DigitsAreIntIff(Decimal(n));
  }

  /** Nothing else than digits is, but for a sign in front of them. */
  lemma IntsAreNumeric(s: string)
    requires IsInt(s)
    ensures s != "" && (IsDigit(s[0]) || ((s[0] == '+' || s[0] == '-') && |s| > 1))
    ensures forall i | 0 < i < |s| :: IsDigit(s[i])
  {
    var signed := s[0] == '-' || s[0] == '+';
    var digits := if signed then s[1..] else s;
    assert s == (if signed then [s[0]] else []) + digits;
    assert forall i | 0 <= i < |digits| :: IsDigit(digits[i]);
  }

  /** A port is stripped. */
  lemma PortIsStripped(host: string, port: string)
    requires IsInt(port)
    ensures StripPort(host + ":" + port) == host
  {
    var s := host + ":" + port;
    IntsAreNumeric(port);
    assert s[|host| + 1..] == port && s[..|host|] == host;
    LastColonAt(s, |host|);
  }

  /** So is every port number. */
  lemma PortNumberIsStripped(host: string, port: nat)
    requires port < 65536
    ensures StripPort(host + ":" + Decimal(port)) == host
  {
    DecimalIsIntIff(port);
    PortIsStripped(host, Decimal(port));
  }

  /** Without a colon, or with something else than digits after the last one, nothing is. */
  lemma OtherHostsStay(host: string, rest: string)
    requires ':' !in rest && (rest == "" || exists i :: 0 < i < |rest| && !IsDigit(rest[i]))
    ensures StripPort(host + ":" + rest) == host + ":" + rest
    ensures StripPort(rest) == rest
  {
    var s := host + ":" + rest;
    assert s[|host| + 1..] == rest;
    LastColonAt(s, |host|);
    if IsInt(rest) {
      IntsAreNumeric(rest);
      assert false;
    }
  }

  /** Numbers have no letters, so only the same number differs from one in letter case at most. */
  lemma IntHasOneForm(s: string, t: string)
    requires EqualFold(s, t) && IsInt(s)
    ensures s == t
  {
    IntsAreNumeric(s);
    forall i | 0 <= i < |s|
      ensures s[i] == t[i]
    {
      OneForm(s[i], t[i]);
    }
  }

  lemma FoldsBack(s: string, t: string)
    requires EqualFold(s, t)
    ensures EqualFold(t, s)
  {
    ToLowerIff(s, t);
    ToLowerIff(t, s);
  }

  lemma ColonsStay(s: string, t: string)
    requires EqualFold(s, t)
    ensures LastColon(s) == LastColon(t)
  {
    forall i | 0 <= i < |s|
      ensures s[i] == ':' <==> t[i] == ':'
    {
      LowerCharIff(s[i], t[i]);
    }
    var r := LastColon(s);
    if r.Some? {
      assert forall i | r.value < i < |s| :: s[i] == s[r.value + 1..][i - r.value - 1];
      assert ':' !in t[r.value + 1..];
      LastColonAt(t, r.value);
    } else {
      assert ':' !in t;
    }
  }

  lemma IntFolds(s: string, t: string)
    requires EqualFold(s, t)
    ensures IsInt(s) <==> IsInt(t)
  {
    FoldsBack(s, t);
    if IsInt(s) {
      IntHasOneForm(s, t);
    } else if IsInt(t) {
      IntHasOneForm(t, s);
    }
  }

  lemma PartsFold(s: string, t: string, i: nat)
    requires EqualFold(s, t) && i < |s|
    ensures EqualFold(s[..i], t[..i]) && EqualFold(s[i + 1..], t[i + 1..])
  {
  }

  lemma StripPortFolds(s: string, t: string)
    requires EqualFold(s, t)
    ensures EqualFold(StripPort(s), StripPort(t))
  {
    ColonsStay(s, t);
    var colon := LastColon(s);
    if colon.Some? {
      PartsFold(s, t, colon.value);
      IntFolds(s[colon.value + 1..], t[colon.value + 1..]);
    }
  }

  // ---------------------------------------------------------------------------
  // Subdomains

  /** `extractSubdomain`. */
  function ExtractSubdomain(host: string, publicHostname: string): string {
    var h := ToLower(TrimSpace(StripPort(host)));
    var p := ToLower(TrimSpace(publicHostname));
    if p == "" then ""
    else if !HasSuffix(h, "." + p) then ""
    else
      var sub := h[..|h| - |p| - 1];
      if sub == "" || '.' in sub then "" else sub
  }

  /** What comes out is the one label before the lower-case public name. */
  lemma ExtractsLabel(h: string, p: string, sub: string)
    requires sub != ""
    ensures (HasSuffix(h, "." + p) && h[..|h| - |p| - 1] == sub) <==> h == sub + "." + p
  {
    if HasSuffix(h, "." + p) {
      assert h == h[..|h| - |p| - 1] + ("." + p);
    }
    if h == sub + "." + p {
      assert h[|h| - |p| - 1..] == "." + p && h[..|h| - |p| - 1] == sub;
    }
  }

  lemma FoldsToLabel(h: string, sub: string, p: string)
    ensures ToLower(h) == sub + "." + ToLower(p) <==> NoCapitals(sub) && EqualFold(h, sub + "." + p)
  {
    ToLowerIsSmall(sub);
    ToLowerIsSmall(h);
    LowerOfParts(sub + ".", p);
    LowerOfParts(sub, ".");
    assert ToLower(".") == ".";
    ToLowerIff(h, sub + "." + p);
    if ToLower(h) == sub + "." + ToLower(p) {
      assert forall i | 0 <= i < |sub| :: sub[i] == ToLower(h)[i];
    }
  }

  /**
   A subdomain comes out exactly when it is one label without capitals, and the
   host, without its port and surrounding white space, differs at most in letter
   case from that label, a dot, and the public name without surrounding white
   space.
   */
  lemma ExtractIff(host: string, publicHostname: string, sub: string)
    requires sub != ""
    ensures ExtractSubdomain(host, publicHostname) == sub
            <==> && TrimSpace(publicHostname) != "" && '.' !in sub && NoCapitals(sub)
                 && EqualFold(TrimSpace(StripPort(host)), sub + "." + TrimSpace(publicHostname))
  {
    var h, p := TrimSpace(StripPort(host)), TrimSpace(publicHostname);
    ExtractsLabel(ToLower(h), ToLower(p), sub);
    FoldsToLabel(h, sub, p);
  }

  /** Hosts and public names that differ in letter case at most give the same subdomain. */
  lemma CaseMakesNoDifference(host: string, host': string, publicHostname: string, publicHostname': string)
    requires EqualFold(host, host') && EqualFold(publicHostname, publicHostname')
    ensures ExtractSubdomain(host, publicHostname) == ExtractSubdomain(host', publicHostname')
  {
    StripPortFolds(host, host');
    TrimSpaceFolds(StripPort(host), StripPort(host'));
    ToLowerIff(TrimSpace(StripPort(host)), TrimSpace(StripPort(host')));
    TrimSpaceFolds(publicHostname, publicHostname');
    ToLowerIff(TrimSpace(publicHostname), TrimSpace(publicHostname'));
  }

  /** The host names the subdomain under the public name, in whatever letter case. */
  ghost predicate Names(host: string, sub: string, publicHostname: string) {
    var p := TrimSpace(publicHostname);
    && p != "" && ':' !in p
    && sub != "" && '.' !in sub && ':' !in sub && sub[0] !in SPACES && NoCapitals(sub)
    && EqualFold(host, sub + "." + p)
  }

  lemma NamedHostIsTidy(host: string, sub: string, publicHostname: string)
    requires Names(host, sub, publicHostname)
    ensures ':' !in host && Tidy(host)
  {
    var p := TrimSpace(publicHostname);
    var n := sub + "." + p;
    var a, b := TrimSpaceParts(publicHostname);
    forall i | 0 <= i < |host|
      ensures (host[i] == ':' <==> n[i] == ':') && (host[i] in SPACES <==> n[i] in SPACES)
    {
      LowerCharIff(host[i], n[i]);
      SpaceHasOneForm(host[i], n[i]);
      IsSpaceIff(host[i]);
      IsSpaceIff(n[i]);
    }
    assert n[0] == sub[0] && n[|n| - 1] == p[|p| - 1];
    assert ':' !in n;
  }

  lemma TidyStays(t: string)
    requires Tidy(t)
    ensures TrimSpace(t) == t
  {
    assert "" + t + "" == t;
    TrimmedOff("", t, "");
  }

  /** A host that names the subdomain yields it, with a numeric port or without. */
  lemma NamedHostExtracts(host: string, sub: string, publicHostname: string, port: string)
    requires Names(host, sub, publicHostname)
    ensures ExtractSubdomain(host, publicHostname) == sub
    ensures IsInt(port) ==> ExtractSubdomain(host + ":" + port, publicHostname) == sub
  {
    NamedHostIsTidy(host, sub, publicHostname);
    TidyStays(host);
    assert StripPort(host) == host;
    ExtractIff(host, publicHostname, sub);
    if IsInt(port) {
      PortIsStripped(host, port);
      ExtractIff(host + ":" + port, publicHostname, sub);
    }
  }

  lemma FoldsToItself(s: string)
    ensures EqualFold(s, s)
  {
  }

  /** Every label without capitals and without leading white space is reached by a Host header. */
  lemma ServableIsExtracted(sub: string, publicHostname: string)
    requires TrimSpace(publicHostname) != ""
    requires sub != "" && NoCapitals(sub) && '.' !in sub && sub[0] !in SPACES
    ensures ExtractSubdomain(sub + "." + TrimSpace(publicHostname) + ":" + "0", publicHostname) == sub
  {
    var p := TrimSpace(publicHostname);
    var h := sub + "." + p;
    var a, b := TrimSpaceParts(publicHostname);
    assert h[0] == sub[0] && h[|h| - 1] == p[|p| - 1];
    TidyStays(h);
    DecimalIsIntIff(0);
    assert Decimal(0) == "0";
    PortIsStripped(h, "0");
    FoldsToItself(h);
    ExtractIff(h + ":" + "0", publicHostname, sub);
  }

  /** No Host header reaches any other subdomain, although the registry accepts them. */
  lemma OnlyServableExtracted(host: string, sub: string, publicHostname: string)
    requires sub != "" && ExtractSubdomain(host, publicHostname) == sub
    ensures TrimSpace(publicHostname) != "" && NoCapitals(sub) && '.' !in sub && sub[0] !in SPACES
  {
    ExtractIff(host, publicHostname, sub);
    var t := TrimSpace(StripPort(host));
    var a, b := TrimSpaceParts(StripPort(host));
    var n := sub + "." + TrimSpace(publicHostname);
    assert n[0] == sub[0];
    SpaceHasOneForm(t[0], n[0]);
    IsSpaceIff(t[0]);
    IsSpaceIff(n[0]);
  }
}
