/** Target authorisation, the unlocked step of Open between its two critical sections
    (internal/session/registry.go). */
module Target {
  import opened Wrappers
  import opened Model
  import opened IpRules
  import opened PortRules
  import opened SessionTable

  /** The trimmed destination: an address, a domain name to resolve, or neither. */
  datatype Host = Literal(addr: Addr) | Name | Unusable

  datatype Checked = Checked(candidates: seq<Addr>, pinned: Option<Addr>)

  /** What the outbound is held to: every resolved address, once, in canonical form, and for a name
      one of them as the pinned destination. */
  ghost predicate Covers(c: Checked, host: Host, lookup: Option<seq<Addr>>) {
    && c.candidates != []
    && NoDuplicates(c.candidates)
    && (host.Literal? ==> c.candidates == [Unmap(host.addr)] && c.pinned.None?)
    && (host.Name? ==>
          && lookup.Some?
          && (forall a :: a in c.candidates <==> exists x :: x in lookup.value && Unmap(x) == a)
          && c.pinned.Some? && c.pinned.value in c.candidates)
  }

  method AuthorizeTarget(user: User, port: int, host: Host, lookup: Option<seq<Addr>>)
    returns (result: Result<Checked, Reason>)
    ensures result.Ok? <==>
              && !PortBlocked(user.forbiddenPorts, port) && !host.Unusable?
              && (host.Literal? ==> !IPBlocked(user.forbiddenIPs, Unmap(host.addr)))
              && (host.Name? ==>
                    && lookup.Some? && lookup.value != []
                    && forall a :: a in lookup.value ==> !IPBlocked(user.forbiddenIPs, Unmap(a)))
    ensures result == Err(ForbiddenPort) <==> PortBlocked(user.forbiddenPorts, port)
    ensures result == Err(Destination) <==> !PortBlocked(user.forbiddenPorts, port) && host.Unusable?
    ensures result == Err(Dns) <==>
              !PortBlocked(user.forbiddenPorts, port) && host.Name? && (lookup.None? || lookup.value == [])
    ensures result.Err? ==> result.error in {ForbiddenPort, ForbiddenIp, Destination, Dns}
    ensures result.Ok? ==> Covers(result.value, host, lookup)
    ensures result.Ok? ==> PolicyReason(user.(disconnectIPs := []), V4(0), port, result.value.candidates).None?
  {
    if PortBlocked(user.forbiddenPorts, port) { return Err(ForbiddenPort); }
    if host.Literal? {
      var canonical := Unmap(host.addr);
      if IPBlocked(user.forbiddenIPs, canonical) { return Err(ForbiddenIp); }
      return Ok(Checked([canonical], None));
    }
    if host.Unusable? { return Err(Destination); }
    if lookup.None? || lookup.value == [] { return Err(Dns); }
    var addresses := Deduplicate(lookup.value);
    var i := 0;
    while i < |addresses|
      invariant 0 <= i <= |addresses|
      invariant forall j :: 0 <= j < i ==> !IPBlocked(user.forbiddenIPs, addresses[j])
    {
      if IPBlocked(user.forbiddenIPs, addresses[i]) {
        assert addresses[i] in addresses;
        return Err(ForbiddenIp);
      }
      i := i + 1;
    }
    forall a | a in lookup.value ensures !IPBlocked(user.forbiddenIPs, Unmap(a)) {
      assert Unmap(a) in addresses;
    }
    assert addresses != [] by { assert Unmap(lookup.value[0]) in addresses; }
    return Ok(Checked(addresses, Some(addresses[0])));
  }

  /** The loop with its `seen` map; the order of the text forms is left open. */
  method Deduplicate(resolved: seq<Addr>) returns (addresses: seq<Addr>)
    ensures NoDuplicates(addresses)
    ensures forall a :: a in addresses <==> exists x :: x in resolved && Unmap(x) == a
  {
    addresses := [];
    for i := 0 to |resolved|
      invariant NoDuplicates(addresses)
      invariant forall a :: a in addresses <==> exists x :: x in resolved[..i] && Unmap(x) == a
    {
      var canonical := Unmap(resolved[i]);
      assert resolved[..i + 1] == resolved[..i] + [resolved[i]];
      ghost var before := addresses;
      if canonical !in addresses { addresses := addresses + [canonical]; }
      forall a ensures a in addresses <==> exists x :: x in resolved[..i + 1] && Unmap(x) == a {
        assert a in addresses <==> a in before || a == canonical;
        if a in before {
          var x :| x in resolved[..i] && Unmap(x) == a;
          assert x in resolved[..i + 1];
        }
        if a == canonical { assert resolved[i] in resolved[..i + 1]; }
      }
    }
    assert resolved[..|resolved|] == resolved;
  }
}
