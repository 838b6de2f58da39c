/** Address rules of a user: normalisation and containment (internal/policy/policy.go).
    Addresses are values; the text forms of net/netip are not part of this model. */
module IpRules {
  import opened Wrappers

  /** An address: IPv4, or IPv6 with an optional zone ("" when absent). */
  datatype Addr = V4(n: nat) | V6(n: nat, zone: string)

  function Pow2(k: nat): (p: nat)
    ensures p >= 1
  {
    if k == 0 then 1 else 2 * Pow2(k - 1)
  }

  const TWO_32: nat := 0x1_0000_0000

  function BitLen(a: Addr): nat { if a.V4? then 32 else 128 }

  predicate WellFormed(a: Addr) { a.n < Pow2(BitLen(a)) }

  /** ::ffff:0:0/96, the IPv4-mapped block of section 2.5.5.2 of RFC 4291. */
  predicate Is4In6(a: Addr) { a.V6? && a.n / TWO_32 == 0xffff }

  function Unmap(a: Addr): Addr { if Is4In6(a) then V4(a.n % TWO_32) else a }

  /** A stored rule. PrefixFrom with an out-of-range length gives the invalid prefix. */
  datatype Rule = Prefix(addr: Addr, bits: nat) | InvalidPrefix

  /** What netip made of one written part: a prefix (never with a zone), an address, or neither. */
  datatype Part = PrefixPart(addr: Addr, bits: nat) | AddrPart(addr: Addr) | BadPart

  predicate WellFormedPart(p: Part) {
    match p
    case PrefixPart(a, b) => WellFormed(a) && b <= BitLen(a) && (a.V6? ==> a.zone == "")
    case AddrPart(a) => WellFormed(a)
    case BadPart => true
  }

  function WithoutZone(a: Addr): Addr { if a.V6? then V6(a.n, "") else a }

  /** The largest multiple of `m` that is at most `n`. */
  function RoundedDown(n: nat, m: nat): (r: nat)
    requires m > 0
    ensures r == n / m * m
  {
    n - n % m
  }

  function MaskNumber(n: nat, len: nat, bits: nat): nat
    requires bits <= len
  {
    RoundedDown(n, Pow2(len - bits))
  }

  /** netip.PrefixFrom(a, bits).Masked(). */
  function Masked(a: Addr, bits: int): Rule {
    if bits < 0 || bits > BitLen(a) then InvalidPrefix
    else
      var n := MaskNumber(a.n, BitLen(a), bits);
      Prefix(if a.V4? then V4(n) else V6(n, ""), bits)
  }

  function Normalize(p: Part): Rule
    requires !p.BadPart?
  {
    match p
    case PrefixPart(a, b) => Masked(Unmap(a), if Is4In6(a) then b - 96 else b)
    case AddrPart(a) => Prefix(WithoutZone(Unmap(a)), BitLen(Unmap(a)))
  }

  /** netip.Prefix.Contains: same family, no zone, equal leading bits. */
  predicate Contains(r: Rule, a: Addr) {
    && r.Prefix?
    && r.addr.V4? == a.V4?
    && (a.V6? ==> a.zone == "")
    && r.bits <= BitLen(a)
    && a.n / Pow2(BitLen(a) - r.bits) == r.addr.n / Pow2(BitLen(a) - r.bits)
  }

  predicate IPBlocked(rules: seq<Rule>, a: Addr) {
    exists r :: r in rules && Contains(r, Unmap(a))
  }

  // ---------------------------------------------------------------- written meaning

  /** Every address as the 128-bit number IPv6 gives it. */
  function Embed(a: Addr): nat { if a.V4? then 0xffff * TWO_32 + a.n else a.n }

  predicate LeadingBitsAgree(x: nat, y: nat, bits: nat)
    requires bits <= 128
  {
    x / Pow2(128 - bits) == y / Pow2(128 - bits)
  }

  /** The length of the written rule, counted on 128 bits. */
  function WrittenBits(p: Part): (b: nat)
    requires WellFormedPart(p) && !p.BadPart?
    ensures b <= 128
  {
    var b := if p.PrefixPart? then p.bits else BitLen(p.addr);
    if p.addr.V4? then 96 + b else b
  }

  /** The written rule covers `a`: the families agree, `a` carries no zone, and the leading bits
      agree on 128 bits (section 3.1 of RFC 4632). */
  predicate Denotes(p: Part, a: Addr)
    requires WellFormedPart(p)
  {
    && !p.BadPart?
    && Unmap(p.addr).V4? == Unmap(a).V4?
    && (Unmap(a).V6? ==> a.zone == "")
    && LeadingBitsAgree(Embed(p.addr), Embed(a), WrittenBits(p))
  }

  predicate ShortMapped(p: Part) { p.PrefixPart? && Is4In6(p.addr) && p.bits < 96 }

  // ---------------------------------------------------------------- arithmetic

  lemma {:induction false} Pow2Split(j: nat, k: nat)
    ensures Pow2(j + k) == Pow2(j) * Pow2(k)
  {
    if j > 0 {
      Pow2Split(j - 1, k);
      assert Pow2(j + k) == 2 * (Pow2(j - 1) * Pow2(k));
    }
  }

  lemma DivOfSum(c: nat, m: nat, y: nat)
    requires m > 0
    ensures (c * m + y) / m == c + y / m
  {
    var q, r := y / m, y % m;
    assert c * m + y == (c + q) * m + r;
    QuotientUnique(c * m + y, m, c + q, r);
  }

  lemma ProductBounds(d: int, m: int)
    requires m >= 0
    ensures d >= 1 ==> d * m >= m
    ensures d <= -1 ==> d * m <= -m
  {
    if d >= 1 { assert d * m == (d - 1) * m + m; }
    if d <= -1 { assert d * m == (d + 1) * m - m; }
  }

  lemma QuotientUnique(x: nat, m: nat, q: nat, r: nat)
    requires m > 0 && x == q * m + r && r < m
    ensures x / m == q
  {
    var d := x / m - q;
    assert x == (x / m) * m + x % m;
    assert d * m == r - x % m;
    ProductBounds(d, m);
  }

  lemma MultipleQuotient(n: nat, m: nat)
    requires m > 0
    ensures n / m * m / m == n / m
  {
    QuotientUnique(n / m * m, m, n / m, 0);
  }

  lemma MaskedQuotient(n: nat, len: nat, bits: nat)
    requires bits <= len
    ensures MaskNumber(n, len, bits) / Pow2(len - bits) == n / Pow2(len - bits)
  {
    MultipleQuotient(n, Pow2(len - bits));
  }

  lemma EmbedUnmap(a: Addr)
    ensures Embed(Unmap(a)) == Embed(a)
  {
  }

  lemma AgreeAbove(base: nat, c: nat, m: nat, x: nat, y: nat)
    requires m > 0 && base == c * m
    ensures (base + x) / m == (base + y) / m <==> x / m == y / m
  {
    DivOfSum(c, m, x);
    DivOfSum(c, m, y);
  }

  lemma Regroup(k: nat, p: nat, m: nat, whole: nat)
    requires whole == p * m
    ensures k * whole == (k * p) * m
  {
  }

  lemma LowPartDivides(x: nat, y: nat, b: nat, top: nat)
    requires b <= top
    ensures (0xffff * Pow2(top) + x) / Pow2(top - b) == (0xffff * Pow2(top) + y) / Pow2(top - b)
            <==> x / Pow2(top - b) == y / Pow2(top - b)
  {
    var m := Pow2(top - b);
    Pow2Split(b, top - b);
    Regroup(0xffff, Pow2(b), m, Pow2(top));
    AgreeAbove(0xffff * Pow2(top), 0xffff * Pow2(b), m, x, y);
  }

  lemma MappedBlockShared(x: nat, y: nat, bits: nat)
    requires bits < 96 && x < TWO_32 && y < TWO_32
    ensures LeadingBitsAgree(0xffff * TWO_32 + x, 0xffff * TWO_32 + y, bits)
  {
    Pow2Of32();
    Pow2Split(96 - bits, 32);
    QuotientByProduct(0xffff, TWO_32, x, Pow2(96 - bits));
    QuotientByProduct(0xffff, TWO_32, y, Pow2(96 - bits));
  }

  lemma QuotientByProduct(c: nat, m: nat, x: nat, k: nat)
    requires m > 0 && k > 0 && x < m
    ensures k * m > 0
    ensures (c * m + x) / (k * m) == c / k
  {
    var q, r := c / k, c % k;
    assert c == q * k + r;
    assert c * m == q * (k * m) + r * m;
    assert r * m + x < k * m by {
      assert (r + 1) * m <= k * m;
      assert (r + 1) * m == r * m + m;
    }
    assert k * m > 0;
    QuotientUnique(c * m + x, k * m, q, r * m + x);
  }

  // ---------------------------------------------------------------- meaning

  lemma MaskedContains(w: Addr, bits: nat, t: Addr)
    requires bits <= BitLen(w) && w.V4? == t.V4?
    ensures Contains(Masked(w, bits), t) <==>
            (t.V6? ==> t.zone == "") && t.n / Pow2(BitLen(w) - bits) == w.n / Pow2(BitLen(w) - bits)
  {
    MaskedQuotient(w.n, BitLen(w), bits);
  }

  lemma Pow2Of32()
    ensures Pow2(32) == TWO_32
  {
    assert Pow2(4) == 16;
    Pow2Split(4, 4);
    Pow2Split(8, 8);
    Pow2Split(16, 16);
  }

  lemma V4LeadingBits(w: Addr, t: Addr, bits: nat)
    requires w.V4? && t.V4? && bits <= 32
    ensures LeadingBitsAgree(Embed(w), Embed(t), 96 + bits) <==> w.n / Pow2(32 - bits) == t.n / Pow2(32 - bits)
  {
    Pow2Of32();
    LowPartDivides(w.n, t.n, bits, 32);
    assert 128 - (96 + bits) == 32 - bits;
  }

  /** The stored length, once a mapped rule has been shortened by 96. */
  function StoredBits(p: Part): nat
    requires WellFormedPart(p) && !p.BadPart? && !ShortMapped(p)
  {
    if p.AddrPart? then BitLen(Unmap(p.addr)) else if Is4In6(p.addr) then p.bits - 96 else p.bits
  }

  lemma NormalizedContains(p: Part, t: Addr)
    requires WellFormedPart(p) && !p.BadPart? && !ShortMapped(p)
    ensures StoredBits(p) <= BitLen(Unmap(p.addr))
    ensures Contains(Normalize(p), t) <==> Contains(Masked(Unmap(p.addr), StoredBits(p)), t)
  {
    var w := Unmap(p.addr);
    MaskedQuotient(w.n, BitLen(w), StoredBits(p));
  }

  lemma V4RuleMeaning(p: Part, a: Addr)
    requires WellFormedPart(p) && !p.BadPart? && !ShortMapped(p)
    requires Unmap(p.addr).V4? && Unmap(a).V4?
    ensures Contains(Masked(Unmap(p.addr), StoredBits(p)), Unmap(a)) <==> Denotes(p, a)
  {
    var w, t, b := Unmap(p.addr), Unmap(a), StoredBits(p);
    EmbedUnmap(p.addr);
    EmbedUnmap(a);
    assert WrittenBits(p) == 96 + b;
    MaskedContains(w, b, t);
    V4LeadingBits(w, t, b);
  }

  lemma V6RuleMeaning(p: Part, a: Addr)
    requires WellFormedPart(p) && !p.BadPart? && !ShortMapped(p)
    requires Unmap(p.addr).V6? && Unmap(a).V6?
    ensures Contains(Masked(Unmap(p.addr), StoredBits(p)), Unmap(a)) <==> Denotes(p, a)
  {
    MaskedContains(p.addr, StoredBits(p), a);
  }

  /** For every well-formed written rule that is not a short mapped prefix, the stored rule
      contains exactly the addresses the written one covers. */
  lemma NormalizeKeepsMeaning(p: Part, a: Addr)
    requires WellFormedPart(p) && !p.BadPart? && WellFormed(a) && !ShortMapped(p)
    ensures Contains(Normalize(p), Unmap(a)) <==> Denotes(p, a)
  {
    NormalizedContains(p, Unmap(a));
    if Unmap(p.addr).V4? && Unmap(a).V4? {
      V4RuleMeaning(p, a);
    } else if Unmap(p.addr).V6? && Unmap(a).V6? {
      V6RuleMeaning(p, a);
    }
  }

  /** A short mapped prefix is stored as a rule that contains nothing, although as written it
      covers every IPv4 address. */
  lemma ShortMappedIsDropped(p: Part, a: Addr)
    requires WellFormedPart(p) && ShortMapped(p) && WellFormed(a)
    ensures !Contains(Normalize(p), Unmap(a))
    ensures Unmap(a).V4? ==> Denotes(p, a)
  {
    if Unmap(a).V4? {
      EmbedUnmap(p.addr);
      EmbedUnmap(a);
      Pow2Of32();
      MappedBlockShared(Unmap(p.addr).n, Unmap(a).n, p.bits);
    }
  }

  ghost predicate MeaningKept(p: Part)
    requires WellFormedPart(p) && !p.BadPart?
  {
    forall a :: WellFormed(a) ==> (Contains(Normalize(p), Unmap(a)) <==> Denotes(p, a))
  }

  /** Exactly the short mapped prefixes lose their meaning. */
  lemma MeaningKeptIff(p: Part)
    requires WellFormedPart(p) && !p.BadPart?
    ensures MeaningKept(p) <==> !ShortMapped(p)
  {
    if ShortMapped(p) {
      ShortMappedIsDropped(p, V4(0));
      assert WellFormed(V4(0)) && Unmap(V4(0)) == V4(0);
    } else {
      forall a | WellFormed(a) ensures Contains(Normalize(p), Unmap(a)) <==> Denotes(p, a) {
        NormalizeKeepsMeaning(p, a);
      }
    }
  }

  lemma Pow2Of128()
    ensures 0xffff * TWO_32 < Pow2(128)
  {
    Pow2Of32();
    Pow2Split(32, 96);
    Pow2Split(32, 64);
    assert Pow2(96) >= TWO_32;
  }

  /** ::ffff:0:0/95 is accepted and covers 0.0.0.0 as written, yet does not block it. */
  lemma ShortMappedExample() returns (p: Part)
    ensures p == PrefixPart(V6(0xffff * TWO_32, ""), 95) && WellFormedPart(p) && ShortMapped(p)
    ensures WellFormed(V4(0)) && Denotes(p, V4(0)) && !IPBlocked([Normalize(p)], V4(0))
  {
    p := PrefixPart(V6(0xffff * TWO_32, ""), 95);
    Pow2Of128();
    ShortMappedIsDropped(p, V4(0));
  }

  // ---------------------------------------------------------------- the whole list

  ghost predicate AllReadable(parts: seq<Part>) { forall p :: p in parts ==> !p.BadPart? }

  ghost predicate NormalizesOneOf(parts: seq<Part>, r: Rule)
    requires AllReadable(parts)
  {
    exists p :: p in parts && Normalize(p) == r
  }

  /** The loop of ParseIPRules; the order of the listing is left open, since no consumer of the
      rules depends on it. */
  method ParseIPRules(parts: seq<Part>) returns (result: Option<seq<Rule>>)
    ensures result.None? <==> !AllReadable(parts)
    ensures result.Some? ==> NoDuplicates(result.value)
    ensures result.Some? ==> forall r :: r in result.value <==> NormalizesOneOf(parts, r)
  {
    var seen: set<Rule> := {};
    var listed: seq<Rule> := [];
    for i := 0 to |parts|
      invariant AllReadable(parts[..i])
      invariant NoDuplicates(listed)
      invariant forall r :: r in listed <==> r in seen
      invariant forall r :: r in seen <==> NormalizesOneOf(parts[..i], r)
    {
      assert parts[i] in parts && parts[..i + 1] == parts[..i] + [parts[i]];
      if parts[i].BadPart? { return None; }
      var rule := Normalize(parts[i]);
      ghost var before := seen;
      if rule !in seen {
        seen := seen + {rule};
        listed := listed + [rule];
      }
      forall r ensures r in seen <==> NormalizesOneOf(parts[..i + 1], r) {
        OneMoreRule(parts[..i], parts[i], r);
        assert r in seen <==> r in before || r == rule;
      }
    }
    assert parts[..|parts|] == parts;
    return Some(listed);
  }

  lemma OneMoreRule(parts: seq<Part>, part: Part, r: Rule)
    requires AllReadable(parts) && !part.BadPart?
    ensures AllReadable(parts + [part])
    ensures NormalizesOneOf(parts + [part], r) <==> NormalizesOneOf(parts, r) || Normalize(part) == r
  {
    if NormalizesOneOf(parts, r) {
      var q :| q in parts && Normalize(q) == r;
      assert q in parts + [part];
    }
    assert part in parts + [part];
  }

  /** The stored rules block an address exactly when a written rule covers it, provided no rule
      is a short mapped prefix. */
  lemma ParsedRulesMeaning(parts: seq<Part>, rules: seq<Rule>, a: Addr)
    requires AllReadable(parts) && WellFormed(a)
    requires forall p :: p in parts ==> WellFormedPart(p) && !ShortMapped(p)
    requires forall r :: r in rules <==> NormalizesOneOf(parts, r)
    ensures IPBlocked(rules, a) <==> exists p :: p in parts && Denotes(p, a)
  {
    if IPBlocked(rules, a) {
      var r :| r in rules && Contains(r, Unmap(a));
      assert NormalizesOneOf(parts, r);
      var p :| p in parts && Normalize(p) == r;
      NormalizeKeepsMeaning(p, a);
    }
    if p :| p in parts && Denotes(p, a) {
      NormalizeKeepsMeaning(p, a);
      assert NormalizesOneOf(parts, Normalize(p));
      assert Normalize(p) in rules;
    }
  }
}
