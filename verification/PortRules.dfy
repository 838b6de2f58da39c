/** Port rules of a user: how the panel text is read, normalised and matched
    (internal/policy/policy.go). */
module PortRules {
  import opened Wrappers
  import opened Text

  // ---------------------------------------------------------------- splitting

  predicate IsSeparator(c: char) {
    c == ',' || c == ';' || c == '\n' || c == '\r' || c == '\t' || c == ' '
  }

  predicate IsWord(s: string) { s != [] && forall i :: 0 <= i < |s| ==> !IsSeparator(s[i]) }

  function Flush(word: string): seq<string> { if word == [] then [] else [word] }

  function FieldsFrom(s: string, word: string): seq<string> {
    if s == [] then Flush(word)
    else if IsSeparator(s[0]) then Flush(word) + FieldsFrom(s[1..], [])
    else FieldsFrom(s[1..], word + [s[0]])
  }

  function Fields(s: string): seq<string> { FieldsFrom(s, []) }

  lemma {:induction false} FieldsAcrossSeparator(a: string, sep: char, b: string, word: string)
    requires IsSeparator(sep)
    ensures FieldsFrom(a + [sep] + b, word) == FieldsFrom(a, word) + Fields(b)
    decreases |a|
  {
    var s := a + [sep] + b;
    if a == [] {
      assert s[1..] == b;
    } else {
      assert s[1..] == a[1..] + [sep] + b;
      FieldsAcrossSeparator(a[1..], sep, b, if IsSeparator(a[0]) then [] else word + [a[0]]);
    }
  }

  lemma {:induction false} FieldsInsideWord(a: string, word: string)
    requires forall i :: 0 <= i < |a| ==> !IsSeparator(a[i])
    ensures FieldsFrom(a, word) == Flush(word + a)
    decreases |a|
  {
    if a == [] {
      assert word + a == word;
    } else {
      FieldsInsideWord(a[1..], word + [a[0]]);
      assert word + a == word + [a[0]] + a[1..];
    }
  }

  /** Splitting is compositional: a separator cuts, a word is kept whole. */
  lemma FieldsCompose(a: string, sep: char, b: string)
    requires IsSeparator(sep)
    ensures Fields(a + [sep] + b) == Fields(a) + Fields(b)
    ensures IsWord(a) ==> Fields(a) == [a]
  {
    FieldsAcrossSeparator(a, sep, b, []);
    if IsWord(a) {
      FieldsInsideWord(a, []);
      assert [] + a == a;
    }
  }

  /** strings.Split(s, "-"). */
  function SplitDash(s: string): (r: seq<string>)
    ensures |r| >= 1
  {
    if s == [] then [[]]
    else
      var rest := SplitDash(s[1..]);
      if s[0] == '-' then [[]] + rest else [[s[0]] + rest[0]] + rest[1..]
  }

  lemma {:induction false} SplitWithoutDash(s: string)
    requires '-' !in s
    ensures SplitDash(s) == [s]
  {
    if s != [] {
      SplitWithoutDash(s[1..]);
      assert s == [s[0]] + s[1..];
    }
  }

  lemma {:induction false} SplitAtDash(a: string, b: string)
    requires '-' !in a && '-' !in b
    ensures SplitDash(a + ['-'] + b) == [a, b]
  {
    var s := a + ['-'] + b;
    if a == [] {
      assert s[1..] == b;
      SplitWithoutDash(b);
    } else {
      assert s[1..] == a[1..] + ['-'] + b;
      SplitAtDash(a[1..], b);
      assert a == [a[0]] + a[1..];
    }
  }

  /** unicode.IsSpace. */
  predicate IsSpace(c: char) {
    var n := c as int;
    9 <= n <= 13 || n == 0x20 || n == 0x85 || n == 0xa0 || n == 0x1680 || 0x2000 <= n <= 0x200a ||
    n == 0x2028 || n == 0x2029 || n == 0x202f || n == 0x205f || n == 0x3000
  }

  function TrimSpace(s: string): string {
    if s == [] then []
    else if IsSpace(s[0]) then TrimSpace(s[1..])
    else if IsSpace(s[|s| - 1]) then TrimSpace(s[..|s| - 1])
    else s
  }

  // ---------------------------------------------------------------- one rule

  datatype PortRange = PortRange(first: int, last: int)

  predicate Legal(r: PortRange) { 1 <= r.first <= r.last <= 65535 }

  predicate InRange(p: int, r: PortRange) { r.first <= p <= r.last }

  function Port(text: string): Option<int> {
    var n := Atoi(TrimSpace(text));
    if n.None? || n.value < 1 || n.value > 65535 then None else n
  }

  /** The range one written rule stands for, or None where the parser refuses it. */
  function WrittenRange(part: string): (r: Option<PortRange>)
    ensures r.Some? ==> Legal(r.value)
  {
    var bounds := SplitDash(part);
    if |bounds| > 2 then None
    else
      var first := Port(bounds[0]);
      if first.None? then None
      else if |bounds| == 1 then Some(PortRange(first.value, first.value))
      else
        var last := Port(bounds[1]);
        if last.None? || last.value < first.value then None
        else Some(PortRange(first.value, last.value))
  }

  function Render(r: PortRange): string
    requires Legal(r)
  {
    if r.first == r.last then Itoa(r.first) else Itoa(r.first) + ['-'] + Itoa(r.last)
  }

  lemma {:induction false} DigitsAreClean(s: string)
    requires AllDigits(s) && s != []
    ensures '-' !in s && IsWord(s) && TrimSpace(s) == s
  {
    assert IsDigit(s[0]) && IsDigit(s[|s| - 1]);
  }

  lemma RenderedBounds(r: PortRange)
    requires Legal(r)
    ensures SplitDash(Render(r)) == if r.first == r.last then [Itoa(r.first)] else [Itoa(r.first), Itoa(r.last)]
    ensures Atoi(Itoa(r.first)) == Some(r.first) && Atoi(Itoa(r.last)) == Some(r.last)
    ensures Port(Itoa(r.first)) == Some(r.first) && Port(Itoa(r.last)) == Some(r.last)
    ensures IsWord(Render(r))
  {
    var a, b := Itoa(r.first), Itoa(r.last);
    DigitsAreClean(a);
    DigitsAreClean(b);
    AtoiOfItoa(r.first);
    AtoiOfItoa(r.last);
    SplitWithoutDash(a);
    SplitAtDash(a, b);
  }

  /** Rendering a range and reading it again gives the range back. */
  lemma RenderRoundTrip(r: PortRange)
    requires Legal(r)
    ensures WrittenRange(Render(r)) == Some(r)
  {
    RenderedBounds(r);
  }

  // ---------------------------------------------------------------- matching

  /** Whether one stored rule blocks a port; a rule whose numbers do not parse blocks every port. */
  predicate RuleBlocks(rule: string, port: int) {
    var bounds := SplitDash(rule);
    var first := Atoi(bounds[0]);
    if first.None? then true
    else if |bounds| != 2 then first.value <= port <= first.value
    else
      var last := Atoi(bounds[1]);
      last.None? || first.value <= port <= last.value
  }

  predicate PortBlocked(rules: seq<string>, port: int) {
    exists rule :: rule in rules && RuleBlocks(rule, port)
  }

  /** What the stored rules mean, never reached through the matcher's parse-error branches. */
  lemma RenderedRuleBlocks(r: PortRange, port: int)
    requires Legal(r)
    ensures RuleBlocks(Render(r), port) <==> InRange(port, r)
    ensures Atoi(SplitDash(Render(r))[0]).Some?
    ensures |SplitDash(Render(r))| == 2 ==> Atoi(SplitDash(Render(r))[1]).Some?
    ensures |SplitDash(Render(r))| <= 2
  {
    RenderedBounds(r);
  }

  // ---------------------------------------------------------------- the whole list

  ghost predicate AllLegal(parts: seq<string>) {
    forall part :: part in parts ==> WrittenRange(part).Some?
  }

  /** A text `t` is the normal form of some rule among `parts`. */
  ghost predicate RendersOneOf(parts: seq<string>, t: string)
    requires AllLegal(parts)
  {
    exists part :: part in parts && Render(WrittenRange(part).value) == t
  }

  /** What the parser must produce for a text: nothing when one rule is malformed, otherwise
      the sorted duplicate-free listing of the normal forms. */
  ghost predicate IsParse(value: string, result: Option<seq<string>>) {
    var parts := Fields(value);
    && (result.None? <==> !AllLegal(parts))
    && (result.Some? ==>
          && StrictlySorted(result.value)
          && forall t :: t in result.value <==> RendersOneOf(parts, t))
  }

  /** The loop of ParsePorts with its `seen` map, then the final sort. */
  method ParsePorts(value: string) returns (result: Option<seq<string>>)
    ensures IsParse(value, result)
  {
    var parts := Fields(value);
    var seen: set<string> := {};
    var listed: seq<string> := [];
    for i := 0 to |parts|
      invariant AllLegal(parts[..i])
      invariant forall t :: t in seen <==> RendersOneOf(parts[..i], t)
      invariant forall t :: t in listed <==> t in seen
    {
      assert parts[i] in parts && parts[..i + 1] == parts[..i] + [parts[i]];
      var range := WrittenRange(parts[i]);
      if range.None? { return None; }
      var normalized := Render(range.value);
      ghost var before := seen;
      if normalized !in seen {
        seen := seen + {normalized};
        listed := listed + [normalized];
      }
      forall t ensures t in seen <==> RendersOneOf(parts[..i + 1], t) {
        OneMorePart(parts[..i], parts[i], t);
        assert t in seen <==> t in before || t == normalized;
      }
    }
    assert parts[..|parts|] == parts;
    return Some(SortStrings(listed));
  }

  lemma OneMorePart(parts: seq<string>, part: string, t: string)
    requires AllLegal(parts) && WrittenRange(part).Some?
    ensures AllLegal(parts + [part])
    ensures RendersOneOf(parts + [part], t) <==> RendersOneOf(parts, t) || Render(WrittenRange(part).value) == t
  {
    if RendersOneOf(parts, t) {
      var q :| q in parts && Render(WrittenRange(q).value) == t;
      assert q in parts + [part];
    }
    assert part in parts + [part];
  }

  /** A text has only one parse. */
  lemma ParseUnique(value: string, r1: Option<seq<string>>, r2: Option<seq<string>>)
    requires IsParse(value, r1) && IsParse(value, r2)
    ensures r1 == r2
  {
    if r1.Some? {
      SortedListingUnique(r1.value, r2.value);
    }
  }

  /** Parsing keeps the meaning: a port is blocked by the stored rules exactly when it lies in
      a written port or range. */
  lemma ParsedPortsMeaning(value: string, rules: seq<string>, port: int)
    requires IsParse(value, Some(rules))
    ensures PortBlocked(rules, port) <==>
            exists part :: part in Fields(value) && InRange(port, WrittenRange(part).value)
  {
    var parts := Fields(value);
    if PortBlocked(rules, port) {
      var rule :| rule in rules && RuleBlocks(rule, port);
      assert RendersOneOf(parts, rule);
      var part :| part in parts && Render(WrittenRange(part).value) == rule;
      RenderedRuleBlocks(WrittenRange(part).value, port);
    }
    if part :| part in parts && InRange(port, WrittenRange(part).value) {
      var rule := Render(WrittenRange(part).value);
      RenderedRuleBlocks(WrittenRange(part).value, port);
      assert RendersOneOf(parts, rule);
      assert rule in rules;
    }
  }

  function Join(words: seq<string>): string {
    if words == [] then [] else if |words| == 1 then words[0]
    else words[0] + [','] + Join(words[1..])
  }

  lemma {:induction false} FieldsOfJoin(words: seq<string>)
    requires forall w :: w in words ==> IsWord(w)
    ensures Fields(Join(words)) == words
  {
    if |words| == 1 {
      assert words[0] in words;
      FieldsInsideWord(words[0], []);
      assert [] + words[0] == words[0];
    } else if words != [] {
      FieldsCompose(words[0], ',', Join(words[1..]));
      FieldsOfJoin(words[1..]);
      assert words == [words[0]] + words[1..];
    }
  }

  /** The normal form is a fixed point: written out again it parses to itself. */
  lemma ParsedPortsReparse(value: string, rules: seq<string>)
    requires IsParse(value, Some(rules))
    ensures IsParse(Join(rules), Some(rules))
  {
    var parts := Fields(value);
    forall t | t in rules ensures IsWord(t) && WrittenRange(t).Some? && Render(WrittenRange(t).value) == t {
      assert RendersOneOf(parts, t);
      var part :| part in parts && Render(WrittenRange(part).value) == t;
      RenderedBounds(WrittenRange(part).value);
      RenderRoundTrip(WrittenRange(part).value);
    }
    FieldsOfJoin(rules);
    forall t ensures t in rules <==> RendersOneOf(rules, t) {
      if t in rules { assert Render(WrittenRange(t).value) == t; }
    }
  }
}
