/** Expanding braces by rewriting the string: find the first group, split it at its own commas, and
    expand the string again with each alternative in the group's place. */
module BraceExpansion {
  import opened Options
  import opened BraceTrees

  const MAX_BRACE_EXPANSIONS: nat := 256

  function Opens(s: string): nat {
    if s == [] then 0 else (if s[0] == '{' then 1 else 0) + Opens(s[1..])
  }

  /** The index of the first open brace, or the length. */
  function FirstOpen(s: string): (k: nat)
    ensures k <= |s| && (k < |s| ==> s[k] == '{') && forall i :: 0 <= i < k ==> s[i] != '{'
  {
    if s == [] then 0 else if s[0] == '{' then 0
    else
      var k := FirstOpen(s[1..]);
      assert forall i :: 0 < i <= k ==> s[i] == s[1..][i - 1];
      k + 1
  }

  datatype Parts = Parts(alts: seq<string>, suffix: string)

  /** Read a group from inside, `depth` braces deep, with `current` the alternative so far. */
  function Scan(s: string, depth: nat, current: string): Option<Parts>
    requires depth > 0
  {
    if s == [] then None
    else if s[0] == '{' then Scan(s[1..], depth + 1, current + [s[0]])
    else if s[0] == '}' then
      if depth == 1 then Some(Parts([current], s[1..])) else Scan(s[1..], depth - 1, current + [s[0]])
    else if s[0] == ',' && depth == 1 then
      var r := Scan(s[1..], 1, "");
      if r.None? then None else Some(Parts([current] + r.value.alts, r.value.suffix))
    else Scan(s[1..], depth, current + [s[0]])
  }

  lemma {:induction false} OpensConcat(a: string, b: string)
    ensures Opens(a + b) == Opens(a) + Opens(b)
  {
    if a == [] {
      assert a + b == b;
    } else {
      assert (a + b)[1..] == a[1..] + b;
      OpensConcat(a[1..], b);
    }
  }

  /** Splitting a group neither invents nor duplicates an open brace. */
  lemma {:induction false} ScanOpens(s: string, depth: nat, current: string)
    requires depth > 0 && Scan(s, depth, current).Some?
    ensures var r := Scan(s, depth, current).value;
            forall i :: 0 <= i < |r.alts| ==> Opens(r.alts[i]) + Opens(r.suffix) <= Opens(current) + Opens(s)
    decreases |s|
  {
    OpensConcat(current, [s[0]]);
    assert Opens([s[0]]) == (if s[0] == '{' then 1 else 0) by { assert [s[0]][1..] == []; }
    if s[0] == '{' {
      ScanOpens(s[1..], depth + 1, current + [s[0]]);
    } else if s[0] == '}' {
      if depth > 1 { ScanOpens(s[1..], depth - 1, current + [s[0]]); }
    } else if s[0] == ',' && depth == 1 {
      ScanOpens(s[1..], 1, "");
      ScanSuffix(s[1..], 1, "");
    } else {
      ScanOpens(s[1..], depth, current + [s[0]]);
    }
  }

  lemma {:induction false} ScanSuffix(s: string, depth: nat, current: string)
    requires depth > 0 && Scan(s, depth, current).Some?
    ensures Opens(Scan(s, depth, current).value.suffix) <= Opens(s)
    decreases |s|
  {
    if s[0] == '{' {
      ScanSuffix(s[1..], depth + 1, current + [s[0]]);
    } else if s[0] == '}' {
      if depth > 1 { ScanSuffix(s[1..], depth - 1, current + [s[0]]); }
    } else if s[0] == ',' && depth == 1 {
      ScanSuffix(s[1..], 1, "");
    } else {
      ScanSuffix(s[1..], depth, current + [s[0]]);
    }
  }

  /** Every expansion of the string, without the cap: `None` for unbalanced braces. */
  function Expansions(s: string): Option<seq<string>>
    decreases Opens(s), 1, 0
  {
    var open := FirstOpen(s);
    if '}' in s[..open] then None
    else if open == |s| then Some([s])
    else
      var r := Scan(s[open + 1..], 1, "");
      if r.None? then None
      else
        FewerOpens(s);
        ExpandEach(s[..open], r.value.alts, r.value.suffix, Opens(s))
  }

  function ExpandEach(prefix: string, alts: seq<string>, suffix: string, ghost bound: nat): Option<seq<string>>
    requires forall i :: 0 <= i < |alts| ==> Opens(prefix + alts[i] + suffix) < bound
    decreases bound, 0, |alts|
  {
    if alts == [] then Some([])
    else
      var first := Expansions(prefix + alts[0] + suffix);
      if first.None? then None
      else
        var others := ExpandEach(prefix, alts[1..], suffix, bound);
        if others.None? then None else Some(first.value + others.value)
  }

  lemma FewerOpens(s: string)
    requires FirstOpen(s) < |s| && Scan(s[FirstOpen(s) + 1..], 1, "").Some?
    ensures var open := FirstOpen(s);
            var r := Scan(s[open + 1..], 1, "").value;
            forall i :: 0 <= i < |r.alts| ==> Opens(s[..open] + r.alts[i] + r.suffix) < Opens(s)
  {
    var open := FirstOpen(s);
    var r := Scan(s[open + 1..], 1, "").value;
    ScanOpens(s[open + 1..], 1, "");
    assert s == s[..open] + ([s[open]] + s[open + 1..]);
    OpensConcat(s[..open], [s[open]] + s[open + 1..]);
    assert ([s[open]] + s[open + 1..])[1..] == s[open + 1..];
    forall i | 0 <= i < |r.alts| ensures Opens(s[..open] + r.alts[i] + r.suffix) < Opens(s) {
      OpensConcat(s[..open] + r.alts[i], r.suffix);
      OpensConcat(s[..open], r.alts[i]);
    }
  }

  // ----- a proper tree: scanning its print finds its alternatives

  lemma ScanStep(c: char, t: string, depth: nat, current: string)
    requires depth > 0 && c != '{' && c != '}' && (depth == 1 ==> c != ',')
    ensures Scan([c] + t, depth, current) == Scan(t, depth, current + [c])
  {
    assert ([c] + t)[1..] == t;
  }

  lemma ScanOpen(t: string, depth: nat, current: string)
    requires depth > 0
    ensures Scan("{" + t, depth, current) == Scan(t, depth + 1, current + "{")
  {
    assert ("{" + t)[1..] == t;
  }

  lemma ScanClose(t: string, depth: nat, current: string)
    requires depth > 0
    ensures Scan("}" + t, depth, current) ==
            if depth == 1 then Some(Parts([current], t)) else Scan(t, depth - 1, current + "}")
  {
    assert ("}" + t)[1..] == t;
  }

  lemma ScanComma(t: string, depth: nat, current: string)
    requires depth > 0
    ensures Scan("," + t, depth, current) ==
            if depth > 1 then Scan(t, depth, current + ",")
            else var r := Scan(t, 1, "");
                if r.None? then None else Some(Parts([current] + r.value.alts, r.value.suffix))
  {
    assert ("," + t)[1..] == t;
  }

  /** A balanced piece passes through the scan unchanged. */
  lemma {:induction false} ScanSkips(p: Pattern, grouped: bool, t: string, depth: nat, current: string)
    requires depth > 0 && Proper(p, grouped) && (depth == 1 ==> grouped)
    ensures Scan(Print(p) + t, depth, current) == Scan(t, depth, current + Print(p))
    decreases p
  {
    match p
    case Nil =>
      assert Print(p) + t == t && current + Print(p) == current;
    case Lit(c, rest) =>
      assert Print(p) + t == [c] + (Print(rest) + t);
      ScanStep(c, Print(rest) + t, depth, current);
      ScanSkips(rest, grouped, t, depth, current + [c]);
      assert current + [c] + Print(rest) == current + Print(p);
    case Group(alts, rest) =>
      var tail := "}" + (Print(rest) + t);
      GroupInPlace(alts, rest, t, current);
      ScanOpen(PrintAlts(alts) + tail, depth, current);
      ScanSkipsAlts(alts, tail, depth + 1, current + "{");
      ScanClose(Print(rest) + t, depth + 1, current + "{" + PrintAlts(alts));
      ScanSkips(rest, grouped, t, depth, current + "{" + PrintAlts(alts) + "}");
  }

  lemma GroupInPlace(alts: Alts, rest: Pattern, t: string, current: string)
    ensures Print(Group(alts, rest)) + t == "{" + (PrintAlts(alts) + ("}" + (Print(rest) + t)))
    ensures current + "{" + PrintAlts(alts) + "}" + Print(rest) == current + Print(Group(alts, rest))
  {
  }

  lemma {:induction false} ScanSkipsAlts(a: Alts, t: string, depth: nat, current: string)
    requires depth > 1 && ProperAlts(a)
    ensures Scan(PrintAlts(a) + t, depth, current) == Scan(t, depth, current + PrintAlts(a))
    decreases a
  {
    match a
    case Only(p) => ScanSkips(p, true, t, depth, current);
    case Or(p, others) =>
      var tail := "," + (PrintAlts(others) + t);
      assert PrintAlts(a) + t == Print(p) + tail;
      ScanSkips(p, true, tail, depth, current);
      ScanComma(PrintAlts(others) + t, depth, current + Print(p));
      ScanSkipsAlts(others, t, depth, current + Print(p) + ",");
      assert current + Print(p) + "," + PrintAlts(others) == current + PrintAlts(a);
  }

  /** From inside a group, the scan returns exactly the group's alternatives and what follows it. */
  lemma {:induction false} ScanGroup(a: Alts, t: string)
    requires ProperAlts(a)
    ensures Scan(PrintAlts(a) + "}" + t, 1, "") == Some(Parts(Strings(a), t))
    decreases a
  {
    match a
    case Only(p) =>
      assert PrintAlts(a) + "}" + t == Print(p) + ("}" + t);
      ScanSkips(p, true, "}" + t, 1, "");
      ScanClose(t, 1, "" + Print(p));
      assert "" + Print(p) == Print(p);
    case Or(p, others) =>
      var tail := "," + (PrintAlts(others) + "}" + t);
      assert PrintAlts(a) + "}" + t == Print(p) + tail;
      ScanSkips(p, true, tail, 1, "");
      ScanComma(PrintAlts(others) + "}" + t, 1, "" + Print(p));
      ScanGroup(others, t);
      assert "" + Print(p) == Print(p);
  }

  /** The literals before the first group. */
  function Leading(p: Pattern): string {
    if p.Lit? then [p.c] + Leading(p.rest) else ""
  }

  function AfterLeading(p: Pattern): Pattern {
    if p.Lit? then AfterLeading(p.rest) else p
  }

  lemma {:induction false} LeadingSplits(p: Pattern)
    requires Proper(p, false)
    ensures Braceless(Leading(p)) && !AfterLeading(p).Lit? && Proper(AfterLeading(p), false)
    ensures Append(Lits(Leading(p)), AfterLeading(p)) == p
  {
    if p.Lit? {
      LeadingSplits(p.rest);
      assert Leading(p)[1..] == Leading(p.rest);
    }
  }

  function Groups(p: Pattern): nat {
    match p
    case Nil => 0
    case Lit(_, rest) => Groups(rest)
    case Group(alts, rest) => 1 + GroupsIn(alts) + Groups(rest)
  }

  function GroupsIn(a: Alts): nat {
    match a
    case Only(p) => Groups(p)
    case Or(p, others) => Groups(p) + GroupsIn(others)
  }

  lemma {:induction false} GroupsAppend(p: Pattern, q: Pattern)
    ensures Groups(Append(p, q)) == Groups(p) + Groups(q)
  {
    match p
    case Nil =>
    case Lit(_, rest) => GroupsAppend(rest, q);
    case Group(_, rest) => GroupsAppend(rest, q);
  }

  lemma {:induction false} GroupsLits(s: string)
    ensures Groups(Lits(s)) == 0
  {
    if s != [] { GroupsLits(s[1..]); }
  }

  lemma FirstOpenAt(prefix: string, t: string)
    requires Braceless(prefix)
    ensures FirstOpen(prefix + "{" + t) == |prefix|
  {
    var s := prefix + "{" + t;
    assert s[|prefix|] == '{';
    assert forall i :: 0 <= i < |prefix| ==> s[i] == prefix[i];
  }

  /** Expanding the print of a proper tree gives the tree's expansions, in order. */
  lemma {:induction false} ExpansionsOfTree(p: Pattern)
    requires Proper(p, false)
    ensures Expansions(Print(p)) == Some(Expand(p))
    decreases Groups(p), 1, Only(Nil)
  {
    LeadingSplits(p);
    var prefix := Leading(p);
    var tail := AfterLeading(p);
    PrefixMeans(prefix, tail);
    if tail.Nil? {
      BracelessExpansions(prefix);
      assert prefix + Print(Nil) == prefix;
      PlainProduct(prefix);
    } else {
      OpensGroup(prefix, tail.alts, tail.rest);
      EachOfTree(prefix, tail.alts, tail.rest, Groups(p), Opens(Print(p)));
      ProductGroups(prefix, tail.alts, tail.rest);
    }
  }

  /** A tree behind a literal prefix. */
  lemma PrefixMeans(prefix: string, tail: Pattern)
    requires Braceless(prefix)
    ensures var p := Append(Lits(prefix), tail);
            && Print(p) == prefix + Print(tail) && Expand(p) == Product([prefix], Expand(tail))
                  && Groups(p) == Groups(tail)
  {
    PrintAppend(Lits(prefix), tail);
    ExpandAppend(Lits(prefix), tail);
    LitsMean(prefix);
    GroupsAppend(Lits(prefix), tail);
    GroupsLits(prefix);
  }

  /** The expansion rewrites the first group. */
  lemma OpensGroup(prefix: string, a: Alts, rest: Pattern)
    requires Braceless(prefix) && ProperAlts(a)
    ensures var s := prefix + Print(Group(a, rest));
            && (forall i :: 0 <= i < |Strings(a)| ==> Opens(prefix + Strings(a)[i] + Print(rest)) < Opens(s))
            && Expansions(s) == ExpandEach(prefix, Strings(a), Print(rest), Opens(s))
  {
    GroupFirst(prefix, a, rest);
    FewerOpens(prefix + Print(Group(a, rest)));
  }

  lemma BracelessExpansions(s: string)
    requires Braceless(s)
    ensures Expansions(s) == Some([s])
  {
    var open := FirstOpen(s);
    assert s[..open] == s;
  }

  lemma PlainProduct(s: string)
    ensures Product([s], [""]) == [s]
  {
    assert s + "" == s;
    assert [""][1..] == [] && [s][1..] == [];
    assert Each(s, [""]) == [s + ""] + Each(s, [""][1..]);
  }

  lemma ProductGroups(prefix: string, a: Alts, rest: Pattern)
    ensures Product([prefix], Expand(Group(a, rest))) == Product(Each(prefix, ExpandAlts(a)), Expand(rest))
  {
    EachProduct(prefix, ExpandAlts(a), Expand(rest));
    SingleProduct(prefix, Expand(Group(a, rest)));
  }

  /** The first group of a printed tree, as the expansion sees it. */
  lemma GroupFirst(prefix: string, a: Alts, rest: Pattern)
    requires Braceless(prefix) && ProperAlts(a)
    ensures var s := prefix + Print(Group(a, rest));
            && FirstOpen(s) == |prefix| < |s| && s[..|prefix|] == prefix
            && Scan(s[|prefix| + 1..], 1, "") == Some(Parts(Strings(a), Print(rest)))
  {
    var s := prefix + Print(Group(a, rest));
    var inside := PrintAlts(a) + "}" + Print(rest);
    assert s == prefix + "{" + inside;
    FirstOpenAt(prefix, inside);
    assert s[|prefix| + 1..] == inside;
    ScanGroup(a, Print(rest));
  }

  lemma {:induction false} EachOfTree(prefix: string, a: Alts, rest: Pattern, groups: nat, bound: nat)
    requires Braceless(prefix) && ProperAlts(a) && Proper(rest, false) && GroupsIn(a) + Groups(rest) < groups
    requires forall i :: 0 <= i < |Strings(a)| ==> Opens(prefix + Strings(a)[i] + Print(rest)) < bound
    ensures ExpandEach(prefix, Strings(a), Print(rest), bound) ==
            Some(Product(Each(prefix, ExpandAlts(a)), Expand(rest)))
    decreases groups, 0, a
  {
    var q := Append(Lits(prefix), Append(a.p, rest));
    AlternativeTree(prefix, a.p, rest);
    AlternativeMeans(prefix, a.p, rest);
    assert Strings(a)[0] == Print(a.p);
    ExpansionsOfTree(q);
    match a
    case Only(p) =>
      assert Strings(a)[1..] == [];
      assert ExpandEach(prefix, Strings(a)[1..], Print(rest), bound) == Some([]);
      assert Expand(q) + [] == Expand(q);
    case Or(p, others) =>
      assert Strings(a)[1..] == Strings(others);
      assert forall i :: 0 <= i < |Strings(others)| ==> Strings(others)[i] == Strings(a)[i + 1];
      EachOfTree(prefix, others, rest, groups, bound);
      EachConcat(prefix, Expand(p), ExpandAlts(others));
      ProductConcat(Each(prefix, Expand(p)), Each(prefix, ExpandAlts(others)), Expand(rest));
  }

  /** One alternative in its group's place. */
  lemma AlternativeTree(prefix: string, p: Pattern, rest: Pattern)
    requires Braceless(prefix) && Proper(p, true) && Proper(rest, false)
    ensures var q := Append(Lits(prefix), Append(p, rest));
            && Proper(q, false) && Print(q) == prefix + Print(p) + Print(rest)
            && Groups(q) == Groups(p) + Groups(rest)
  {
    LitsMean(prefix);
    ProperOutside(p);
    ProperAppend(p, rest, false);
    ProperAppend(Lits(prefix), Append(p, rest), false);
    PrintAppend(p, rest);
    PrintAppend(Lits(prefix), Append(p, rest));
    assert prefix + (Print(p) + Print(rest)) == prefix + Print(p) + Print(rest);
    GroupsAppend(p, rest);
    GroupsAppend(Lits(prefix), Append(p, rest));
    GroupsLits(prefix);
  }

  lemma AlternativeMeans(prefix: string, p: Pattern, rest: Pattern)
    requires Braceless(prefix)
    ensures Expand(Append(Lits(prefix), Append(p, rest))) == Product(Each(prefix, Expand(p)), Expand(rest))
  {
    LitsMean(prefix);
    ExpandAppend(p, rest);
    ExpandAppend(Lits(prefix), Append(p, rest));
    EachProduct(prefix, Expand(p), Expand(rest));
    SingleProduct(prefix, Expand(Append(p, rest)));
  }

  lemma SingleProduct(x: string, ys: seq<string>)
    ensures Product([x], ys) == Each(x, ys)
  {
    assert [x][1..] == [];
    assert Product([x], ys) == Each(x, ys) + Product([x][1..], ys);
  }
}
