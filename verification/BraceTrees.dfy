/** The meaning of a brace pattern: a tree of literals and groups, and its expansions in order. */
module BraceTrees {
  /** A pattern is a list of literal characters and groups; a group is a list of alternatives. */
  datatype Pattern = Nil | Lit(c: char, rest: Pattern) | Group(alts: Alts, rest: Pattern)

  datatype Alts = Only(p: Pattern) | Or(p: Pattern, others: Alts)

  /** Braces are syntax everywhere; a comma is syntax directly inside a group. */
  predicate Proper(p: Pattern, grouped: bool) {
    match p
    case Nil => true
    case Lit(c, rest) => c != '{' && c != '}' && (grouped ==> c != ',') && Proper(rest, grouped)
    case Group(alts, rest) => ProperAlts(alts) && Proper(rest, grouped)
  }

  predicate ProperAlts(a: Alts) {
    match a
    case Only(p) => Proper(p, true)
    case Or(p, others) => Proper(p, true) && ProperAlts(others)
  }

  function Print(p: Pattern): string {
    match p
    case Nil => ""
    case Lit(c, rest) => [c] + Print(rest)
    case Group(alts, rest) => "{" + PrintAlts(alts) + "}" + Print(rest)
  }

  function PrintAlts(a: Alts): string {
    match a
    case Only(p) => Print(p)
    case Or(p, others) => Print(p) + "," + PrintAlts(others)
  }

  function Strings(a: Alts): seq<string> {
    match a
    case Only(p) => [Print(p)]
    case Or(p, others) => [Print(p)] + Strings(others)
  }

  /** Every `x` of the first list joined to every `y` of the second, in that order. */
  function Product(xs: seq<string>, ys: seq<string>): seq<string> {
    if xs == [] then [] else Each(xs[0], ys) + Product(xs[1..], ys)
  }

  function Each(x: string, ys: seq<string>): (r: seq<string>)
    ensures |r| == |ys|
  {
    if ys == [] then [] else [x + ys[0]] + Each(x, ys[1..])
  }

  /** The expansions: a group offers its alternatives' expansions one after the other. */
  function Expand(p: Pattern): seq<string> {
    match p
    case Nil => [""]
    case Lit(c, rest) => Each([c], Expand(rest))
    case Group(alts, rest) => Product(ExpandAlts(alts), Expand(rest))
  }

  function ExpandAlts(a: Alts): seq<string> {
    match a
    case Only(p) => Expand(p)
    case Or(p, others) => Expand(p) + ExpandAlts(others)
  }

  function Append(p: Pattern, q: Pattern): Pattern {
    match p
    case Nil => q
    case Lit(c, rest) => Lit(c, Append(rest, q))
    case Group(alts, rest) => Group(alts, Append(rest, q))
  }

  function Lits(s: string): Pattern {
    if s == [] then Nil else Lit(s[0], Lits(s[1..]))
  }

  // ----- algebra of expansions

  lemma {:induction false} EachConcat(x: string, a: seq<string>, b: seq<string>)
    ensures Each(x, a + b) == Each(x, a) + Each(x, b)
  {
    if a == [] {
      assert a + b == b;
    } else {
      assert (a + b)[1..] == a[1..] + b;
      EachConcat(x, a[1..], b);
    }
  }

  lemma {:induction false} EachEach(x: string, y: string, zs: seq<string>)
    ensures Each(x, Each(y, zs)) == Each(x + y, zs)
  {
    if zs != [] {
      assert x + (y + zs[0]) == (x + y) + zs[0];
      assert Each(y, zs)[1..] == Each(y, zs[1..]);
      EachEach(x, y, zs[1..]);
    }
  }

  lemma {:induction false} ProductConcat(a: seq<string>, b: seq<string>, ys: seq<string>)
    ensures Product(a + b, ys) == Product(a, ys) + Product(b, ys)
  {
    if a == [] {
      assert a + b == b;
    } else {
      assert (a + b)[1..] == a[1..] + b;
      ProductConcat(a[1..], b, ys);
      assert Product(a + b, ys) == Each(a[0], ys) + (Product(a[1..], ys) + Product(b, ys));
    }
  }

  lemma {:induction false} EachProduct(x: string, ys: seq<string>, zs: seq<string>)
    ensures Each(x, Product(ys, zs)) == Product(Each(x, ys), zs)
  {
    if ys != [] {
      EachProduct(x, ys[1..], zs);
      EachConcat(x, Each(ys[0], zs), Product(ys[1..], zs));
      EachEach(x, ys[0], zs);
      assert Each(x, ys)[1..] == Each(x, ys[1..]);
    }
  }

  lemma {:induction false} ProductProduct(xs: seq<string>, ys: seq<string>, zs: seq<string>)
    ensures Product(xs, Product(ys, zs)) == Product(Product(xs, ys), zs)
  {
    if xs != [] {
      ProductProduct(xs[1..], ys, zs);
      EachProduct(xs[0], ys, zs);
      ProductConcat(Each(xs[0], ys), Product(xs[1..], ys), zs);
    }
  }

  lemma {:induction false} EachEmpty(ys: seq<string>)
    ensures Each("", ys) == ys
  {
    if ys != [] {
      EachEmpty(ys[1..]);
      assert "" + ys[0] == ys[0];
      assert ys == [ys[0]] + ys[1..];
    }
  }

  lemma ProductUnit(ys: seq<string>)
    ensures Product([""], ys) == ys
  {
    EachEmpty(ys);
    assert [""][1..] == [];
  }

  /** Expanding a concatenation is the product of the expansions. */
  lemma {:induction false} ExpandAppend(p: Pattern, q: Pattern)
    ensures Expand(Append(p, q)) == Product(Expand(p), Expand(q))
  {
    match p
    case Nil => ProductUnit(Expand(q));
    case Lit(c, rest) =>
      ExpandAppend(rest, q);
      EachProduct([c], Expand(rest), Expand(q));
    case Group(alts, rest) =>
      ExpandAppend(rest, q);
      ProductProduct(ExpandAlts(alts), Expand(rest), Expand(q));
  }

  lemma {:induction false} PrintAppend(p: Pattern, q: Pattern)
    ensures Print(Append(p, q)) == Print(p) + Print(q)
  {
    match p
    case Nil =>
    case Lit(c, rest) => PrintAppend(rest, q);
    case Group(alts, rest) =>
      PrintAppend(rest, q);
      Regroup("{" + PrintAlts(alts) + "}", Print(rest), Print(q));
  }

  lemma Regroup(a: string, b: string, c: string)
    ensures a + (b + c) == (a + b) + c
  {
  }

  lemma {:induction false} ProperAppend(p: Pattern, q: Pattern, grouped: bool)
    requires Proper(p, grouped) && Proper(q, grouped)
    ensures Proper(Append(p, q), grouped)
  {
    match p
    case Nil =>
    case Lit(_, rest) => ProperAppend(rest, q, grouped);
    case Group(_, rest) => ProperAppend(rest, q, grouped);
  }

  lemma {:induction false} ProperOutside(p: Pattern)
    requires Proper(p, true)
    ensures Proper(p, false)
  {
    match p
    case Nil =>
    case Lit(_, rest) => ProperOutside(rest);
    case Group(_, rest) => ProperOutside(rest);
  }

  predicate Braceless(s: string) {
    forall i :: 0 <= i < |s| ==> s[i] != '{' && s[i] != '}'
  }

  lemma {:induction false} LitsMean(s: string)
    requires Braceless(s)
    ensures Print(Lits(s)) == s && Proper(Lits(s), false) && Expand(Lits(s)) == [s]
  {
    if s != [] {
      LitsMean(s[1..]);
      assert s == [s[0]] + s[1..];
      assert Each([s[0]], [s[1..]]) == [[s[0]] + s[1..]] by { assert [s[1..]][1..] == []; }
    }
  }
}
