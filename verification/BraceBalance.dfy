/** The patterns that have a meaning are those whose braces balance: each is the print of a proper
    tree, and the string expansion succeeds on exactly these. */
module BraceBalance {
  import opened Options
  import opened BraceTrees
  import opened BraceExpansion

  /** The brace depth after reading `s` from depth `d`; `None` if a brace closes nothing. */
  function Level(s: string, d: nat): Option<nat> {
    if s == [] then Some(d)
    else if s[0] == '{' then Level(s[1..], d + 1)
    else if s[0] == '}' then if d == 0 then None else Level(s[1..], d - 1)
    else Level(s[1..], d)
  }

  predicate Balanced(s: string) {
    Level(s, 0) == Some(0)
  }

  /** No comma at depth 0. */
  predicate Undivided(s: string, d: nat) {
    s == [] ||
    ((s[0] == ',' ==> d > 0) &&
     Undivided(s[1..], if s[0] == '{' then d + 1 else if s[0] == '}' && d > 0 then d - 1 else d))
  }

  lemma {:induction false} LevelConcat(a: string, b: string, d: nat)
    ensures Level(a + b, d) == if Level(a, d).None? then None else Level(b, Level(a, d).value)
    decreases |a|
  {
    if a == [] {
      assert a + b == b;
    } else {
      assert (a + b)[1..] == a[1..] + b;
      if a[0] == '{' { LevelConcat(a[1..], b, d + 1); }
      else if a[0] == '}' { if d > 0 { LevelConcat(a[1..], b, d - 1); } }
      else { LevelConcat(a[1..], b, d); }
    }
  }

  lemma {:induction false} UndividedConcat(a: string, b: string, d: nat)
    requires Level(a, d).Some?
    ensures Undivided(a + b, d) <==> Undivided(a, d) && Undivided(b, Level(a, d).value)
    decreases |a|
  {
    if a == [] {
      assert a + b == b;
    } else {
      assert (a + b)[1..] == a[1..] + b;
      UndividedConcat(a[1..], b, if a[0] == '{' then d + 1 else if a[0] == '}' && d > 0 then d - 1 else d);
    }
  }

  lemma SingleLevel(c: char, d: nat)
    ensures Level([c], d) == if c == '{' then Some(d + 1) else if c == '}' then if d == 0 then None else Some(d - 1)
              else Some(d)
    ensures Undivided([c], d) <==> (c == ',' ==> d > 0)
  {
    assert [c][1..] == [];
  }

  /** An alternative under construction: at the scan's depth, and not cut by a comma of its group. */
  predicate Open(current: string, depth: nat) {
    depth > 0 && Level(current, 0) == Some(depth - 1) && Undivided(current, 0)
  }

  lemma OpenGrows(current: string, depth: nat, c: char)
    requires Open(current, depth) && (c == ',' ==> depth > 1) && (c == '}' ==> depth > 1)
    ensures Open(current + [c], if c == '{' then depth + 1 else if c == '}' then depth - 1 else depth)
  {
    LevelConcat(current, [c], 0);
    UndividedConcat(current, [c], 0);
    SingleLevel(c, depth - 1);
  }

  function Joined(alts: seq<string>): string
    requires alts != []
  {
    if |alts| == 1 then alts[0] else alts[0] + "," + Joined(alts[1..])
  }

  predicate Whole(r: Parts) {
    r.alts != [] && forall i :: 0 <= i < |r.alts| ==> Balanced(r.alts[i]) && Undivided(r.alts[i], 0)
  }

  /** What a successful scan has found: whole alternatives, and the text they came from. */
  lemma {:induction false} ScanFinds(s: string, depth: nat, current: string)
    requires Open(current, depth) && Scan(s, depth, current).Some?
    ensures var r := Scan(s, depth, current).value;
            && Whole(r) && Level(s, depth) == Level(r.suffix, 0)
            && current + s == Joined(r.alts) + "}" + r.suffix && |r.suffix| < |s|
    decreases |s|
  {
    var r := Scan(s, depth, current).value;
    assert current + s == (current + [s[0]]) + s[1..];
    if s[0] == '{' {
      OpenGrows(current, depth, s[0]);
      ScanFinds(s[1..], depth + 1, current + [s[0]]);
    } else if s[0] == '}' && depth > 1 {
      OpenGrows(current, depth, s[0]);
      ScanFinds(s[1..], depth - 1, current + [s[0]]);
    } else if s[0] == '}' {
      assert r == Parts([current], s[1..]);
      assert [s[0]] == "}";
    } else if s[0] == ',' && depth == 1 {
      ScanFinds(s[1..], 1, "");
      var rest := Scan(s[1..], 1, "").value;
      assert r.alts[1..] == rest.alts && [s[0]] == "," && "" + s[1..] == s[1..];
      assert Joined(r.alts) == current + "," + Joined(rest.alts);
      assert current + "," + s[1..] == current + "," + (Joined(rest.alts) + "}" + rest.suffix);
    } else {
      OpenGrows(current, depth, s[0]);
      ScanFinds(s[1..], depth, current + [s[0]]);
    }
  }

  /** A scan that finds no end never comes back to depth 0. */
  lemma {:induction false} ScanFails(s: string, depth: nat, current: string)
    requires depth > 0 && Scan(s, depth, current).None?
    ensures Level(s, depth) != Some(0)
    decreases |s|
  {
    if s == [] {
    } else if s[0] == '{' {
      ScanFails(s[1..], depth + 1, current + [s[0]]);
    } else if s[0] == '}' {
      ScanFails(s[1..], depth - 1, current + [s[0]]);
    } else if s[0] == ',' && depth == 1 {
      ScanFails(s[1..], 1, "");
    } else {
      ScanFails(s[1..], depth, current + [s[0]]);
    }
  }

  lemma {:induction false} NoOpenLevel(s: string)
    requires forall i :: 0 <= i < |s| ==> s[i] != '{'
    ensures Level(s, 0) == if '}' in s then None else Some(0)
  {
    if s != [] { NoOpenLevel(s[1..]); }
  }

  /** After text without braces and an open brace, the rest is read one deep. */
  lemma OpenedLevel(prefix: string, rest: string)
    requires (forall i :: 0 <= i < |prefix| ==> prefix[i] != '{') && '}' !in prefix
    ensures Level(prefix + ("{" + rest), 0) == Level(rest, 1)
  {
    NoOpenLevel(prefix);
    LevelConcat(prefix, "{" + rest, 0);
    assert ("{" + rest)[1..] == rest;
  }

  lemma SplitAtOpen(s: string, open: nat)
    requires open < |s| && s[open] == '{'
    ensures s == s[..open] + ("{" + s[open + 1..])
  {
  }

  /** How the first group decides balance. */
  lemma GroupBalance(s: string, open: nat)
    requires open < |s| && s[open] == '{' && (forall i :: 0 <= i < open ==> s[i] != '{') && '}' !in s[..open]
    ensures Balanced(s) <==> Level(s[open + 1..], 1) == Some(0)
  {
    SplitAtOpen(s, open);
    OpenedLevel(s[..open], s[open + 1..]);
  }

  lemma PrefixBalance(s: string)
    requires '}' in s[..FirstOpen(s)]
    ensures !Balanced(s)
  {
    var open := FirstOpen(s);
    assert s == s[..open] + s[open..];
    NoOpenLevel(s[..open]);
    LevelConcat(s[..open], s[open..], 0);
  }

  /** Only a balanced string expands. */
  lemma {:induction false} ExpandsOnlyBalanced(s: string)
    requires Expansions(s).Some?
    ensures Balanced(s)
    decreases Opens(s)
  {
    var open := FirstOpen(s);
    if open == |s| {
      assert s[..open] == s;
      NoOpenLevel(s);
    } else {
      SingleEmpty();
      var r := Scan(s[open + 1..], 1, "").value;
      ScanFinds(s[open + 1..], 1, "");
      FewerOpens(s);
      var first := s[..open] + r.alts[0] + r.suffix;
      assert Expansions(first).Some?;
      ExpandsOnlyBalanced(first);
      NoOpenLevel(s[..open]);
      LevelConcat(s[..open] + r.alts[0], r.suffix, 0);
      LevelConcat(s[..open], r.alts[0], 0);
      GroupBalance(s, open);
    }
  }

  lemma SingleEmpty()
    ensures Open("", 1)
  {
  }

  // ----- every balanced string is the print of a tree

  lemma {:induction false} LitsProper(s: string, grouped: bool)
    requires Braceless(s) && (grouped ==> Undivided(s, 0))
    ensures Proper(Lits(s), grouped) && Print(Lits(s)) == s
  {
    if s != [] {
      LitsProper(s[1..], grouped);
      assert s == [s[0]] + s[1..];
    }
  }

  /** The first group of a balanced string, cut into whole pieces. */
  lemma CutGroup(s: string) returns (r: Parts)
    requires Balanced(s) && FirstOpen(s) < |s|
    ensures Whole(r) && Balanced(r.suffix) && Braceless(s[..FirstOpen(s)])
    ensures s == s[..FirstOpen(s)] + ("{" + Joined(r.alts) + "}" + r.suffix)
  {
    var open := FirstOpen(s);
    if '}' in s[..open] { PrefixBalance(s); }
    SingleEmpty();
    GroupBalance(s, open);
    if Scan(s[open + 1..], 1, "").None? { ScanFails(s[open + 1..], 1, ""); }
    r := Scan(s[open + 1..], 1, "").value;
    ScanFinds(s[open + 1..], 1, "");
    assert "" + s[open + 1..] == s[open + 1..];
    CutText(s, open, Joined(r.alts), r.suffix);
  }

  lemma CutText(s: string, open: nat, joined: string, suffix: string)
    requires open < |s| && s[open] == '{' && s[open + 1..] == joined + "}" + suffix
    ensures s == s[..open] + ("{" + joined + "}" + suffix)
  {
    assert s == s[..open] + ("{" + s[open + 1..]);
    assert "{" + (joined + "}" + suffix) == "{" + joined + "}" + suffix;
  }

  lemma {:induction false} Parse(s: string, grouped: bool) returns (p: Pattern)
    requires Balanced(s) && (grouped ==> Undivided(s, 0))
    ensures Proper(p, grouped) && Print(p) == s
    decreases |s|, 0
  {
    var open := FirstOpen(s);
    if open == |s| {
      assert s[..open] == s;
      NoOpenLevel(s);
      LitsProper(s, grouped);
      p := Lits(s);
    } else {
      var r := CutGroup(s);
      var prefix := s[..open];
      GroupUndivided(prefix, r, grouped);
      LitsProper(prefix, grouped);
      JoinedShorter(r.alts);
      var rest := Parse(r.suffix, grouped);
      var alts := ParseAlts(r.alts, |s|);
      p := Append(Lits(prefix), Group(alts, rest));
      ProperAppend(Lits(prefix), Group(alts, rest), grouped);
      PrintAppend(Lits(prefix), Group(alts, rest));
    }
  }

  /** The pieces of an undivided string are undivided. */
  lemma GroupUndivided(prefix: string, r: Parts, grouped: bool)
    requires Braceless(prefix) && Whole(r) && Level(r.suffix, 0) == Some(0)
    requires grouped ==> Undivided(prefix + ("{" + Joined(r.alts) + "}" + r.suffix), 0)
    ensures grouped ==> Undivided(prefix, 0) && Undivided(r.suffix, 0)
  {
    if grouped {
      var group := "{" + Joined(r.alts) + "}";
      NoOpenLevel(prefix);
      UndividedConcat(prefix, group + r.suffix, 0);
      JoinedLevel(r.alts);
      LevelConcat("{" + Joined(r.alts), "}", 0);
      LevelConcat("{", Joined(r.alts), 0);
      SingleLevel('{', 0);
      SingleLevel('}', 1);
      UndividedConcat(group, r.suffix, 0);
    }
  }

  lemma {:induction false} LevelLift(s: string, d: nat, k: nat)
    requires Level(s, d).Some?
    ensures Level(s, d + k) == Some(Level(s, d).value + k)
    decreases |s|
  {
    if s != [] {
      LevelLift(s[1..], if s[0] == '{' then d + 1 else if s[0] == '}' then d - 1 else d, k);
    }
  }

  lemma {:induction false} JoinedLevel(alts: seq<string>)
    requires alts != [] && forall i :: 0 <= i < |alts| ==> Balanced(alts[i])
    ensures Level(Joined(alts), 1) == Some(1)
  {
    LevelLift(alts[0], 0, 1);
    if |alts| > 1 {
      JoinedLevel(alts[1..]);
      LevelConcat(alts[0] + ",", Joined(alts[1..]), 1);
      LevelConcat(alts[0], ",", 1);
      SingleLevel(',', 1);
    }
  }

  lemma {:induction false} JoinedShorter(alts: seq<string>)
    requires alts != []
    ensures forall i :: 0 <= i < |alts| ==> |alts[i]| <= |Joined(alts)|
  {
    if |alts| > 1 {
      JoinedShorter(alts[1..]);
      forall i | 0 < i < |alts| ensures |alts[i]| <= |Joined(alts)| { assert alts[i] == alts[1..][i - 1]; }
    }
  }

  lemma {:induction false} ParseAlts(alts: seq<string>, bound: nat) returns (a: Alts)
    requires alts != [] && forall i :: 0 <= i < |alts| ==>
              Balanced(alts[i]) && Undivided(alts[i], 0) && |alts[i]| < bound
    ensures ProperAlts(a) && PrintAlts(a) == Joined(alts)
    decreases bound - 1, 1, |alts|
  {
    var p := Parse(alts[0], true);
    if |alts| == 1 {
      a := Only(p);
    } else {
      var others := ParseAlts(alts[1..], bound);
      a := Or(p, others);
    }
  }

  lemma {:induction false} PrintBalanced(p: Pattern, grouped: bool, d: nat)
    requires Proper(p, grouped)
    ensures Level(Print(p), d) == Some(d)
    decreases p
  {
    match p
    case Nil =>
    case Lit(c, rest) =>
      LevelConcat([c], Print(rest), d);
      SingleLevel(c, d);
      PrintBalanced(rest, grouped, d);
    case Group(alts, rest) =>
      var head := "{" + PrintAlts(alts);
      LevelConcat(head + "}", Print(rest), d);
      LevelConcat(head, "}", d);
      LevelConcat("{", PrintAlts(alts), d);
      SingleLevel('{', d);
      SingleLevel('}', d + 1);
      PrintAltsBalanced(alts, d + 1);
      PrintBalanced(rest, grouped, d);
  }

  lemma {:induction false} PrintAltsBalanced(a: Alts, d: nat)
    requires ProperAlts(a)
    ensures Level(PrintAlts(a), d) == Some(d)
    decreases a
  {
    match a
    case Only(p) => PrintBalanced(p, true, d);
    case Or(p, others) =>
      LevelConcat(Print(p) + ",", PrintAlts(others), d);
      LevelConcat(Print(p), ",", d);
      SingleLevel(',', d);
      PrintBalanced(p, true, d);
      PrintAltsBalanced(others, d);
  }

  /** A string has a tree exactly when its braces balance. */
  lemma BalancedHasTree(s: string)
    ensures Balanced(s) <==> exists p :: Proper(p, false) && Print(p) == s
  {
    if Balanced(s) {
      var p := Parse(s, false);
    }
    if p :| Proper(p, false) && Print(p) == s { PrintBalanced(p, false, 0); }
  }

  /** The string expansion succeeds exactly on balanced strings, and then returns the expansions of
      any tree the string prints. */
  lemma ExpansionsExactly(s: string)
    ensures Expansions(s).Some? <==> Balanced(s)
    ensures forall p :: Proper(p, false) && Print(p) == s ==> Expansions(s) == Some(Expand(p))
  {
    if Expansions(s).Some? { ExpandsOnlyBalanced(s); }
    if Balanced(s) {
      var p := Parse(s, false);
      ExpansionsOfTree(p);
    }
    forall p | Proper(p, false) && Print(p) == s ensures Expansions(s) == Some(Expand(p)) { ExpansionsOfTree(p); }
  }
}
