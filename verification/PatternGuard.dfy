/** The checker's pattern guard: a glob pattern is denied unless it can be expanded completely and no
    expansion leaves the checkout. */
module PatternGuard {
  import opened Options
  import opened BraceTrees
  import opened BraceExpansion
  import opened BraceBalance
  import opened Text

  const MAX_PATTERN_LENGTH: nat := 1024
  const MAX_BRACE_GROUPS: nat := 32

  // ----- the expander

  /** What the expander returns: the expansions when the braces balance and there are at most 256. */
  function Capped(s: string): Option<seq<string>> {
    var e := Expansions(s);
    if e.Some? && |e.value| <= MAX_BRACE_EXPANSIONS then e else None
  }

  /** Read the group that opens just before `from`: the loop over the string with a depth counter. */
  method SplitGroup(s: string, from: nat) returns (r: Option<Parts>)
    requires from <= |s|
    ensures r == Scan(s[from..], 1, "")
  {
    var depth, start, i := 1, from, from;
    var alts: seq<string> := [];
    ghost var whole := Scan(s[from..], 1, "");
    assert s[from..from] == "";
    PrependNone(whole);
    while i < |s|
      invariant from <= start <= i <= |s| && depth > 0
      invariant whole == Prepend(alts, Scan(s[i..], depth, s[start..i]))
    {
      assert s[i..][0] == s[i] && s[i..][1..] == s[i + 1..];
      assert s[start..i] + [s[i]] == s[start..i + 1];
      if s[i] == '{' {
        depth := depth + 1;
      } else if s[i] == '}' {
        if depth == 1 {
          assert whole == Prepend(alts, Some(Parts([s[start..i]], s[i + 1..])));
          return Some(Parts(alts + [s[start..i]], s[i + 1..]));
        }
        depth := depth - 1;
      } else if s[i] == ',' && depth == 1 {
        PrependNext(alts, s[start..i], Scan(s[i + 1..], 1, ""));
        alts := alts + [s[start..i]];
        start := i + 1;
        assert s[start..i + 1] == "";
      }
      i := i + 1;
    }
    assert s[i..] == "";
    r := None;
  }

  function Prepend(alts: seq<string>, r: Option<Parts>): Option<Parts> {
    if r.None? then None else Some(Parts(alts + r.value.alts, r.value.suffix))
  }

  lemma PrependNone(r: Option<Parts>)
    ensures Prepend([], r) == r
  {
    if r.Some? { assert [] + r.value.alts == r.value.alts; }
  }

  lemma PrependNext(alts: seq<string>, current: string, r: Option<Parts>)
    ensures Prepend(alts, if r.None? then None else Some(Parts([current] + r.value.alts, r.value.suffix)))
              == Prepend(alts + [current], r)
  {
    if r.Some? { assert alts + ([current] + r.value.alts) == (alts + [current]) + r.value.alts; }
  }

  /** Push the expansions of `s` to the shared list; `ok` is false once the pattern must be denied. */
  method Walk(s: string, out: seq<string>) returns (ok: bool, pushed: seq<string>)
    requires |out| <= MAX_BRACE_EXPANSIONS
    ensures var e := Expansions(s);
            && (ok <==> e.Some? && |out| + |e.value| <= MAX_BRACE_EXPANSIONS)
            && (ok ==> pushed == out + e.value)
    decreases Opens(s), 1, 0
  {
    var open := FirstOpen(s);
    pushed := out;
    if '}' in s[..open] { return false, out; }
    if open == |s| {
      pushed := out + [s];
      return |pushed| <= MAX_BRACE_EXPANSIONS, pushed;
    }
    var r := SplitGroup(s, open + 1);
    if r.None? { return false, out; }
    FewerOpens(s);
    ok, pushed := WalkEach(s[..open], r.value.alts, r.value.suffix, out, Opens(s));
  }

  method WalkEach(prefix: string, alts: seq<string>, suffix: string, out: seq<string>, ghost bound: nat)
    returns (ok: bool, pushed: seq<string>)
    requires |out| <= MAX_BRACE_EXPANSIONS
    requires forall i :: 0 <= i < |alts| ==> Opens(prefix + alts[i] + suffix) < bound
    ensures var e := ExpandEach(prefix, alts, suffix, bound);
            && (ok <==> e.Some? && |out| + |e.value| <= MAX_BRACE_EXPANSIONS)
            && (ok ==> pushed == out + e.value)
    decreases bound, 0, |alts|
  {
    if alts == [] { return true, out; }
    ok, pushed := Walk(prefix + alts[0] + suffix, out);
    if ok { ok, pushed := WalkEach(prefix, alts[1..], suffix, pushed, bound); }
  }

  method ExpandBraces(pattern: string) returns (r: Option<seq<string>>)
    ensures r == Capped(pattern)
  {
    var ok, out := Walk(pattern, []);
    r := if ok then Some(out) else None;
    assert ok ==> out == [] + Expansions(pattern).value == Expansions(pattern).value;
  }

  /** `expandBraces` returns exactly the ordered expansions of the pattern's tree when the braces
      balance and there are at most 256 of them, and nothing otherwise. */
  lemma CappedMeaning(s: string)
    ensures Capped(s).Some? <==> exists p :: Proper(p, false) && Print(p) == s && |Expand(p)| <= MAX_BRACE_EXPANSIONS
    ensures forall p :: Proper(p, false) && Print(p) == s && |Expand(p)| <= MAX_BRACE_EXPANSIONS ==>
              Capped(s) == Some(Expand(p))
  {
    ExpansionsExactly(s);
    BalancedHasTree(s);
  }

  // ----- the guard

  predicate IsSpace(c: char) {
    || '\t' <= c <= '\r' || c == ' ' || c == '\U{00a0}' || c == '\U{1680}' || '\U{2000}' <= c <= '\U{200a}'
    || c == '\U{2028}' || c == '\U{2029}' || c == '\U{202f}' || c == '\U{205f}' || c == '\U{3000}' || c == '\U{feff}'
  }

  /** An absolute or home-relative start at `i`, after blanks. */
  predicate RootedAt(s: string, i: nat)
    decreases |s| - i
  {
    i < |s| && (s[i] in "/\\~" || (IsSpace(s[i]) && RootedAt(s, i + 1)))
  }

  /** A parent segment at `i`: two dots ended by a separator, a brace, a comma or the end. */
  predicate ParentAt(s: string, i: nat) {
    i + 2 <= |s| && s[i] == '.' && s[i + 1] == '.' && (i + 2 == |s| || s[i + 2] in "/\\},")
  }

  predicate EscapesAt(s: string, i: nat) {
    i <= |s| &&
    (((i == 0 || s[i - 1] in "{,") && RootedAt(s, i)) || ((i == 0 || s[i - 1] in "/\\{,") && ParentAt(s, i)))
  }

  /** The escaping expression matches somewhere. */
  predicate EscapingPattern(s: string) {
    exists i :: 0 <= i <= |s| && EscapesAt(s, i)
  }

  predicate EscapesCheckout(s: string) {
    || |s| > MAX_PATTERN_LENGTH || '\\' in s || Opens(s) > MAX_BRACE_GROUPS || EscapingPattern(s)
    || Capped(s).None? || exists i :: 0 <= i < |Capped(s).value| && EscapingPattern(Capped(s).value[i])
  }

  /** The path components between slashes. */
  function Components(s: string): seq<string> {
    Split(s, '/')
  }

  /** A component that is exactly two dots sits at a place the expression matches. */
  lemma {:induction false} ParentComponent(s: string) returns (i: nat)
    requires ".." in Components(s)
    ensures (i == 0 || (i <= |s| && s[i - 1] == '/')) && ParentAt(s, i)
  {
    var r := Components(s[1..]);
    if s[0] == '/' {
      assert ".." in r;
      var j := ParentComponent(s[1..]);
      i := j + 1;
      ParentShift(s, j);
    } else if ".." in r[1..] {
      assert ".." in r;
      var j := LaterParent(s[1..]);
      i := j + 1;
      ParentShift(s, j);
    } else {
      assert [s[0]] + r[0] == "..";
      assert r[0] == "." by { assert r[0] == ([s[0]] + r[0])[1..]; }
      assert s[0] == ([s[0]] + r[0])[0] == '.';
      FirstComponent(s[1..]);
      assert s[1..][0] == "."[0];
      i := 0;
    }
  }

  lemma ParentShift(s: string, j: nat)
    requires s != [] && ParentAt(s[1..], j)
    ensures ParentAt(s, j + 1)
  {
  }

  /** What the first component says about the text it starts. */
  lemma {:induction false} FirstComponent(s: string)
    ensures var c := Components(s)[0]; c <= s && (|c| == |s| || s[|c|] == '/')
  {
    if s != [] && s[0] != '/' { FirstComponent(s[1..]); }
  }

  lemma {:induction false} LaterParent(s: string) returns (i: nat)
    requires ".." in Components(s)[1..]
    ensures 0 < i <= |s| && s[i - 1] == '/' && ParentAt(s, i)
  {
    var r := Components(s[1..]);
    if s[0] == '/' {
      assert Components(s)[1..] == r;
      var j := ParentComponent(s[1..]);
      i := j + 1;
      ParentShift(s, j);
    } else {
      assert Components(s)[1..] == r[1..];
      var j := LaterParent(s[1..]);
      i := j + 1;
      ParentShift(s, j);
    }
  }

  /** A relative path that stays below the directory it starts from. */
  predicate StaysInside(e: string) {
    !RootedAt(e, 0) && ".." !in Components(e)
  }

  lemma PassingStaysInside(e: string)
    requires !EscapingPattern(e)
    ensures StaysInside(e)
  {
    assert !EscapesAt(e, 0);
    if ".." in Components(e) {
      var i := ParentComponent(e);
      assert EscapesAt(e, i);
    }
  }

  /** A pattern the guard lets pass is a balanced tree with at most 256 expansions, none of which is
      absolute, home-relative or has a parent component. */
  lemma PassingPatternStaysInside(s: string)
    requires !EscapesCheckout(s)
    ensures exists p :: Proper(p, false) && Print(p) == s && |Expand(p)| <= MAX_BRACE_EXPANSIONS
    ensures forall p, i :: Proper(p, false) && Print(p) == s && 0 <= i < |Expand(p)| ==> StaysInside(Expand(p)[i])
  {
    CappedMeaning(s);
    ExpansionsExactly(s);
    forall p, i | Proper(p, false) && Print(p) == s && 0 <= i < |Expand(p)| ensures StaysInside(Expand(p)[i]) {
      assert Capped(s) == Some(Expand(p));
      PassingStaysInside(Expand(p)[i]);
    }
  }
}
