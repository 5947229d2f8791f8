/** Clone paths of attempts, clone keys and quarantined residue names: printers and parsers that
    invert each other. */
module AttemptPath {
  import opened Options
  import opened Text
  import opened Decimal
  import opened AttemptId

  const ATTEMPT_SEPARATOR := ".attempt-"
  const RESIDUE_SEPARATOR := ".residue-"
  const SKILLS_PREFIX := ".uzi-skills-"
  const RESIDUE_PREFIX := ".uzi-residue-"

  // ----- splitting a name at its last separator

  predicate Dotless(s: string) {
    '.' !in s
  }

  /** The index of the last dot, or the length. */
  function LastDot(s: string): (k: nat)
    ensures k <= |s| && (k < |s| ==> s[k] == '.') && (forall i :: k < i < |s| ==> s[i] != '.')
    ensures k == |s| ==> Dotless(s)
  {
    if s == [] then 0
    else if s[|s| - 1] == '.' then |s| - 1
    else
      var k := LastDot(s[..|s| - 1]);
      assert s == s[..|s| - 1] + [s[|s| - 1]];
      if k == |s| - 1 then |s| else k
  }

  datatype Halves = Halves(before: string, after: string)

  /** Cut at the last dot if the separator stands there. */
  function CutAt(s: string, separator: string): Option<Halves> {
    var k := LastDot(s);
    if k + |separator| <= |s| && s[k..k + |separator|] == separator
    then Some(Halves(s[..k], s[k + |separator|..])) else None
  }

  predicate IsSeparator(s: string) {
    |s| > 0 && s[0] == '.' && Dotless(s[1..])
  }

  /** With no dot after the separator there is one place to cut. */
  lemma CutJoined(before: string, separator: string, after: string)
    requires IsSeparator(separator) && Dotless(after)
    ensures CutAt(before + separator + after, separator) == Some(Halves(before, after))
  {
    var s := before + separator + after;
    assert s[|before|] == '.';
    forall i | |before| < i < |s| ensures s[i] != '.' {
      if i < |before| + |separator| {
        assert s[i] == separator[1..][i - |before| - 1];
      } else {
        assert s[i] == after[i - |before| - |separator|];
      }
    }
    assert LastDot(s) == |before|;
    assert s[|before|..|before| + |separator|] == separator;
    assert s[..|before|] == before && s[|before| + |separator|..] == after;
  }

  lemma CutRejoins(s: string, separator: string)
    requires CutAt(s, separator).Some?
    ensures var h := CutAt(s, separator).value; s == h.before + separator + h.after
  {
    var k := LastDot(s);
    assert s == s[..k] + s[k..k + |separator|] + s[k + |separator|..];
  }

  lemma SeparatorsOk()
    ensures IsSeparator(ATTEMPT_SEPARATOR) && IsSeparator(RESIDUE_SEPARATOR)
  {
    assert ATTEMPT_SEPARATOR[1..] == "attempt-" && RESIDUE_SEPARATOR[1..] == "residue-";
  }

  lemma AttemptIdDotless(s: string)
    requires IsAttemptId(s)
    ensures Dotless(s)
  {
    AttemptIdParts(s);
    var stamp, generation, random := s[..16], s[18..|s| - 17], s[|s| - 16..];
    StampDotless(stamp);
    assert generation == "x" || AllDigits(generation);
    assert Dotless("-g") && Dotless("-");
  }

  lemma StampDotless(s: string)
    requires IsStamp(s)
    ensures Dotless(s)
  {
    forall i | 0 <= i < 16 ensures s[i] != '.' {
      if i < 8 { assert s[i] == s[..8][i]; } else if 9 <= i < 15 { assert s[i] == s[9..15][i - 9]; }
    }
  }

  // ----- attempt basenames

  /** The characters `.` of a regular expression does not match. */
  predicate LineTerminator(c: char) {
    c == '\n' || c == '\r' || c == '\U{2028}' || c == '\U{2029}'
  }

  predicate OneLine(s: string) {
    forall i :: 0 <= i < |s| ==> !LineTerminator(s[i])
  }

  datatype Basename = Basename(key: string, id: string)

  function ParseBasename(base: string): Option<Basename> {
    var h := CutAt(base, ATTEMPT_SEPARATOR);
    if h.Some? && h.value.before != "" && OneLine(h.value.before) && IsAttemptId(h.value.after)
    then Some(Basename(h.value.before, h.value.after)) else None
  }

  /** The parse is the match of `<key>.attempt-<id>`, and there is never more than one. */
  lemma ParseBasenameExactly(base: string, key: string, id: string)
    ensures ParseBasename(base) == Some(Basename(key, id)) <==>
            base == key + ATTEMPT_SEPARATOR + id && key != "" && OneLine(key) && IsAttemptId(id)
  {
    SeparatorsOk();
    if CutAt(base, ATTEMPT_SEPARATOR).Some? { CutRejoins(base, ATTEMPT_SEPARATOR); }
    if IsAttemptId(id) {
      AttemptIdDotless(id);
      CutJoined(key, ATTEMPT_SEPARATOR, id);
    }
  }

  // ----- paths

  /** A path component that normalisation leaves alone. */
  predicate IsComponent(s: string) {
    s != "" && s != "." && s != ".." && '/' !in s
  }

  predicate AreComponents(cs: seq<string>) {
    forall i :: 0 <= i < |cs| ==> IsComponent(cs[i])
  }

  /** The absolute path with these components. */
  function PathOf(cs: seq<string>): string {
    "/" + Join(cs, '/')
  }

  /** The components of an absolute, normal path without a trailing slash. */
  function ComponentsOf(p: string): Option<seq<string>> {
    if p == "" || p[0] != '/' || !AreComponents(Split(p[1..], '/')) then None else Some(Split(p[1..], '/'))
  }

  lemma ComponentsExactly(p: string, cs: seq<string>)
    requires cs != []
    ensures ComponentsOf(p) == Some(cs) <==> AreComponents(cs) && p == PathOf(cs)
  {
    if AreComponents(cs) {
      SplitJoin(cs, '/');
      assert PathOf(cs)[1..] == Join(cs, '/');
    }
    if ComponentsOf(p) == Some(cs) {
      JoinSplit(p[1..], '/');
      assert p == [p[0]] + p[1..];
    }
  }

  datatype Attempt = Attempt(repoDir: string, key: string, id: string)

  /** `root` is the resolved runner root. */
  function ParseAttemptPath(p: string, root: seq<string>): Option<Attempt> {
    var cs := ComponentsOf(p);
    if cs.None? || |cs.value| != |root| + 2 || cs.value[..|root|] != root then None
    else
      var b := ParseBasename(cs.value[|root| + 1]);
      if b.None? || b.value.key == "." || b.value.key == ".." then None
      else Some(Attempt(cs.value[|root|], b.value.key, b.value.id))
  }

  /** `None` for a malformed id. */
  function AttemptClonePath(canonical: string, id: string): Option<string> {
    if IsAttemptId(id) then Some(canonical + ATTEMPT_SEPARATOR + id) else None
  }

  /** Keys a clone may have: any single-line component, even one that holds an earlier separator. */
  predicate IsKey(key: string) {
    IsComponent(key) && OneLine(key)
  }

  lemma IdSlashless(id: string)
    requires IsAttemptId(id)
    ensures '/' !in id
  {
    AttemptIdParts(id);
    var stamp, generation := id[..16], id[18..|id| - 17];
    forall i | 0 <= i < 16 ensures stamp[i] != '/' {
      if i < 8 { assert stamp[i] == stamp[..8][i]; } else if 9 <= i < 15 { assert stamp[i] == stamp[9..15][i - 9]; }
    }
    assert generation == "x" || AllDigits(generation);
  }

  /** The basename of an attempt clone is one component. */
  lemma AttemptComponent(key: string, id: string)
    requires '/' !in key && key != "" && IsAttemptId(id)
    ensures IsComponent(key + ATTEMPT_SEPARATOR + id)
  {
    IdSlashless(id);
    assert |key + ATTEMPT_SEPARATOR + id| > 2;
  }

  lemma {:induction false} JoinLast(cs: seq<string>, last: string, sep: char)
    ensures Join(cs + [last], sep) == if cs == [] then last else Join(cs, sep) + [sep] + last
  {
    if cs != [] {
      assert (cs + [last])[1..] == cs[1..] + [last];
      JoinLast(cs[1..], last, sep);
      if |cs| > 1 {
        assert cs[0] + [sep] + (Join(cs[1..], sep) + [sep] + last)
            == (cs[0] + [sep] + Join(cs[1..], sep)) + [sep] + last;
      } else {
        assert cs == [cs[0]] && cs[1..] == [];
      }
    }
  }

  /** Extending the last component extends the path. */
  lemma PathExtends(cs: seq<string>, last: string, more: string)
    ensures PathOf(cs + [last + more]) == PathOf(cs + [last]) + more
  {
    JoinLast(cs, last, '/');
    JoinLast(cs, last + more, '/');
    if cs != [] { assert Join(cs, '/') + "/" + (last + more) == (Join(cs, '/') + "/" + last) + more; }
  }

  lemma ClonePathComponents(dir: seq<string>, key: string, id: string)
    requires AreComponents(dir) && '/' !in key && key != "" && IsAttemptId(id)
    ensures var p := AttemptClonePath(PathOf(dir + [key]), id).value;
            ComponentsOf(p) == Some(dir + [key + ATTEMPT_SEPARATOR + id])
  {
    var base := key + ATTEMPT_SEPARATOR + id;
    AttemptComponent(key, id);
    ClonePathOf(dir, key, id);
    ComponentsExactly(PathOf(dir + [base]), dir + [base]);
  }

  /** Formatting then parsing returns the same parts. */
  lemma FormatThenParse(root: seq<string>, repoDir: string, key: string, id: string)
    requires AreComponents(root) && IsComponent(repoDir) && IsKey(key) && IsAttemptId(id)
    ensures ParseAttemptPath(AttemptClonePath(PathOf(root + [repoDir, key]), id).value, root)
              == Some(Attempt(repoDir, key, id))
  {
    var dir := root + [repoDir];
    assert dir + [key] == root + [repoDir, key];
    ClonePathComponents(dir, key, id);
    ParseBasenameExactly(key + ATTEMPT_SEPARATOR + id, key, id);
    var cs := dir + [key + ATTEMPT_SEPARATOR + id];
    assert cs[..|root|] == root && cs[|root|] == repoDir;
  }

  lemma KeySlashless(key: string, rest: string)
    requires '/' !in key + rest
    ensures '/' !in key
  {
    assert forall i :: 0 <= i < |key| ==> (key + rest)[i] == key[i];
  }

  /** A path is its directory and its attempt basename. */
  lemma ClonePathOf(dir: seq<string>, key: string, id: string)
    requires IsAttemptId(id)
    ensures AttemptClonePath(PathOf(dir + [key]), id) == Some(PathOf(dir + [key + ATTEMPT_SEPARATOR + id]))
  {
    PathExtends(dir, key, ATTEMPT_SEPARATOR + id);
    assert key + (ATTEMPT_SEPARATOR + id) == key + ATTEMPT_SEPARATOR + id;
    assert PathOf(dir + [key]) + (ATTEMPT_SEPARATOR + id) == PathOf(dir + [key]) + ATTEMPT_SEPARATOR + id;
  }

  /** Parsing then formatting returns the same path, and the parts are valid. */
  lemma ParseThenFormat(p: string, root: seq<string>)
    requires AreComponents(root) && ParseAttemptPath(p, root).Some?
    ensures var a := ParseAttemptPath(p, root).value;
            && IsComponent(a.repoDir) && IsKey(a.key) && IsAttemptId(a.id)
            && AttemptClonePath(PathOf(root + [a.repoDir, a.key]), a.id) == Some(p)
  {
    var cs := ComponentsOf(p).value;
    var a := ParseAttemptPath(p, root).value;
    var base := cs[|root| + 1];
    ParseBasenameExactly(base, a.key, a.id);
    assert IsComponent(base) && IsComponent(a.repoDir);
    KeySlashless(a.key, ATTEMPT_SEPARATOR + a.id);
    ComponentsExactly(p, cs);
    assert cs == root + [a.repoDir] + [base];
    ClonePathOf(root + [a.repoDir], a.key, a.id);
    assert root + [a.repoDir] + [a.key] == root + [a.repoDir, a.key];
  }

  // ----- clone keys

  datatype CloneKey = CloneKey(cloneKey: string, canonicalPath: string)

  /** The identity of a clone path given by its resolved components, of which there are at least two. */
  function CloneKeyOf(cs: seq<string>): CloneKey
    requires |cs| >= 2
  {
    var n := |cs| - 1;
    var b := ParseBasename(cs[n]);
    var key := if b.Some? then b.value.key else cs[n];
    CloneKey(cs[n - 1] + "/" + key, if key == "." then PathOf(cs[..n]) else if key == ".." then PathOf(cs[..n - 1])
        else PathOf(cs[..n] + [key]))
  }

  /** The clone key of an attempt clone is that of the canonical clone it was made for, unless the
      key holds a line terminator, in which case the attempt is not recognised. */
  lemma CloneKeyInverts(dir: seq<string>, key: string, id: string)
    requires AreComponents(dir) && dir != [] && IsComponent(key) && IsAttemptId(id)
    ensures var p := AttemptClonePath(PathOf(dir + [key]), id).value;
            && ComponentsOf(p).Some? && |ComponentsOf(p).value| == |dir| + 1
            && (OneLine(key) <==>
                CloneKeyOf(ComponentsOf(p).value) == CloneKey(dir[|dir| - 1] + "/" + key, PathOf(dir + [key])))
  {
    ClonePathComponents(dir, key, id);
    var base := key + ATTEMPT_SEPARATOR + id;
    var cs := dir + [base];
    assert cs[..|dir|] == dir;
    if OneLine(key) {
      ParseBasenameExactly(base, key, id);
    } else {
      Unrecognised(key, id);
      assert |dir[|dir| - 1] + "/" + base| > |dir[|dir| - 1] + "/" + key|;
    }
  }

  lemma Unrecognised(key: string, id: string)
    requires !OneLine(key) && IsAttemptId(id)
    ensures ParseBasename(key + ATTEMPT_SEPARATOR + id).None?
  {
    SeparatorsOk();
    AttemptIdDotless(id);
    CutJoined(key, ATTEMPT_SEPARATOR, id);
  }

  // ----- residue names

  /** A lowercase version-4 uuid (RFC 4122 section 4.4). */
  predicate IsUuid(s: string) {
    && |s| == 36 && s[8] == '-' && s[13] == '-' && s[18] == '-' && s[23] == '-'
    && s[14] == '4' && s[19] in "89ab"
    && forall i :: 0 <= i < 36 && i != 8 && i != 13 && i != 18 && i != 23 ==> IsHex(s[i])
  }

  predicate IsControl(c: char) {
    c < ' ' || '\U{007f}' <= c <= '\U{009f}' || c == '\U{2028}' || c == '\U{2029}'
  }

  predicate HasControl(s: string) {
    exists i :: 0 <= i < |s| && IsControl(s[i])
  }

  predicate IsResidueKey(key: string) {
    key != "" && key[0] != '.' && '/' !in key && !HasControl(key) && ParseBasename(key).None?
  }

  function FormatResidue(key: string, uuid: string): Option<string> {
    if IsResidueKey(key) && IsUuid(uuid) then Some(RESIDUE_PREFIX + key + RESIDUE_SEPARATOR + uuid) else None
  }

  datatype Artifact = Skills(cloneBasename: string) | Residue(key: string, uuid: string)

  function ParseArtifact(name: string): Option<Artifact> {
    if SKILLS_PREFIX <= name then
      var rest := name[|SKILLS_PREFIX|..];
      if rest == "" || rest == "." || rest == ".." || '/' in rest then None else Some(Skills(rest))
    else if !(RESIDUE_PREFIX <= name) || HasControl(name) then None
    else
      var h := CutAt(name[|RESIDUE_PREFIX|..], RESIDUE_SEPARATOR);
      if h.None? || !IsUuid(h.value.after) || !IsResidueKey(h.value.before) then None
      else Some(Residue(h.value.before, h.value.after))
  }

  lemma UuidPlain(s: string)
    requires IsUuid(s)
    ensures Dotless(s) && !HasControl(s)
  {
    forall i | 0 <= i < 36 ensures s[i] != '.' && !IsControl(s[i]) {
      if i != 8 && i != 13 && i != 18 && i != 23 { assert IsHex(s[i]); }
    }
  }

  lemma PlainConcat(a: string, b: string)
    ensures HasControl(a + b) <==> HasControl(a) || HasControl(b)
  {
    assert forall i :: 0 <= i < |a| ==> (a + b)[i] == a[i];
    assert forall i :: 0 <= i < |b| ==> (a + b)[|a| + i] == b[i];
  }

  lemma ResidueNamePlain(key: string, uuid: string)
    requires IsResidueKey(key) && IsUuid(uuid)
    ensures !HasControl(RESIDUE_PREFIX + key + RESIDUE_SEPARATOR + uuid)
  {
    UuidPlain(uuid);
    PlainConcat(RESIDUE_PREFIX + key + RESIDUE_SEPARATOR, uuid);
    PlainConcat(RESIDUE_PREFIX + key, RESIDUE_SEPARATOR);
    PlainConcat(RESIDUE_PREFIX, key);
  }

  lemma ResidueFormatted(key: string, uuid: string)
    requires IsResidueKey(key) && IsUuid(uuid)
    ensures ParseArtifact(RESIDUE_PREFIX + key + RESIDUE_SEPARATOR + uuid) == Some(Residue(key, uuid))
  {
    var rest := key + RESIDUE_SEPARATOR + uuid;
    var name := RESIDUE_PREFIX + key + RESIDUE_SEPARATOR + uuid;
    SeparatorsOk();
    UuidPlain(uuid);
    ResidueNamePlain(key, uuid);
    assert name == RESIDUE_PREFIX + rest;
    NotSkills(name, rest);
    assert name[|RESIDUE_PREFIX|..] == rest;
    CutJoined(key, RESIDUE_SEPARATOR, uuid);
  }

  lemma ResidueParsed(name: string)
    requires ParseArtifact(name).Some? && ParseArtifact(name).value.Residue?
    ensures var a := ParseArtifact(name).value; FormatResidue(a.key, a.uuid) == Some(name)
  {
    var rest := name[|RESIDUE_PREFIX|..];
    CutRejoins(rest, RESIDUE_SEPARATOR);
    var h := CutAt(rest, RESIDUE_SEPARATOR).value;
    Reprefix(name, RESIDUE_PREFIX, h.before, RESIDUE_SEPARATOR, h.after);
  }

  lemma Reprefix(name: string, prefix: string, key: string, separator: string, tail: string)
    requires prefix <= name && name[|prefix|..] == key + separator + tail
    ensures name == prefix + key + separator + tail
  {
    assert name == prefix + name[|prefix|..];
    assert prefix + (key + separator + tail) == prefix + key + separator + tail;
  }

  /** A name parses to residue exactly when formatting that key and uuid gives the name: the two
      directions of the round trip. */
  lemma ResidueRoundTrip(name: string, key: string, uuid: string)
    ensures ParseArtifact(name) == Some(Residue(key, uuid)) <==> FormatResidue(key, uuid) == Some(name)
  {
    if FormatResidue(key, uuid).Some? { ResidueFormatted(key, uuid); }
    if ParseArtifact(name).Some? && ParseArtifact(name).value.Residue? { ResidueParsed(name); }
  }

  lemma NotSkills(name: string, rest: string)
    requires name == RESIDUE_PREFIX + rest
    ensures !(SKILLS_PREFIX <= name)
  {
    assert name[5] == 'r' && SKILLS_PREFIX[5] == 's';
  }

  /** A residue name is never a clone: no attempt basename of a proper key starts with a dot. */
  lemma ArtifactIsNoClone(name: string, key: string, id: string)
    requires SKILLS_PREFIX <= name || RESIDUE_PREFIX <= name
    requires key != "" && key[0] != '.'
    ensures name != key && name != key + ATTEMPT_SEPARATOR + id
  {
    assert SKILLS_PREFIX[0] == '.' && RESIDUE_PREFIX[0] == '.';
    assert name[0] == '.';
    assert (key + ATTEMPT_SEPARATOR + id)[0] == key[0];
  }
}
