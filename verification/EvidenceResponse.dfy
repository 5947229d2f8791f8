/** The bounded evidence response: how much of an excerpt a 64 KiB answer can carry. */
module EvidenceResponse {
  import opened Options
  import opened Decimal

  const MAX_RESPONSE_BYTES: nat := 64 * 1024

  /** Text as code points; an unpaired surrogate is a code point of its own. */
  type Text = seq<nat>

  datatype Excerpt = Excerpt(manifestId: Text, offset: nat, text: Text, truncated: bool, omittedLines: nat,
      omittedBytes: nat)

  predicate Surrogate(c: nat) {
    0xd800 <= c <= 0xdfff
  }

  /** UTF-8 size; an unpaired surrogate is written as the three-byte replacement character. */
  function RawBytes(c: nat): (n: nat)
    ensures 1 <= n <= 4
  {
    if c < 0x80 then 1 else if c < 0x800 then 2 else if c < 0x10000 then 3 else 4
  }

  /** Size inside a JSON string (RFC 8259 section 7): two-character escapes, six-character escapes for
      the other controls and unpaired surrogates, and UTF-8 for everything else. */
  function EscapedBytes(c: nat): (n: nat)
    ensures n >= 1
  {
    if c == 0x22 || c == 0x5c || c == 0x08 || c == 0x09 || c == 0x0a || c == 0x0c || c == 0x0d then 2
    else if c < 0x20 || Surrogate(c) then 6
    else RawBytes(c)
  }

  function RawSize(t: Text): nat {
    if t == [] then 0 else RawSize(t[..|t| - 1]) + RawBytes(t[|t| - 1])
  }

  function EscapedSize(t: Text): nat {
    if t == [] then 0 else EscapedSize(t[..|t| - 1]) + EscapedBytes(t[|t| - 1])
  }

  /** The serialized excerpt in bytes: 85 bytes of names and punctuation, and the six values. */
  function Size(r: Excerpt): nat {
    85 + EscapedSize(r.manifestId) + Digits(r.offset) + EscapedSize(r.text) + (if r.truncated then 4 else 5)
    + Digits(r.omittedLines) + Digits(r.omittedBytes)
  }

  lemma {:induction false} RawPrefix(t: Text, m: nat)
    requires m <= |t|
    ensures RawSize(t[..m]) <= RawSize(t)
    decreases |t|
  {
    if m < |t| {
      assert t[..|t| - 1][..m] == t[..m];
      RawPrefix(t[..|t| - 1], m);
    } else {
      assert t[..m] == t;
    }
  }

  /** Keep the first `m` code points and account for the rest. */
  function Cut(r: Excerpt, m: nat): Excerpt
    requires m <= |r.text|
  {
    RawPrefix(r.text, m);
    r.(text := r.text[..m], truncated := true, omittedBytes := r.omittedBytes + RawSize(r.text) - RawSize(r.text[..m]))
  }

  predicate Fits(r: Excerpt) {
    Size(r) <= MAX_RESPONSE_BYTES
  }

  /** One more code point adds at least a byte of text and takes at most one digit off the count. */
  lemma NextIsLarger(r: Excerpt, m: nat)
    requires m < |r.text|
    ensures Size(Cut(r, m)) <= Size(Cut(r, m + 1))
  {
    assert r.text[..m + 1][..m] == r.text[..m];
    DigitsTenfold(Cut(r, m).omittedBytes, Cut(r, m + 1).omittedBytes);
  }

  lemma {:induction false} LongerIsLarger(r: Excerpt, m: nat, n: nat)
    requires m <= n <= |r.text|
    ensures Size(Cut(r, m)) <= Size(Cut(r, n))
    decreases n
  {
    if m < n {
      LongerIsLarger(r, m, n - 1);
      NextIsLarger(r, n - 1);
    }
  }

  /** The longest prefix whose response fits. */
  predicate Longest(r: Excerpt, m: nat) {
    && m <= |r.text| && Fits(Cut(r, m))
    && forall n :: m < n <= |r.text| ==> !Fits(Cut(r, n))
  }

  /** The answer: the excerpt itself if it fits; otherwise its longest fitting prefix, or a refusal
      when not even the empty one fits. */
  method Respond(r: Excerpt) returns (answer: Option<Excerpt>)
    ensures Fits(r) ==> answer == Some(r)
    ensures !Fits(r) ==> (answer.Some? <==> exists m :: 0 <= m <= |r.text| && Fits(Cut(r, m)))
    ensures !Fits(r) && answer.Some? ==> exists m :: 0 <= m <= |r.text| && Longest(r, m) && answer.value == Cut(r, m)
    ensures answer.Some? ==> Fits(answer.value)
  {
    if Fits(r) { return Some(r); }
    var low, high := 0, |r.text|;
    var best := Cut(r, 0);
    assert r.text[..0] == [];
    ghost var kept: nat := 0;
    while low <= high
      invariant 0 <= low <= |r.text| + 1 && -1 <= high <= |r.text|
      invariant kept <= |r.text| && best == Cut(r, kept)
      invariant low > 0 ==> kept == low - 1 && Fits(best)
      invariant low == 0 ==> kept == 0
      invariant forall n :: high < n <= |r.text| ==> !Fits(Cut(r, n))
    {
      var mid := (low + high) / 2;
      var candidate := Cut(r, mid);
      if Fits(candidate) {
        best, kept := candidate, mid;
        low := mid + 1;
      } else {
        forall n | mid <= n <= |r.text| ensures !Fits(Cut(r, n)) { LongerIsLarger(r, mid, n); }
        high := mid - 1;
      }
    }
    if Fits(best) {
      answer := Some(best);
      assert Longest(r, kept);
    } else {
      answer := None;
      forall n | 0 <= n <= |r.text| ensures !Fits(Cut(r, n)) { LongerIsLarger(r, 0, n); }
    }
  }

  /** There is only one longest prefix, so the answer is determined. */
  lemma LongestIsUnique(r: Excerpt, m: nat, n: nat)
    requires Longest(r, m) && Longest(r, n)
    ensures m == n
  {
  }

  /** An over-long excerpt keeps its whole text (yet is marked truncated) exactly when it was one byte
      over and not marked before: the word `true` is a byte shorter than `false`. */
  lemma WholeTextKept(r: Excerpt)
    requires !Fits(r)
    ensures Longest(r, |r.text|) <==> !r.truncated && Size(r) == MAX_RESPONSE_BYTES + 1
  {
    assert r.text[..|r.text|] == r.text;
  }
}
