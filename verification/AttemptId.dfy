/** Attempt ids: their grammar, how one is formatted, and the order on them. */
module AttemptId {
  import opened Options
  import opened Decimal
  import opened Text

  const MAX_SAFE_INTEGER: nat := 0x1f_ffff_ffff_ffff

  /** From here on a number prints in exponent notation. */
  const EXPONENT_FROM: nat := 1_000_000_000_000_000_000_000

  predicate IsHex(c: char) {
    IsDigit(c) || 'a' <= c <= 'f'
  }

  predicate AllHex(s: string) {
    forall i :: 0 <= i < |s| ==> IsHex(s[i])
  }

  /** Eight digits, `T`, six digits, `Z`. */
  predicate IsStamp(s: string) {
    |s| == 16 && AllDigits(s[..8]) && s[8] == 'T' && AllDigits(s[9..15]) && s[15] == 'Z'
  }

  /** A generation in decimal, or `x` for none. */
  predicate IsGeneration(s: string) {
    s == "x" || (|s| > 0 && AllDigits(s))
  }

  /** `<stamp>-g<generation>-<16 hex>`. */
  predicate IsAttemptId(s: string) {
    && |s| >= 36 && IsStamp(s[..16]) && s[16] == '-' && s[17] == 'g'
    && IsGeneration(s[18..|s| - 17]) && s[|s| - 17] == '-' && AllHex(s[|s| - 16..])
  }

  /** An id is its three parts. */
  function Assemble(stamp: string, generation: string, random: string): string {
    stamp + "-g" + generation + "-" + random
  }

  lemma AssembleParts(stamp: string, generation: string, random: string)
    requires |stamp| == 16 && |random| == 16
    ensures var s := Assemble(stamp, generation, random);
            && |s| == 35 + |generation| && s[..16] == stamp && s[16] == '-' && s[17] == 'g'
            && s[18..|s| - 17] == generation && s[|s| - 17] == '-' && s[|s| - 16..] == random
  {
    var s := Assemble(stamp, generation, random);
    var n := |generation|;
    assert s[18..18 + n] == generation;
    assert s[19 + n..] == random;
  }

  /** A string is an attempt id exactly when it is assembled from a stamp, a generation and hex. */
  lemma AttemptIdParts(s: string)
    ensures IsAttemptId(s) <==>
            |s| >= 36 && s == Assemble(s[..16], s[18..|s| - 17], s[|s| - 16..])
            && IsStamp(s[..16]) && IsGeneration(s[18..|s| - 17]) && AllHex(s[|s| - 16..])
  {
    if |s| >= 36 {
      AssembleParts(s[..16], s[18..|s| - 17], s[|s| - 16..]);
      if IsAttemptId(s) {
        var t := Assemble(s[..16], s[18..|s| - 17], s[|s| - 16..]);
        assert s == s[..16] + ([s[16]] + [s[17]]) + s[18..|s| - 17] + [s[|s| - 17]] + s[|s| - 16..];
      }
    }
  }

  // ----- formatting

  /** A point in time as its UTC calendar fields; the year of a date can leave four digits. */
  datatype Utc = Utc(year: int, month: nat, day: nat, hour: nat, minute: nat, second: nat)

  predicate IsDate(d: Utc) {
    1 <= d.month <= 12 && 1 <= d.day <= 31 && d.hour < 24 && d.minute < 60 && d.second < 60
  }

  function IntText(n: int): string {
    if n < 0 then "-" + ToString(-n) else ToString(n)
  }

  /** A whole number of at least 10^21 prints with an exponent; the mantissa does not matter here. */
  function NumberText(n: nat): string {
    if n < EXPONENT_FROM then ToString(n) else "e+"
  }

  function Pad(s: string, width: nat): string
    decreases width - |s|
  {
    if |s| >= width then s else Pad("0" + s, width)
  }

  function DateText(d: Utc): string {
    Pad(ToString(d.month), 2) + Pad(ToString(d.day), 2)
  }

  function TimeText(d: Utc): string {
    Pad(ToString(d.hour), 2) + Pad(ToString(d.minute), 2) + Pad(ToString(d.second), 2)
  }

  function Stamp(d: Utc): string {
    Pad(IntText(d.year), 4) + DateText(d) + "T" + TimeText(d) + "Z"
  }

  /** `None` when the randomness is refused. A negative generation counts as none. */
  function Format(d: Utc, generation: Option<int>, random: string): Option<string> {
    if |random| != 16 || !AllHex(random) then None
    else Some(Assemble(Stamp(d), if generation.Some? && generation.value >= 0 then NumberText(generation.value)
        else "x", random))
  }

  lemma {:induction false} PadLength(s: string, width: nat)
    ensures |Pad(s, width)| == if |s| >= width then |s| else width
    ensures AllDigits(s) ==> AllDigits(Pad(s, width))
    ensures !AllDigits(s) ==> !AllDigits(Pad(s, width))
    decreases width - |s|
  {
    if |s| < width {
      PadLength("0" + s, width);
      assert forall i :: 0 <= i < |s| ==> ("0" + s)[i + 1] == s[i];
    }
  }

  lemma TwoDigits(n: nat)
    requires n < 100
    ensures |Pad(ToString(n), 2)| == 2 && AllDigits(Pad(ToString(n), 2))
  {
    DigitsMonotone(n, 99);
    PadLength(ToString(n), 2);
  }

  lemma YearDigits(year: int)
    ensures 0 <= year <= 9999 <==> |Pad(IntText(year), 4)| == 4 && AllDigits(Pad(IntText(year), 4))
    ensures |Pad(IntText(year), 4)| >= 4
  {
    PadLength(IntText(year), 4);
    if 0 <= year <= 9999 {
      DigitsMonotone(year, 9999);
    } else if year > 9999 {
      DigitsMonotone(10000, year);
    } else {
      assert IntText(year)[0] == '-';
    }
  }

  lemma DateDigits(d: Utc)
    requires IsDate(d)
    ensures |DateText(d)| == 4 && AllDigits(DateText(d)) && |TimeText(d)| == 6 && AllDigits(TimeText(d))
  {
    TwoDigits(d.month);
    TwoDigits(d.day);
    TwoDigits(d.hour);
    TwoDigits(d.minute);
    TwoDigits(d.second);
  }

  /** The stamp has its fixed shape exactly for the years 0 to 9999. */
  lemma StampShape(d: Utc)
    requires IsDate(d)
    ensures IsStamp(Stamp(d)) <==> 0 <= d.year <= 9999
    ensures |Stamp(d)| >= 16 && (0 <= d.year <= 9999 ==> |Stamp(d)| == 16)
  {
    YearDigits(d.year);
    DateDigits(d);
    if |Pad(IntText(d.year), 4)| == 4 { StampPieces(Pad(IntText(d.year), 4), DateText(d), TimeText(d)); }
  }

  lemma StampPieces(year: string, date: string, time: string)
    requires |year| == 4 && |date| == 4 && |time| == 6 && AllDigits(date) && AllDigits(time)
    ensures IsStamp(year + date + "T" + time + "Z") <==> AllDigits(year)
  {
    var s := year + date + "T" + time + "Z";
    assert s[..8] == year + date && s[9..15] == time;
    assert forall i :: 0 <= i < 4 ==> (year + date)[i] == year[i];
  }

  lemma GenerationText(n: nat)
    ensures IsGeneration(NumberText(n)) <==> n < EXPONENT_FROM
  {
    assert "e+"[0] == 'e';
  }

  /** A formatted id is valid exactly for years of four digits and a generation that prints without
      an exponent. */
  lemma FormatIsValid(d: Utc, generation: Option<int>, random: string)
    requires IsDate(d) && Format(d, generation, random).Some?
    ensures IsAttemptId(Format(d, generation, random).value) <==>
            0 <= d.year <= 9999 && (generation.Some? ==> generation.value < EXPONENT_FROM)
  {
    StampShape(d);
    var text := if generation.Some? && generation.value >= 0 then NumberText(generation.value) else "x";
    var s := Assemble(Stamp(d), text, random);
    if generation.Some? && generation.value >= 0 { GenerationText(generation.value); }
    if |Stamp(d)| == 16 {
      AssembleParts(Stamp(d), text, random);
      assert |text| >= 1;
    } else {
      LongStamp(d, text, random);
    }
  }

  /** A stamp of another length leaves no dash at the fixed place. */
  lemma LongStamp(d: Utc, text: string, random: string)
    requires IsDate(d) && |Stamp(d)| > 16
    ensures !IsAttemptId(Assemble(Stamp(d), text, random))
  {
    var s := Assemble(Stamp(d), text, random);
    var stamp := Stamp(d);
    if IsAttemptId(s) {
      assert s[16] == stamp[16];
      StampTail(d);
    }
  }

  lemma StampTail(d: Utc)
    requires IsDate(d) && |Stamp(d)| > 16
    ensures Stamp(d)[16] != '-'
  {
    var year := Pad(IntText(d.year), 4);
    YearDigits(d.year);
    PadLength(IntText(d.year), 4);
    DateDigits(d);
    TailPieces(year, DateText(d), TimeText(d));
  }

  lemma TailPieces(year: string, date: string, time: string)
    requires |year| > 4 && |date| == 4 && |time| == 6 && AllDigits(date) && AllDigits(time)
    requires forall i :: 0 < i < |year| ==> year[i] != '-'
    ensures (year + date + "T" + time + "Z")[16] != '-'
  {
    var rest := date + "T" + time + "Z";
    assert year + date + "T" + time + "Z" == year + rest;
    assert forall i :: 0 <= i < |rest| ==> rest[i] != '-';
    assert (year + rest)[16] == if 16 < |year| then year[16] else rest[16 - |year|];
  }

  // ----- the order

  /** The generation an id names, if it is one a number can hold exactly. */
  function GenerationOf(s: string): (g: Option<nat>)
    ensures g.Some? ==> g.value <= MAX_SAFE_INTEGER
  {
    if !IsAttemptId(s) || s[18..|s| - 17] == "x" then None
    else
      var n := ToNat(s[18..|s| - 17]);
      if n <= MAX_SAFE_INTEGER then Some(n) else None
  }

  function Rank(s: string): int {
    if GenerationOf(s).Some? then GenerationOf(s).value else -1
  }

  /** The text before the first dash; without one, all but the last character. */
  function Start(s: string): string {
    var k := IndexOfDash(s);
    if k < |s| then s[..k] else if |s| > 0 then s[..|s| - 1] else ""
  }

  function IndexOfDash(s: string): (k: nat)
    ensures k <= |s| && (k < |s| ==> s[k] == '-')
    ensures forall i :: 0 <= i < k ==> s[i] != '-'
  {
    if s == [] || s[0] == '-' then 0 else 1 + IndexOfDash(s[1..])
  }

  function Compare(a: string, b: string): int {
    if Start(a) != Start(b) then if Before(Start(a), Start(b)) then -1 else 1
    else if Rank(a) != Rank(b) then Rank(a) - Rank(b)
    else if Before(a, b) then -1 else if Before(b, a) then 1 else 0
  }

  /** Zero only on equal ids. */
  lemma CompareZero(a: string, b: string)
    ensures Compare(a, b) == 0 <==> a == b
  {
    BeforeTotal(a, b);
    BeforeTotal(b, a);
  }

  lemma CompareFlips(a: string, b: string)
    ensures Compare(a, b) < 0 <==> Compare(b, a) > 0
  {
    BeforeTotal(a, b);
    BeforeTotal(b, a);
    BeforeTotal(Start(a), Start(b));
    BeforeTotal(Start(b), Start(a));
  }

  /** Together: a total order on all strings. */
  lemma CompareTransitive(a: string, b: string, c: string)
    requires Compare(a, b) < 0 && Compare(b, c) < 0
    ensures Compare(a, c) < 0
  {
    BeforeTotal(Start(a), Start(c));
    BeforeTotal(Start(b), Start(c));
    BeforeTotal(Start(a), Start(b));
    if Before(Start(a), Start(b)) && Before(Start(b), Start(c)) { BeforeTransitive(Start(a), Start(b), Start(c)); }
    if Before(a, b) && Before(b, c) { BeforeTransitive(a, b, c); }
  }

  /** Ids of the same second are ordered by generation as a number, with `gx` lowest, exactly as far
      as the larger generation is a safe integer: an unsafe one ranks with `gx`, and ids of that
      rank are ordered as text. */
  lemma CompareByGeneration(stamp: string, g: nat, h: nat, x: string, y: string)
    requires IsStamp(stamp) && |x| == 16 && AllHex(x) && |y| == 16 && AllHex(y) && g < h
    ensures var a, b := Assemble(stamp, ToString(g), x), Assemble(stamp, ToString(h), y);
            Compare(a, b) < 0 <==> h <= MAX_SAFE_INTEGER || (g > MAX_SAFE_INTEGER && Before(a, b))
    ensures var a, b := Assemble(stamp, "x", x), Assemble(stamp, ToString(h), y);
            Compare(a, b) < 0 <==> h <= MAX_SAFE_INTEGER || Before(a, b)
  {
    AssembledRank(stamp, ToString(g), x);
    AssembledRank(stamp, ToString(h), y);
    AssembledRank(stamp, "x", x);
    ReadBack(g);
    ReadBack(h);
  }

  lemma AssembledRank(stamp: string, generation: string, random: string)
    requires IsStamp(stamp) && IsGeneration(generation) && |random| == 16 && AllHex(random)
    ensures var s := Assemble(stamp, generation, random);
            && IsAttemptId(s) && Start(s) == stamp
            && Rank(s) == if generation != "x" && ToNat(generation) <= MAX_SAFE_INTEGER then ToNat(generation) else -1
  {
    var s := Assemble(stamp, generation, random);
    AssembleParts(stamp, generation, random);
    forall i | 0 <= i < 16 ensures s[i] != '-' {
      assert s[i] == stamp[i];
      if i < 8 { assert stamp[i] == stamp[..8][i]; } else if 9 <= i < 15 { assert stamp[i] == stamp[9..15][i - 9]; }
    }
    var k := IndexOfDash(s);
    assert k == 16;
  }
}
