/** Memory quantities as scan jobs write them: a number, perhaps a suffix, everything 1024-based. */
module MemLimit {
  import opened Common
  import opened Text
  import opened Numerals

  function Pow1024(e: nat): nat {
    if e == 0 then 1 else 1024 * Pow1024(e - 1)
  }

  /** The power of 1024 a suffix stands for. */
  function Power(suffix: string): Option<nat> {
    if suffix == "b" then Some(0)
    else if suffix == "k" || suffix == "ki" then Some(1)
    else if suffix == "m" || suffix == "mi" then Some(2)
    else if suffix == "g" || suffix == "gi" then Some(3)
    else if suffix == "t" || suffix == "ti" then Some(4)
    else None
  }

  /** How `float` reads a text; the binary formats hold every integer below this bound exactly. */
  datatype Reading = Finite(value: real) | Infinite | NotANumber

  const EXACT := 0x20_0000_0000_0000

  predicate IsLetter(c: char) {
    'a' <= c <= 'z' || 'A' <= c <= 'Z'
  }

  /** `float(text)`; numerals too long to be exact and all other notations are read by `other`. */
  function ReadFloat(text: string, other: string -> Reading): Reading {
    var t := Strip(text);
    if IsNumeral(t) && Value(t) < EXACT then Finite(Value(t) as real) else other(text)
  }

  /** `int(text)`: a numeral of any length; a letter is always an error, the rest is read by `other`. */
  function ReadInt(text: string, other: string -> Option<int>): Option<int> {
    var t := Strip(text);
    if IsNumeral(t) then Some(Value(t))
    else if exists i :: 0 <= i < |text| && IsLetter(text[i]) then None
    else other(text)
  }

  /** `int` of a float: towards zero. */
  function Truncate(x: real): int {
    if x >= 0.0 then x.Floor else -((-x).Floor)
  }

  /** Two to the 1024th: no float is this large, and a product that would be is infinite. */
  function TooLarge(): nat {
    16 * Pow1024(102)
  }

  /** `int(x * m)` for a power of two `m`, where floats lose nothing but what is too large for them;
      None is the error of `int` on an infinity. */
  function Times(x: real, m: nat): Option<int> {
    if -(TooLarge() as real) < x * m as real < TooLarge() as real then Some(Truncate(x * m as real)) else None
  }

  function Pow2(k: nat): nat {
    if k == 0 then 1 else 2 * Pow2(k - 1)
  }

  lemma {:induction false} TenDoublings(e: nat, rest: nat)
    ensures Pow2(10 * e + rest) == Pow1024(e) * Pow2(rest)
  {
    if e > 0 {
      TenDoublings(e - 1, rest);
      var k := 10 * (e - 1) + rest;
      assert Pow2(k + 1) == 2 * Pow2(k) && Pow2(k + 2) == 4 * Pow2(k) && Pow2(k + 3) == 8 * Pow2(k);
      assert Pow2(k + 4) == 16 * Pow2(k) && Pow2(k + 5) == 32 * Pow2(k) && Pow2(k + 6) == 64 * Pow2(k);
      assert Pow2(k + 7) == 128 * Pow2(k) && Pow2(k + 8) == 256 * Pow2(k) && Pow2(k + 9) == 512 * Pow2(k);
      assert Pow2(k + 10) == 1024 * Pow2(k) && k + 10 == 10 * e + rest;
    }
  }

  lemma SixteenTimes(e: nat)
    ensures Pow2(10 * e + 4) == 16 * Pow1024(e)
  {
    TenDoublings(e, 4);
    assert Pow2(4) == 16;
  }

  lemma TooLargeExactly(bits: nat)
    requires bits == 1024
    ensures TooLarge() == Pow2(bits)
  {
    SixteenTimes(102);
  }

  /** Towards zero. */
  lemma TruncateExactly(x: real)
    ensures x >= 0.0 ==> Truncate(x) as real <= x < (Truncate(x) + 1) as real
    ensures x < 0.0 ==> (Truncate(x) - 1) as real < x <= Truncate(x) as real
  {
  }

  /** A product of two to the 1024th or more is an error; any other is made an integer. */
  lemma TimesExactly(x: real, m: nat, product: real)
    requires product == x * m as real
    ensures Times(x, m) == if -(TooLarge() as real) < product < TooLarge() as real then Some(Truncate(product)) else None
  {
  }

  /** Nothing but blanks is no limit. */
  lemma BlankIsZero(blanks: string, float: string -> Reading, int_: string -> Option<int>)
    requires AllSpace(blanks)
    ensures MemLimit(blanks, float, int_) == Some(0)
  {
    StripPadding(blanks, "", "");
    assert blanks + "" + "" == blanks;
  }

  /** `s[-n:]` and `s[:-n]`. */
  function Tail(s: string, n: nat): string {
    if |s| <= n then s else s[|s| - n..]
  }

  function Head(s: string, n: nat): string {
    if |s| <= n then "" else s[..|s| - n]
  }

  predicate Suffixed(s: string, n: nat) {
    Power(Tail(s, n)).Some? && Strip(Head(s, n)) != ""
  }

  /** The number `stem` reads as, times a power of 1024; None is an error. */
  function Scaled(stem: string, power: nat, float: string -> Reading): Option<int> {
    match ReadFloat(stem, float)
    case Finite(x) => Times(x, Pow1024(power))
    case _ => None
  }

  /** What the parser makes of a stripped text in lower case. */
  function Quantity(s: string, float: string -> Reading, int_: string -> Option<int>): Option<int> {
    if s == "" then Some(0)
    else if Suffixed(s, 2) then Scaled(Head(s, 2), Power(Tail(s, 2)).value, float)
    else if Suffixed(s, 1) then Scaled(Head(s, 1), Power(Tail(s, 1)).value, float)
    else ReadInt(s, int_)
  }

  /** `_parse_mem_limit` as a function of the text. */
  function MemLimit(value: string, float: string -> Reading, int_: string -> Option<int>): Option<int> {
    Quantity(Lower(Strip(value)), float, int_)
  }

  method ParseMemLimit(value: string, float: string -> Reading, int_: string -> Option<int>)
    returns (bytes: Option<int>)
    ensures bytes == MemLimit(value, float, int_)
  {
    var s := Lower(Strip(value));
    if s == "" {
      return Some(0);
    }
    var lengths := [2, 1];
    for i := 0 to 2
      invariant i >= 1 ==> !Suffixed(s, 2)
      invariant i >= 2 ==> !Suffixed(s, 1)
    {
      if Suffixed(s, lengths[i]) {
        return Scaled(Head(s, lengths[i]), Power(Tail(s, lengths[i])).value, float);
      }
    }
    return ReadInt(s, int_);
  }

  // ---- what written quantities mean -----------------------------------------

  lemma NumeralTrimmed(s: string)
    requires IsNumeral(s)
    ensures Trimmed(s) && Lower(s) == s
  {
  }

  lemma SpacesLower(s: string)
    requires AllSpace(s)
    ensures Lower(s) == s
  {
  }

  lemma LowerAppend(a: string, b: string)
    ensures Lower(a + b) == Lower(a) + Lower(b)
  {
  }

  /** The last character of a known suffix, and of nothing else that could be mistaken for one. */
  lemma SuffixShape(suffix: string)
    requires Power(suffix).Some?
    ensures 1 <= |suffix| <= 2
    ensures |suffix| == 2 ==> suffix[1] == 'i'
    ensures forall i :: 0 <= i < |suffix| ==> 'a' <= suffix[i] <= 'z'
    ensures |suffix| == 1 ==> suffix[0] != 'i'
  {
  }

  /** Where `ki` stands for `k` and so on, the two mean the same. */
  lemma IecAgrees(suffix: string)
    requires suffix in ["k", "m", "g", "t"]
    ensures Power(suffix).Some? && Power(suffix + "i").Some? && Power(suffix) == Power(suffix + "i")
  {
    assert "k" + "i" == "ki" && "m" + "i" == "mi" && "g" + "i" == "gi" && "t" + "i" == "ti";
  }

  /** What is printed for a quantity: blanks, the number, perhaps more blanks, the suffix, blanks. */
  function Written(before: string, n: nat, gap: string, suffix: string, after: string): string {
    before + (Numeral(n) + gap + suffix) + after
  }

  lemma WrittenNormal(before: string, n: nat, gap: string, suffix: string, after: string)
    requires AllSpace(before) && AllSpace(gap) && AllSpace(after) && (suffix == "" ==> gap == "")
    requires Trimmed(suffix)
    ensures Lower(Strip(Written(before, n, gap, suffix, after))) == Numeral(n) + gap + Lower(suffix)
  {
    var number := Numeral(n);
    NumeralTrimmed(number);
    var core := number + gap + suffix;
    assert core[0] == number[0];
    assert core[|core| - 1] == if suffix == "" then number[|number| - 1] else suffix[|suffix| - 1];
    StripPadding(before, core, after);
    LowerAppend(number + gap, suffix);
    LowerAppend(number, gap);
    SpacesLower(gap);
  }

  /** Two characters are tried before one, yet what stands before a suffix never joins it. */
  lemma SuffixFound(stem: string, suffix: string, float: string -> Reading, int_: string -> Option<int>)
    requires Power(suffix).Some? && Strip(stem) != ""
    ensures Quantity(stem + suffix, float, int_) == Scaled(stem, Power(suffix).value, float)
  {
    SuffixShape(suffix);
    var s := stem + suffix;
    assert s[|s| - |suffix|..] == suffix && s[..|s| - |suffix|] == stem;
    if |suffix| == 1 {
      LastLetter(s);
    }
  }

  lemma LastLetter(s: string)
    requires |s| >= 2 && s[|s| - 1] != 'i'
    ensures Power(Tail(s, 2)).None?
  {
  }

  /** A suffix with no number is an error, like any other text with a letter. */
  lemma SuffixAlone(suffix: string, float: string -> Reading, int_: string -> Option<int>)
    requires Power(suffix).Some?
    ensures Quantity(suffix, float, int_) == None
  {
    SuffixShape(suffix);
    OneLetter(suffix[|suffix| - 1..]);
    assert IsLetter(suffix[0]);
    NotNumeral(suffix);
  }

  /** The last character alone is no suffix where two are, and has nothing before it where one is. */
  lemma OneLetter(last: string)
    requires |last| == 1
    ensures last == "i" ==> Power(last).None?
  {
  }

  lemma NotNumeral(s: string)
    requires s != "" && forall i :: 0 <= i < |s| ==> IsLetter(s[i])
    ensures !IsNumeral(Strip(s))
  {
    assert IsLetter(s[0]) && IsLetter(s[|s| - 1]);
    StripPadding("", s, "");
    assert "" + s + "" == s;
  }

  lemma {:induction false} Pow1024Grows(a: nat, b: nat)
    requires a <= b
    ensures 1 <= Pow1024(a) <= Pow1024(b)
    decreases b
  {
    if a < b {
      Pow1024Grows(a, b - 1);
    } else if a > 0 {
      Pow1024Grows(a - 1, b - 1);
    }
  }

  lemma {:induction false} Pow1024Adds(a: nat, b: nat)
    ensures Pow1024(a + b) == Pow1024(a) * Pow1024(b)
  {
    if a > 0 {
      Pow1024Adds(a - 1, b);
    }
  }

  lemma ExactBelow()
    ensures EXACT == 8 * Pow1024(5)
  {
    assert Pow1024(2) == 0x10_0000;
    assert Pow1024(3) == 0x4000_0000;
    assert Pow1024(4) == 0x100_0000_0000;
  }

  lemma LargerFactor(a: nat, b: nat, m: nat)
    requires a <= b
    ensures a * m <= b * m
  {
  }

  /** An exact integer stays far from overflowing under any suffix. */
  lemma NeverTooLarge(n: nat, power: nat)
    requires n < EXACT && power <= 4
    ensures n * Pow1024(power) < TooLarge()
  {
    ExactBelow();
    LargerFactor(n, 8 * Pow1024(5), Pow1024(power));
    Pow1024Adds(5, power);
    assert 8 * Pow1024(5) * Pow1024(power) == 8 * Pow1024(5 + power);
    Pow1024Grows(5 + power, 102);
  }

  lemma NumberScales(n: nat, gap: string, power: nat, float: string -> Reading)
    requires AllSpace(gap) && n < EXACT && power <= 4
    ensures Scaled(Numeral(n) + gap, power, float) == Some(n * Pow1024(power))
  {
    StemReads(n, gap, float);
    NeverTooLarge(n, power);
    ExactProduct(n, Pow1024(power));
  }

  /** A number below two to the 53rd with any suffix, in any letter case and with blanks anywhere
      around it, parses to exactly that number times what the suffix stands for. */
  lemma WrittenQuantityParses(before: string, n: nat, gap: string, suffix: string, after: string,
                              float: string -> Reading, int_: string -> Option<int>)
    requires AllSpace(before) && AllSpace(gap) && AllSpace(after)
    requires n < EXACT && Power(Lower(suffix)).Some?
    ensures MemLimit(Written(before, n, gap, suffix, after), float, int_) == Some(n * Pow1024(Power(Lower(suffix)).value))
  {
    SuffixShape(Lower(suffix));
    LowerTrimmed(suffix);
    WrittenNormal(before, n, gap, suffix, after);
    NumberSuffixed(n, gap, Lower(suffix), float, int_);
  }

  /** The multipliers, in figures. */
  function Multiplier(suffix: string): Option<nat> {
    if suffix == "b" then Some(1)
    else if suffix == "k" || suffix == "ki" then Some(1024)
    else if suffix == "m" || suffix == "mi" then Some(1048576)
    else if suffix == "g" || suffix == "gi" then Some(1073741824)
    else if suffix == "t" || suffix == "ti" then Some(1099511627776)
    else None
  }

  lemma PowerInFigures(suffix: string)
    ensures Multiplier(suffix).Some? <==> Power(suffix).Some?
    ensures Power(suffix).Some? ==> Multiplier(suffix).value == Pow1024(Power(suffix).value)
  {
    Powers();
  }

  /** A number with a suffix, in any letter case and with blanks anywhere around it, is that many times the
      figure. */
  lemma MultipliersExactly(before: string, n: nat, gap: string, suffix: string, after: string,
                           float: string -> Reading, int_: string -> Option<int>)
    requires AllSpace(before) && AllSpace(gap) && AllSpace(after) && n < 9007199254740992
    requires Multiplier(Lower(suffix)).Some?
    ensures MemLimit(Written(before, n, gap, suffix, after), float, int_) == Some(n * Multiplier(Lower(suffix)).value)
  {
    PowerInFigures(Lower(suffix));
    WrittenQuantityParses(before, n, gap, suffix, after, float, int_);
  }

  lemma Powers()
    ensures Pow1024(0) == 1 && Pow1024(1) == 1024 && Pow1024(2) == 1048576 && Pow1024(3) == 1073741824
    ensures Pow1024(4) == 1099511627776
  {
    assert Pow1024(2) == 1024 * Pow1024(1);
    assert Pow1024(3) == 1024 * Pow1024(2);
    assert Pow1024(4) == 1024 * Pow1024(3);
  }

  lemma NumberSuffixed(n: nat, gap: string, name: string, float: string -> Reading, int_: string -> Option<int>)
    requires AllSpace(gap) && n < EXACT && Power(name).Some?
    ensures Quantity(Numeral(n) + gap + name, float, int_) == Some(n * Pow1024(Power(name).value))
  {
    StemReads(n, gap, float);
    SuffixFound(Numeral(n) + gap, name, float, int_);
    NumberScales(n, gap, Power(name).value, float);
  }

  lemma StemReads(n: nat, gap: string, float: string -> Reading)
    requires AllSpace(gap) && n < EXACT
    ensures Strip(Numeral(n) + gap) != "" && ReadFloat(Numeral(n) + gap, float) == Finite(n as real)
  {
    NumeralTrimmed(Numeral(n));
    StripPadding("", Numeral(n), gap);
    assert "" + Numeral(n) + gap == Numeral(n) + gap;
  }

  lemma LowerTrimmed(suffix: string)
    requires forall i :: 0 <= i < |suffix| ==> 'a' <= Lower(suffix)[i] <= 'z'
    ensures Trimmed(suffix)
  {
    forall i | 0 <= i < |suffix| ensures IsLetter(suffix[i]) {
      assert 'a' <= Lower(suffix)[i] <= 'z';
    }
  }

  lemma ExactProduct(n: nat, m: nat)
    requires n * m < TooLarge()
    ensures Times(n as real, m) == Some(n * m)
  {
    assert n as real * m as real == (n * m) as real;
  }

  /** A plain byte count of any size parses to itself. */
  lemma WrittenCountParses(before: string, n: nat, after: string,
                           float: string -> Reading, int_: string -> Option<int>)
    requires AllSpace(before) && AllSpace(after)
    ensures MemLimit(Written(before, n, "", "", after), float, int_) == Some(n)
  {
    WrittenNormal(before, n, "", "", after);
    var number := Numeral(n);
    assert number + "" + Lower("") == number;
    NumeralTrimmed(number);
    NoSuffix(number, 2);
    NoSuffix(number, 1);
    StripPadding("", number, "");
    assert "" + number + "" == number;
  }

  lemma NoSuffix(number: string, n: nat)
    requires IsNumeral(number) && n > 0
    ensures Power(Tail(number, n)).None?
  {
    var t := Tail(number, n);
    assert IsDigit(t[|t| - 1]) by { assert t[|t| - 1] == number[|number| - 1]; }
    if Power(t).Some? {
      SuffixShape(t);
      assert false;
    }
  }

  lemma {:induction false} StripBefore(stem: string, suffix: string)
    requires suffix != "" && !IsSpace(suffix[0]) && !IsSpace(suffix[|suffix| - 1])
    ensures Strip(stem + suffix) == LStrip(stem) + suffix
  {
    if stem == "" {
      assert stem + suffix == suffix;
    } else if IsSpace(stem[0]) {
      assert (stem + suffix)[1..] == stem[1..] + suffix;
      StripBefore(stem[1..], suffix);
    }
  }

  lemma {:induction false} BlankOrNot(stem: string)
    ensures LStrip(stem) != "" ==> Strip(Lower(LStrip(stem))) != ""
  {
    if stem != "" && IsSpace(stem[0]) {
      BlankOrNot(stem[1..]);
    } else if stem != "" {
      var t := Lower(stem);
      assert !IsSpace(t[0]);
      KeepsFirst(t);
    }
  }

  lemma {:induction false} KeepsFirst(s: string)
    requires s != "" && !IsSpace(s[0])
    ensures RStrip(s) != ""
  {
    if IsSpace(s[|s| - 1]) {
      KeepsFirst(s[..|s| - 1]);
    }
  }

  /** What any text with a suffix after it means, errors included. */
  lemma SuffixedText(stem: string, suffix: string, float: string -> Reading, int_: string -> Option<int>)
    requires Power(Lower(suffix)).Some?
    ensures MemLimit(stem + suffix, float, int_)
            == if LStrip(stem) == "" then None else Scaled(Lower(LStrip(stem)), Power(Lower(suffix)).value, float)
  {
    var name := Lower(suffix);
    SuffixShape(name);
    LowerTrimmed(suffix);
    StripBefore(stem, suffix);
    LowerAppend(LStrip(stem), suffix);
    if LStrip(stem) == "" {
      assert LStrip(stem) + suffix == suffix;
      SuffixAlone(name, float, int_);
    } else {
      BlankOrNot(stem);
      SuffixFound(Lower(LStrip(stem)), name, float, int_);
    }
  }

  lemma SamePowerAgrees(stem: string, one: string, two: string, float: string -> Reading, int_: string -> Option<int>)
    requires Power(Lower(one)).Some? && Power(Lower(one)) == Power(Lower(two))
    ensures MemLimit(stem + one, float, int_) == MemLimit(stem + two, float, int_)
  {
    SuffixedText(stem, one, float, int_);
    SuffixedText(stem, two, float, int_);
  }

  /** `Ki` and `k`, `Mi` and `m`, `Gi` and `g`, `Ti` and `t` are interchangeable after any text at all,
      errors included. */
  lemma IecAndDockerSuffixesAgree(stem: string, iec: string, docker: string,
                                  float: string -> Reading, int_: string -> Option<int>)
    requires Lower(docker) in ["k", "m", "g", "t"] && Lower(iec) == Lower(docker) + "i"
    ensures MemLimit(stem + docker, float, int_) == MemLimit(stem + iec, float, int_)
  {
    IecAgrees(Lower(docker));
    SamePowerAgrees(stem, docker, iec, float, int_);
  }
}
