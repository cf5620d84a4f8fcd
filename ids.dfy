/** Identifiers of generated items: the sequence number in the "0000"
    number format, followed by "_" + name for each chosen variant. */
module PfpIds {

  predicate IsDigit(c: char)
  {
    '0' <= c <= '9'
  }

  predicate AllDigits(s: string)
  {
    forall i :: 0 <= i < |s| ==> IsDigit(s[i])
  }

  function DigitChar(d: nat): (c: char)
    requires d < 10
    ensures IsDigit(c)
  {
    (48 + d) as char
  }

  function DigitValue(c: char): nat
    requires IsDigit(c)
  {
    c as int - 48
  }

  /** Plain decimal notation, no leading zeros. */
  function Decimal(n: nat): (s: string)
    ensures |s| >= 1
  {
    if n < 10 then [DigitChar(n)] else Decimal(n / 10) + [DigitChar(n % 10)]
  }

  function Zeros(k: nat): (s: string)
    ensures |s| == k
  {
    if k == 0 then "" else Zeros(k - 1) + "0"
  }

  /** `n.ToString("0000")`: decimal, left-padded with zeros to at least four
      digits (never truncated). */
  function Pad4(n: nat): (s: string)
    ensures |s| >= 4
  {
    var d := Decimal(n);
    if |d| < 4 then Zeros(4 - |d|) + d else d
  }

  lemma {:induction false} DecimalDigits(n: nat)
    ensures AllDigits(Decimal(n))
  {
    if n >= 10 {
      DecimalDigits(n / 10);
    }
  }

  lemma {:induction false} ZerosDigits(k: nat)
    ensures AllDigits(Zeros(k))
  {
    if k > 0 {
      ZerosDigits(k - 1);
    }
  }

  /** An id number is all digits. */
  lemma Pad4Digits(n: nat)
    ensures AllDigits(Pad4(n))
  {
    DecimalDigits(n);
    if |Decimal(n)| < 4 {
      ZerosDigits(4 - |Decimal(n)|);
    }
  }

  /** The number a digit string denotes (leading zeros allowed). */
  function ValueOf(s: string): nat
    requires AllDigits(s)
  {
    if s == [] then 0 else 10 * ValueOf(s[..|s| - 1]) + DigitValue(s[|s| - 1])
  }

  lemma {:induction false} DecimalValue(n: nat)
    ensures AllDigits(Decimal(n)) && ValueOf(Decimal(n)) == n
  {
    DecimalDigits(n);
    if n >= 10 {
      DecimalValue(n / 10);
      var s := Decimal(n);
      assert s[..|s| - 1] == Decimal(n / 10);
    }
  }

  lemma {:induction false} ZerosValue(k: nat, s: string)
    requires AllDigits(s)
    ensures AllDigits(Zeros(k) + s) && ValueOf(Zeros(k) + s) == ValueOf(s)
    decreases |s|, k
  {
    ZerosDigits(k);
    if s == [] {
      assert Zeros(k) + s == Zeros(k);
      if k > 0 {
        ZerosValue(k - 1, s);
        assert Zeros(k)[..k - 1] == Zeros(k - 1);
        assert Zeros(k - 1) + s == Zeros(k - 1);
      }
    } else {
      var init := s[..|s| - 1];
      ZerosValue(k, init);
      assert (Zeros(k) + s)[..|Zeros(k) + s| - 1] == Zeros(k) + init;
    }
  }

  /** Reading an id number back gives the number: the format is injective. */
  lemma Pad4Value(n: nat)
    ensures AllDigits(Pad4(n)) && ValueOf(Pad4(n)) == n
  {
    Pad4Digits(n);
    DecimalValue(n);
    var d := Decimal(n);
    if |d| < 4 {
      ZerosValue(4 - |d|, d);
    }
  }

  function Pow10(k: nat): nat
  {
    if k == 0 then 1 else 10 * Pow10(k - 1)
  }

  lemma {:induction false} DecimalShort(n: nat, k: nat)
    requires 1 <= k && n < Pow10(k)
    ensures |Decimal(n)| <= k
  {
    if n >= 10 {
      DecimalShort(n / 10, k - 1);
    }
  }

  /** Numbers below 10000 take exactly four characters ("0001" for 1). */
  lemma Pad4Width(n: nat)
    requires n < 10000
    ensures |Pad4(n)| == 4
  {
    assert Pow10(4) == 10000;
    DecimalShort(n, 4);
  }

  /** Numbers of 10000 and more get no leading zero: the format is their
      plain decimal notation. */
  lemma {:induction false} Pad4Wide(n: nat)
    requires n >= 10000
    ensures Pad4(n) == Decimal(n) && Pad4(n)[0] != '0'
  {
    DecimalWide(n, 4);
    DecimalLeading(n);
  }

  lemma {:induction false} DecimalWide(n: nat, k: nat)
    requires n >= Pow10(k)
    ensures |Decimal(n)| > k
  {
    if k > 0 {
      DecimalWide(n / 10, k - 1);
    }
  }

  lemma {:induction false} DecimalLeading(n: nat)
    requires n >= 1
    ensures Decimal(n)[0] != '0'
  {
    if n >= 10 {
      DecimalLeading(n / 10);
    }
  }

  lemma Pad4OfOne()
    ensures Pad4(1) == "0001"
  {
    assert DigitChar(1) == '1';
    assert Decimal(1) == "1";
    assert Zeros(3) == "000" by {
      assert Zeros(1) == "0";
      assert Zeros(2) == "00";
    }
  }

  /** "_" + name for each name, in order. */
  function Suffix(names: seq<string>): (s: string)
    ensures names != [] ==> |s| > 0 && s[0] == '_'
    ensures |s| >= |names|
  {
    if names == [] then ""
    else Suffix(names[..|names| - 1]) + "_" + names[|names| - 1]
  }

  /** One more name extends the suffix by "_" + name. */
  lemma SuffixAppend(names: seq<string>, name: string)
    ensures Suffix(names + [name]) == Suffix(names) + "_" + name
  {
    assert (names + [name])[..|names|] == names;
  }

  /** The id a candidate item gets from its number and its variants' names. */
  function CandidateId(number: nat, names: seq<string>): (id: string)
    ensures |id| >= 4 + |names|
  {
    Pad4(number) + Suffix(names)
  }

  /** The leading run of digits of a string. */
  function NumberPart(id: string): (s: string)
    ensures AllDigits(s)
  {
    if id == [] || !IsDigit(id[0]) then "" else [id[0]] + NumberPart(id[1..])
  }

  lemma {:induction false} NumberPartOfDigits(d: string, rest: string)
    requires AllDigits(d)
    requires rest == [] || !IsDigit(rest[0])
    ensures NumberPart(d + rest) == d
  {
    if d != [] {
      NumberPartOfDigits(d[1..], rest);
      assert (d + rest)[1..] == d[1..] + rest;
    }
  }

  /** The number an id was built from can be read back from the id. */
  lemma NumberOfCandidateId(number: nat, names: seq<string>)
    ensures ValueOf(NumberPart(CandidateId(number, names))) == number
  {
    Pad4Digits(number);
    NumberPartOfDigits(Pad4(number), Suffix(names));
    Pad4Value(number);
  }

  /** Candidates with different numbers never share an id, whatever the
      variant names (even names that contain digits or underscores). */
  lemma CandidateIdsDistinct(n: nat, m: nat, a: seq<string>, b: seq<string>)
    requires n != m
    ensures CandidateId(n, a) != CandidateId(m, b)
  {
    NumberOfCandidateId(n, a);
    NumberOfCandidateId(m, b);
  }

  /** The first item with variants "Blue" and "Cap" gets id "0001_Blue_Cap". */
  lemma FirstIdExample()
    ensures CandidateId(1, ["Blue", "Cap"]) == "0001_Blue_Cap"
  {
    Pad4OfOne();
    SuffixAppend([], "Blue");
    SuffixAppend(["Blue"], "Cap");
    assert [] + ["Blue"] == ["Blue"] && ["Blue"] + ["Cap"] == ["Blue", "Cap"];
  }
}
