/** The CNPJ (Brazilian company registry number) input mask of the client
    form: `formatCNPJ` and the pattern `^\d{2}\.\d{3}\.\d{3}\/\d{4}-\d{2}$`
    that validation checks (`src/components/cnd/ClienteFormModal.tsx`). */
module CnpjMask {
  import opened JsStrings

  /** A CNPJ has 14 digits; its masked form `NN.NNN.NNN/NNNN-NN` 18 characters. */
  const MaxDigits := 14
  const MaskLength := 18

  /** What the pattern demands at position `i` of the masked text. */
  predicate MaskCharOk(i: int, c: char) {
    if i == 2 || i == 6 then c == '.'
    else if i == 10 then c == '/'
    else if i == 15 then c == '-'
    else IsDigit(c)
  }

  /** Every character of `s` is the one the pattern asks for at its position:
      `s` is a (possibly partial) prefix of a masked CNPJ. */
  predicate MaskPrefix(s: string) {
    forall i :: 0 <= i < |s| ==> MaskCharOk(i, s[i])
  }

  /** `cnpjRegex.test(s)`, anchored at both ends. */
  predicate MatchesCnpjRegex(s: string) {
    |s| == MaskLength && MaskPrefix(s)
  }

  /** One step of `formatCNPJ`: the first `keep` characters of the text so
      far, the separator, then the digits from position `from` on. */
  function Insert(formatted: string, keep: nat, sep: char, numbers: string, from: nat): string {
    Slice(formatted, 0, keep) + [sep] + SliceFrom(numbers, from)
  }

  /** `formatCNPJ`: keep the digits and insert `.`, `.`, `/`, `-` once more
      than 2, 5, 8 and 12 digits are present, each step rebuilding the text
      from a prefix of the previous one; the result is cut to 18 characters. */
  function FormatCnpj(value: string): string {
    Slice(FormatSteps(DigitsOf(value)), 0, MaskLength)
  }

  /** The four insertion steps of `formatCNPJ` on the extracted digits,
      before the final cut. */
  function FormatSteps(numbers: string): string {
    var n := |numbers|;
    var f1 := if n > 2 then Insert(numbers, 2, '.', numbers, 2) else numbers;
    var f2 := if n > 5 then Insert(f1, 6, '.', numbers, 5) else f1;
    var f3 := if n > 8 then Insert(f2, 10, '/', numbers, 8) else f2;
    if n > 12 then Insert(f3, 15, '-', numbers, 12) else f3
  }

  /** The masked form of a digit string: each group followed by its
      separator once the next group has begun; the last group takes every
      remaining digit. */
  function Layout(d: string): string {
    if |d| <= 2 then d
    else if |d| <= 5 then d[..2] + "." + d[2..]
    else if |d| <= 8 then d[..2] + "." + d[2..5] + "." + d[5..]
    else if |d| <= 12 then d[..2] + "." + d[2..5] + "." + d[5..8] + "/" + d[8..]
    else d[..2] + "." + d[2..5] + "." + d[5..8] + "/" + d[8..12] + "-" + d[12..]
  }

  /** The number of separators the mask puts between `n` digits. */
  function SeparatorCount(n: nat): nat {
    (if n > 2 then 1 else 0) + (if n > 5 then 1 else 0) + (if n > 8 then 1 else 0) + (if n > 12 then 1 else 0)
  }

  /** The digits the formatter keeps: the first 14 of the input. */
  function KeptDigits(value: string): (d: string)
    ensures |d| <= MaxDigits && AllDigits(d)
    ensures |d| == if |DigitsOf(value)| < MaxDigits then |DigitsOf(value)| else MaxDigits
    ensures d == DigitsOf(value)[..|d|]
  {
    Slice(DigitsOf(value), 0, MaxDigits)
  }

  /** An insertion step on a text at least `keep` long. */
  lemma InsertIs(formatted: string, keep: nat, sep: char, numbers: string, from: nat)
    requires keep <= |formatted| && from <= |numbers|
    ensures Insert(formatted, keep, sep, numbers, from) == formatted[..keep] + [sep] + numbers[from..]
  {
    assert Slice(formatted, 0, keep) == formatted[..keep];
    assert SliceFrom(numbers, from) == numbers[from..];
  }

  /** The insertion steps build the layout of all the digits. */
  lemma StepsAreLayout(numbers: string)
    ensures FormatSteps(numbers) == Layout(numbers)
  {
    var n := |numbers|;
    if n > 2 {
      InsertIs(numbers, 2, '.', numbers, 2);
      var f1 := numbers[..2] + "." + numbers[2..];
      if n > 5 {
        InsertIs(f1, 6, '.', numbers, 5);
        assert f1[..6] == numbers[..2] + "." + numbers[2..5];
        var f2 := numbers[..2] + "." + numbers[2..5] + "." + numbers[5..];
        if n > 8 {
          InsertIs(f2, 10, '/', numbers, 8);
          assert f2[..10] == numbers[..2] + "." + numbers[2..5] + "." + numbers[5..8];
          var f3 := numbers[..2] + "." + numbers[2..5] + "." + numbers[5..8] + "/" + numbers[8..];
          if n > 12 {
            InsertIs(f3, 15, '-', numbers, 12);
            assert f3[..15] == numbers[..2] + "." + numbers[2..5] + "." + numbers[5..8] + "/" + numbers[8..12];
          }
        }
      }
    }
  }

  /** The step-by-step formatter computes the closed-form layout of the
      digits it keeps. */
  lemma FormatIsLayout(value: string)
    ensures FormatCnpj(value) == Layout(KeptDigits(value))
  {
    var numbers := DigitsOf(value);
    var d := KeptDigits(value);
    StepsAreLayout(numbers);
    if |numbers| <= MaxDigits {
      LayoutLength(numbers);
      assert d == numbers;
    } else {
      LongLayoutCut(numbers);
    }
  }

  /** Cutting the layout of more than 14 digits to 18 characters leaves the
      layout of the first 14. */
  lemma LongLayoutCut(numbers: string)
    requires |numbers| > MaxDigits
    ensures Slice(Layout(numbers), 0, MaskLength) == Layout(numbers[..MaxDigits])
  {
    var r := Layout(numbers);
    var d := numbers[..MaxDigits];
    var g := numbers[..2] + "." + numbers[2..5] + "." + numbers[5..8] + "/" + numbers[8..12] + "-";
    assert r == g + numbers[12..];
    assert r[..MaskLength] == g + numbers[12..14];
    assert Layout(d) == g + d[12..];
  }

  /** The layout inserts exactly one separator per group boundary reached. */
  lemma LayoutLength(d: string)
    ensures |Layout(d)| == |d| + SeparatorCount(|d|)
  {
  }

  /** Each character of a layout of digits is what the pattern asks for at
      its position. */
  lemma LayoutShape(d: string)
    requires |d| <= MaxDigits && AllDigits(d)
    ensures MaskPrefix(Layout(d))
  {
    var r := Layout(d);
    forall i | 0 <= i < |r| ensures MaskCharOk(i, r[i]) {
      if |d| > 12 {
        assert r[i] == if i < 2 then d[i] else if i == 2 then '.' else if i < 6 then d[i - 1]
          else if i == 6 then '.' else if i < 10 then d[i - 2] else if i == 10 then '/'
          else if i < 15 then d[i - 3] else if i == 15 then '-' else d[i - 4];
      } else if |d| > 8 {
        assert r[i] == if i < 2 then d[i] else if i == 2 then '.' else if i < 6 then d[i - 1]
          else if i == 6 then '.' else if i < 10 then d[i - 2] else if i == 10 then '/'
          else d[i - 3];
      } else if |d| > 5 {
        assert r[i] == if i < 2 then d[i] else if i == 2 then '.' else if i < 6 then d[i - 1]
          else if i == 6 then '.' else d[i - 2];
      } else if |d| > 2 {
        assert r[i] == if i < 2 then d[i] else if i == 2 then '.' else d[i - 1];
      }
    }
  }

  /** Where the last group of `n > 2` digits starts in the digit string. */
  function LastGroupStart(n: nat): nat {
    if n > 12 then 12 else if n > 8 then 8 else if n > 5 then 5 else 2
  }

  /** The separator in front of the last group of `n > 2` digits. */
  function LastSeparator(n: nat): char {
    if n > 12 then '-' else if n > 8 then '/' else '.'
  }

  /** A layout of more than two digits is the layout of the digits before its
      last group, that group's separator, then the group. */
  lemma LayoutSplit(d: string)
    requires |d| > 2
    ensures LastGroupStart(|d|) < |d|
    ensures Layout(d) == Layout(d[..LastGroupStart(|d|)]) + [LastSeparator(|d|)] + d[LastGroupStart(|d|)..]
  {
    var k := LastGroupStart(|d|);
    var p := d[..k];
    assert p[..2] == d[..2];
    if k >= 5 { assert p[2..5] == d[2..5]; }
    if k >= 8 { assert p[5..8] == d[5..8]; }
    if k >= 12 { assert p[8..12] == d[8..12]; }
    if k == 2 { assert Layout(p) == d[..2]; }
  }

  /** A separator contributes no digit. */
  lemma DigitsOfAroundSeparator(a: string, c: char, b: string)
    requires !IsDigit(c)
    ensures DigitsOf(a + [c] + b) == DigitsOf(a) + DigitsOf(b)
  {
    DigitsOfAppend(a + [c], b);
    DigitsOfAppend(a, [c]);
    DigitsOfNoDigits([c]);
  }

  /** Stripping the separators from a layout gives back its digits. */
  lemma {:induction false} LayoutDigits(d: string)
    requires AllDigits(d)
    ensures DigitsOf(Layout(d)) == d
    decreases |d|
  {
    if |d| <= 2 {
      DigitsOfDigits(d);
    } else {
      var k := LastGroupStart(|d|);
      LayoutSplit(d);
      LayoutDigits(d[..k]);
      DigitsOfAroundSeparator(Layout(d[..k]), LastSeparator(|d|), d[k..]);
      DigitsOfDigits(d[k..]);
      assert d[..k] + d[k..] == d;
    }
  }

  /** The output is never longer than the 18-character mask. */
  lemma FormatCnpjLength(value: string)
    ensures |FormatCnpj(value)| <= MaskLength
  {
    FormatIsLayout(value);
    LayoutLength(KeptDigits(value));
  }

  /** The digits of the output are exactly the first min(14, n) digits of the
      input, and every other character is the separator the mask has there,
      so the only non-digits are `.`, `/` and `-`. */
  lemma FormatCnpjContents(value: string)
    ensures DigitsOf(FormatCnpj(value)) == KeptDigits(value)
    ensures MaskPrefix(FormatCnpj(value))
    ensures forall i :: 0 <= i < |FormatCnpj(value)| && !IsDigit(FormatCnpj(value)[i]) ==>
              FormatCnpj(value)[i] in {'.', '/', '-'}
  {
    FormatIsLayout(value);
    LayoutDigits(KeptDigits(value));
    LayoutShape(KeptDigits(value));
  }

  /** Input with at most two digits comes back as just those digits. */
  lemma FormatCnpjShortInput(value: string)
    requires |DigitsOf(value)| <= 2
    ensures FormatCnpj(value) == DigitsOf(value)
  {
    FormatIsLayout(value);
  }

  /** The output matches the validation pattern exactly when the input has at
      least 14 digits. */
  lemma FormatCnpjMatchesIff(value: string)
    ensures MatchesCnpjRegex(FormatCnpj(value)) <==> |DigitsOf(value)| >= MaxDigits
  {
    FormatIsLayout(value);
    LayoutLength(KeptDigits(value));
    LayoutShape(KeptDigits(value));
  }

  /** Formatting a formatted value changes nothing. */
  lemma FormatCnpjIdempotent(value: string)
    ensures FormatCnpj(FormatCnpj(value)) == FormatCnpj(value)
  {
    var d := KeptDigits(value);
    FormatIsLayout(value);
    LayoutDigits(d);
    FormatIsLayout(FormatCnpj(value));
    assert KeptDigits(FormatCnpj(value)) == d;
  }

  /** The digits of a masked CNPJ, read off its digit positions. */
  function MaskedDigits(s: string): (d: string)
    requires MatchesCnpjRegex(s)
    ensures |d| == MaxDigits && AllDigits(d)
  {
    s[..2] + s[3..6] + s[7..10] + s[11..15] + s[16..]
  }

  /** A masked CNPJ is the layout of its own digits. */
  lemma MaskedIsLayout(s: string)
    requires MatchesCnpjRegex(s)
    ensures Layout(MaskedDigits(s)) == s
  {
    var d := MaskedDigits(s);
    var r := Layout(d);
    assert |r| == |s|;
    forall i | 0 <= i < |s| ensures r[i] == s[i] {
      assert r[i] == if i < 2 then d[i] else if i == 2 then '.' else if i < 6 then d[i - 1]
        else if i == 6 then '.' else if i < 10 then d[i - 2] else if i == 10 then '/'
        else if i < 15 then d[i - 3] else if i == 15 then '-' else d[i - 4];
      assert MaskCharOk(i, s[i]);
    }
  }

  /** The pattern accepts exactly the 18-character fixed points of the
      formatter: what `formatCNPJ` leaves alone at full length is what
      validation lets through. */
  lemma MatchesIffFixedPoint(s: string)
    ensures MatchesCnpjRegex(s) <==> |s| == MaskLength && FormatCnpj(s) == s
  {
    if MatchesCnpjRegex(s) {
      var d := MaskedDigits(s);
      MaskedIsLayout(s);
      LayoutDigits(d);
      assert KeptDigits(s) == d;
      FormatIsLayout(s);
    }
    FormatCnpjContents(s);
  }

  /** The worked example: fourteen digits become a full mask. */
  lemma FormatCnpjExample(x: string)
    requires x == "11222333000181"
    ensures FormatCnpj(x) == "11.222.333/0001-81"
  {
    ExampleKeepsAllDigits(x);
    FormatIsLayout(x);
    ExampleLayout(x);
  }

  lemma ExampleKeepsAllDigits(x: string)
    requires x == "11222333000181"
    ensures KeptDigits(x) == x
  {
    assert AllDigits(x);
    DigitsOfDigits(x);
  }

  lemma ExampleLayout(x: string)
    requires x == "11222333000181"
    ensures Layout(x) == "11.222.333/0001-81"
  {
    assert x[..2] == "11" && x[2..5] == "222" && x[5..8] == "333" && x[8..12] == "0001" && x[12..] == "81";
    assert Layout(x) == "11" + "." + "222" + "." + "333" + "/" + "0001" + "-" + "81";
  }

  /** A single digit is left as it is. */
  lemma FormatCnpjSingleDigit()
    ensures FormatCnpj("1") == "1"
  {
    DigitsOfDigits("1");
    FormatCnpjShortInput("1");
  }
}
