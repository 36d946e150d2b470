/**
 * `helpers.toEnglishNumbers` (public/myjs.js): every Persian or
 * Arabic-Indic digit becomes the ASCII digit with the same index, every
 * other character is kept.
 */
module Digits {
  import opened Wrappers

  const PersianDigits: seq<char> := ['۰', '۱', '۲', '۳', '۴', '۵', '۶', '۷', '۸', '۹']
  const ArabicDigits: seq<char> := ['٠', '١', '٢', '٣', '٤', '٥', '٦', '٧', '٨', '٩']
  const EnglishDigits: seq<char> := ['0', '1', '2', '3', '4', '5', '6', '7', '8', '9']

  /** `Array.prototype.indexOf`: the first position of `c`, or -1. */
  function IndexOf(s: seq<char>, c: char): (r: int)
    ensures r == -1 <==> c !in s
    ensures r != -1 ==> 0 <= r < |s| && s[r] == c && c !in s[..r]
  {
    if s == [] then -1
    else if s[0] == c then 0
    else
      var k := IndexOf(s[1..], c);
      if k == -1 then -1
      else
        assert s[..k + 1] == [s[0]] + s[1..][..k];
        k + 1
  }

  /** The callback given to `map`: Persian first, then Arabic-Indic. */
  function NormalizeChar(c: char): char {
    var p := IndexOf(PersianDigits, c);
    if p != -1 then EnglishDigits[p]
    else
      var a := IndexOf(ArabicDigits, c);
      if a != -1 then EnglishDigits[a] else c
  }

  /** Both eastern scripts are runs of ten consecutive code points. */
  lemma DigitCodePoints()
    ensures forall i :: 0 <= i < 10 ==> PersianDigits[i] as int == 0x06F0 + i
    ensures forall i :: 0 <= i < 10 ==> ArabicDigits[i] as int == 0x0660 + i
    ensures forall i :: 0 <= i < 10 ==> EnglishDigits[i] as int == 0x30 + i
  {
  }

  predicate Distinct(s: seq<char>) {
    forall a, b :: 0 <= a < b < |s| ==> s[a] != s[b]
  }

  lemma IndexOfDistinct(s: seq<char>, i: nat)
    requires Distinct(s) && i < |s|
    ensures IndexOf(s, s[i]) == i
  {
  }

  /** Persian digit `i` becomes ASCII digit `i`. */
  lemma NormalizePersian(i: nat)
    requires i < 10
    ensures NormalizeChar(PersianDigits[i]) == EnglishDigits[i]
  {
    DigitCodePoints();
    IndexOfDistinct(PersianDigits, i);
  }

  /** Arabic-Indic digit `i` becomes ASCII digit `i`. */
  lemma NormalizeArabic(i: nat)
    requires i < 10
    ensures NormalizeChar(ArabicDigits[i]) == EnglishDigits[i]
  {
    DigitCodePoints();
    assert ArabicDigits[i] !in PersianDigits;
    IndexOfDistinct(ArabicDigits, i);
  }

  /** Every other character is kept, and no eastern digit survives. */
  lemma NormalizeOther(c: char)
    ensures c !in PersianDigits && c !in ArabicDigits ==> NormalizeChar(c) == c
    ensures NormalizeChar(c) !in PersianDigits && NormalizeChar(c) !in ArabicDigits
  {
    DigitCodePoints();
    var p := IndexOf(PersianDigits, c);
    var a := IndexOf(ArabicDigits, c);
    if p == -1 && a == -1 {
      assert NormalizeChar(c) == c;
    } else {
      var d := NormalizeChar(c);
      assert d in EnglishDigits;
      assert '0' <= d <= '9';
    }
  }

  /** `split('').map(...).join('')` on a string. */
  function MapDigits(s: string): (r: string)
    ensures |r| == |s|
    ensures forall i :: 0 <= i < |s| ==> r[i] == NormalizeChar(s[i])
  {
    if s == [] then [] else [NormalizeChar(s[0])] + MapDigits(s[1..])
  }

  /** A falsy argument (absent, or the empty string) gives the empty string. */
  function ToEnglishNumbers(str: Option<string>): (r: string)
    ensures str.None? ==> r == ""
    ensures str.Some? ==> |r| == |str.value|
    ensures str.Some? ==> forall i :: 0 <= i < |r| ==> r[i] == NormalizeChar(str.value[i])
  {
    if str.None? || str.value == "" then "" else MapDigits(str.value)
  }

  /** The result holds no eastern digit, and converting it again changes nothing. */
  lemma ToEnglishNumbersNormalises(str: string)
    ensures forall i :: 0 <= i < |ToEnglishNumbers(Some(str))| ==>
      ToEnglishNumbers(Some(str))[i] !in PersianDigits && ToEnglishNumbers(Some(str))[i] !in ArabicDigits
    ensures ToEnglishNumbers(Some(ToEnglishNumbers(Some(str)))) == ToEnglishNumbers(Some(str))
  {
    var r := ToEnglishNumbers(Some(str));
    forall i | 0 <= i < |r|
      ensures r[i] !in PersianDigits && r[i] !in ArabicDigits && NormalizeChar(r[i]) == r[i]
    {
      NormalizeOther(str[i]);
      NormalizeOther(r[i]);
    }
  }
}
