/**
 * The sort key the loader derives from a stored image's name:
 * `+name.substring(0, name.lastIndexOf("."))` (src/App.js:192).
 *
 * Only prefixes made of decimal digits (or empty) are given a key here;
 * `Number` on any other text (NaN, fractions, hex, exponents, blanks)
 * is floating point and not part of this model.
 */
module SortKey {
  import opened Wrappers

  /** `String.prototype.lastIndexOf` for one character: the last position of `c` in `s`, or -1. */
  function LastIndexOf(s: string, c: char): (r: int)
    ensures -1 <= r < |s|
    ensures r == -1 <==> c !in s
    ensures 0 <= r ==> s[r] == c && forall j :: r < j < |s| ==> s[j] != c
  {
    if s == [] then -1
    else if s[|s| - 1] == c then |s| - 1
    else LastIndexOf(s[..|s| - 1], c)
  }

  /** `substring` clamps each bound into 0..|s|. */
  function Clamp(i: int, n: nat): nat
  {
    if i < 0 then 0 else if i > n then n else i
  }

  /** `String.prototype.substring(start, end)`: clamp both bounds, then take the span between them. */
  function Substring(s: string, start: int, end: int): (r: string)
    ensures 0 <= start <= end <= |s| ==> r == s[start..end]
    ensures start <= 0 && end <= 0 ==> r == []
    ensures |s| <= start && |s| <= end ==> r == []
  {
    var a, b := Clamp(start, |s|), Clamp(end, |s|);
    if a <= b then s[a..b] else s[b..a]
  }

  /** `substring` does not care in which order its bounds come. */
  lemma SubstringSymmetric(s: string, start: int, end: int)
    ensures Substring(s, start, end) == Substring(s, end, start)
  {
  }

  /** The part of a name before its last '.', or "" when the name has no '.'. */
  function KeyPrefix(name: string): (p: string)
    ensures p <= name
    ensures '.' !in name ==> p == []
    ensures '.' in name ==> |p| < |name| && name[|p|] == '.' && '.' !in name[|p| + 1..]
  {
    Substring(name, 0, LastIndexOf(name, '.'))
  }

  predicate IsDigits(s: string)
  {
    forall i :: 0 <= i < |s| ==> '0' <= s[i] <= '9'
  }

  function DigitValue(c: char): nat
    requires '0' <= c <= '9'
  {
    c as int - '0' as int
  }

  function Pow10(n: nat): (r: nat)
    ensures r >= 1
  {
    if n == 0 then 1 else 10 * Pow10(n - 1)
  }

  /** The number a string of decimal digits denotes; "" denotes 0, as `Number("")` does. */
  function DecimalValue(s: string): (n: nat)
    requires IsDigits(s)
    ensures n < Pow10(|s|)
  {
    if s == [] then 0
    else 10 * DecimalValue(s[..|s| - 1]) + DigitValue(s[|s| - 1])
  }

  function DigitChar(d: nat): (c: char)
    requires d < 10
    ensures '0' <= c <= '9' && DigitValue(c) == d
  {
    ('0' as int + d) as char
  }

  /** The canonical decimal spelling of n, the `<sortIndex>` of a name "<sortIndex>.<ext>". */
  function NatToDecimal(n: nat): (s: string)
    ensures IsDigits(s)
    ensures 1 <= |s|
    ensures s[0] == '0' ==> n == 0
  {
    if n < 10 then [DigitChar(n)]
    else NatToDecimal(n / 10) + [DigitChar(n % 10)]
  }

  /**
   * The sort key of a name: the value of the digits before its last '.'.
   * None marks a prefix whose `Number` value lies outside this model.
   */
  function Key(name: string): (r: Option<nat>)
    ensures '.' !in name ==> r == Some(0)
  {
    var p := KeyPrefix(name);
    if IsDigits(p) then Some(DecimalValue(p)) else None
  }

  /** Reading back the canonical spelling of a number gives the number. */
  lemma {:induction false} DecimalRoundTrip(n: nat)
    ensures DecimalValue(NatToDecimal(n)) == n
  {
    if n >= 10 {
      var s := NatToDecimal(n / 10);
      var t := s + [DigitChar(n % 10)];
      assert t == NatToDecimal(n);
      assert t[..|t| - 1] == s;
      DecimalRoundTrip(n / 10);
    }
  }

  /** Leading zeros do not change the value, as with `Number("007")`. */
  lemma {:induction false} LeadingZeroIgnored(s: string)
    requires IsDigits(s)
    ensures IsDigits("0" + s) && DecimalValue("0" + s) == DecimalValue(s)
  {
    var t := "0" + s;
    if s != [] {
      assert t[..|t| - 1] == "0" + s[..|s| - 1];
      assert t[|t| - 1] == s[|s| - 1];
      LeadingZeroIgnored(s[..|s| - 1]);
    }
  }

  /** A name "<digits>.<ext>" whose extension holds no '.' has the digits' value as its key. */
  lemma IndexedNameKey(d: string, ext: string)
    requires IsDigits(d) && '.' !in ext
    ensures Key(d + "." + ext) == Some(DecimalValue(d))
  {
    var name := d + "." + ext;
    assert name[|d|] == '.';
    assert forall j :: |d| < j < |name| ==> name[j] == ext[j - |d| - 1];
    assert LastIndexOf(name, '.') == |d|;
    assert name[..|d|] == d;
    assert KeyPrefix(name) == d;
  }

  /** In particular "<n>.<ext>", with n spelled in decimal, has key n. */
  lemma NumberedNameKey(n: nat, ext: string)
    requires '.' !in ext
    ensures Key(NatToDecimal(n) + "." + ext) == Some(n)
  {
    IndexedNameKey(NatToDecimal(n), ext);
    DecimalRoundTrip(n);
  }

  /** A name with several dots is keyed by everything before the last one, which may not be digits. */
  lemma KeyUsesLastDot()
    ensures KeyPrefix("1.2.png") == "1.2"
    ensures Key("1.2.png") == None
  {
    var name := "1.2.png";
    assert name[3] == '.' && name[4] != '.' && name[5] != '.' && name[6] != '.';
    assert LastIndexOf(name, '.') == 3;
    assert name[..3] == "1.2";
    assert KeyPrefix(name) == "1.2";
    assert !IsDigits("1.2") by { assert "1.2"[1] == '.'; }
  }

  /** "2.png" and "10.png" get the numbers 2 and 10 as keys. */
  lemma NumericKeys()
    ensures Key("2.png") == Some(2)
    ensures Key("10.png") == Some(10)
  {
    NumberedNameKey(2, "png");
    assert NatToDecimal(2) + "." + "png" == "2.png";
    NumberedNameKey(10, "png");
    assert NatToDecimal(10) + "." + "png" == "10.png";
  }

  /** Leading zeros are ignored: "007.png" has key 7. */
  lemma ZeroPaddedKey()
    ensures Key("007.png") == Some(7)
  {
    assert DecimalValue("7") == 7 by {
      assert "7"[..0] == [];
    }
    assert "07" == "0" + "7";
    LeadingZeroIgnored("7");
    assert "007" == "0" + "07";
    LeadingZeroIgnored("07");
    IndexedNameKey("007", "png");
    assert "007" + "." + "png" == "007.png";
  }
}
