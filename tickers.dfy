/** Ticker normalisation for the market-data provider (`yahoo_ticker`). */
module Tickers {

  /** Characters Python's `str.isspace` accepts, the ones `str.strip()` removes. */
  predicate IsSpace(c: char) {
    ('\t' <= c <= '\r') || ('\U{1c}' <= c <= ' ') || c == '\U{85}' || c == '\U{a0}' ||
    c == '\U{1680}' || ('\U{2000}' <= c <= '\U{200a}') || c == '\U{2028}' || c == '\U{2029}' ||
    c == '\U{202f}' || c == '\U{205f}' || c == '\U{3000}'
  }

  /** The first index at or after `i` that does not hold whitespace (`|s|` if none does). */
  function SkipSpaces(s: string, i: nat): (n: nat)
    requires i <= |s|
    ensures i <= n <= |s|
    ensures forall k :: i <= k < n ==> IsSpace(s[k])
    ensures n == |s| || !IsSpace(s[n])
    decreases |s| - i
  {
    if i < |s| && IsSpace(s[i]) then SkipSpaces(s, i + 1) else i
  }

  /** The end of `s[lo..j]` once its trailing whitespace is cut off. */
  function TrimEnd(s: string, lo: nat, j: nat): (e: nat)
    requires lo <= j <= |s|
    ensures lo <= e <= j
    ensures forall k :: e <= k < j ==> IsSpace(s[k])
    ensures e == lo || !IsSpace(s[e - 1])
    decreases j
  {
    if lo < j && IsSpace(s[j - 1]) then TrimEnd(s, lo, j - 1) else j
  }

  /** Python's `str.strip()` with no argument: cut the leading whitespace, then the trailing. */
  function Strip(s: string): string {
    var i := SkipSpaces(s, 0);
    s[i..TrimEnd(s, i, |s|)]
  }

  /** `c.upper() == u` for a single character and an upper-case ASCII letter `u`:
      the letter itself, its lower-case form, and U+017F, which Python upper-cases to `S`. */
  predicate UpperIs(c: char, u: char)
    requires 'A' <= u <= 'Z'
  {
    c == u || c as int == u as int + 32 || (u == 'S' && c == '\U{17f}')
  }

  /** `t.upper() == "CASH"`: the reserved ticker that stands for uninvested cash. */
  predicate IsCash(t: string) {
    |t| == 4 && UpperIs(t[0], 'C') && UpperIs(t[1], 'A') && UpperIs(t[2], 'S') && UpperIs(t[3], 'H')
  }

  /** Every `.` replaced by `-` (`str.replace(".", "-")`). */
  function ReplaceDots(s: string): (r: string)
    ensures |r| == |s|
    ensures forall i :: 0 <= i < |s| ==> r[i] == (if s[i] == '.' then '-' else s[i])
  {
    if s == [] then [] else [if s[0] == '.' then '-' else s[0]] + ReplaceDots(s[1..])
  }

  /** `yahoo_ticker`: strip, keep a CASH ticker as it is, otherwise map `.` to `-`. */
  function YahooTicker(t: string): string {
    var s := Strip(t);
    if IsCash(s) then s else ReplaceDots(s)
  }

  /** What `Strip` returns: the piece of the input between its leading and its trailing
      whitespace, with no whitespace left at either end. */
  lemma StripSpec(s: string)
    ensures exists i, j :: (0 <= i <= j <= |s| && Strip(s) == s[i..j] &&
      (forall k :: 0 <= k < i ==> IsSpace(s[k])) && (forall k :: j <= k < |s| ==> IsSpace(s[k])))
    ensures Strip(s) == [] || (!IsSpace(Strip(s)[0]) && !IsSpace(Strip(s)[|Strip(s)| - 1]))
  {
    var i := SkipSpaces(s, 0);
    var j := TrimEnd(s, i, |s|);
    assert Strip(s) == s[i..j];
    if i < j {
      assert Strip(s)[0] == s[i];
      assert Strip(s)[|Strip(s)| - 1] == s[j - 1];
    }
  }

  /** The mapped ticker: for a CASH ticker the stripped input, otherwise the stripped
      input with each `.` turned into `-`, so that no `.` is left in either case. */
  lemma YahooTickerSpec(t: string)
    ensures var s := Strip(t); var r := YahooTicker(t);
      && |r| == |s|
      && (IsCash(s) ==> r == s)
      && (!IsCash(s) ==> forall i :: 0 <= i < |s| ==> r[i] == (if s[i] == '.' then '-' else s[i]))
      && (forall i :: 0 <= i < |r| ==> r[i] != '.')
  {
  }

  /** A string with no whitespace at either end is its own `Strip`. */
  lemma StripTrimmed(s: string)
    requires s == [] || (!IsSpace(s[0]) && !IsSpace(s[|s| - 1]))
    ensures Strip(s) == s
  {
  }

  /** Mapping an already mapped ticker changes nothing. */
  lemma YahooTickerIdempotent(t: string)
    ensures YahooTicker(YahooTicker(t)) == YahooTicker(t)
  {
    var s := Strip(t);
    var r := YahooTicker(t);
    StripSpec(t);
    if !IsCash(s) && r != [] {
      assert !IsSpace(r[0]) && !IsSpace(r[|r| - 1]);
    }
    StripTrimmed(r);
    if !IsCash(s) {
      assert !IsCash(r);
      assert ReplaceDots(r) == r;
    }
  }

  /** A share-class dot becomes a dash. */
  lemma YahooTickerClassShare()
    ensures YahooTicker("BRK.B") == "BRK-B"
  {
    assert Strip("BRK.B") == "BRK.B";
  }

  /** Surrounding blanks do not hide the cash marker. */
  lemma YahooTickerPaddedCash()
    ensures YahooTicker(" CASH ") == "CASH"
  {
    assert SkipSpaces(" CASH ", 0) == 1;
    assert TrimEnd(" CASH ", 1, 6) == 5;
  }
}
