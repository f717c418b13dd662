/**
 * The fixed donation catalog of the page, the lookup `campaigns.find(...)`
 * that `donate` performs on it, and the two JavaScript conversions that
 * lookup depends on: `String(n)` (how the campaign select renders an id as
 * an option value) and `parseInt` (how `donate` turns the selected value back
 * into an id).
 */
module Campaigns {
  import opened Wrappers

  /** One ether in wei: the smallest ledger unit is 10^-18 ether. */
  const OneEther: nat := 1_000_000_000_000_000_000

  /**
   * A campaign as the page holds it. Its description is only shown by the
   * campaign information dialog, which is not modelled, so it is omitted.
   */
  datatype Campaign = Campaign(id: int, name: string, goal: nat)

  /** The five campaigns the page starts with; the page never changes them. */
  function Catalog(): (cs: seq<Campaign>)
    ensures |cs| == 5
    ensures forall i, j | 0 <= i < j < |cs| :: cs[i].id != cs[j].id
    ensures forall i | 0 <= i < |cs| :: cs[i].id == i + 1
  {
    [ Campaign(1, "Save the Children", 100 * OneEther),
      Campaign(2, "Clean Water Project", 150 * OneEther),
      Campaign(3, "Plant a Tree", 50 * OneEther),
      Campaign(4, "Educate Every Child", 200 * OneEther),
      Campaign(5, "Renewable Energy Initiative", 300 * OneEther) ]
  }

  /**
   * `cs.find(c => c.id === id)`: the first campaign whose id is `id`. An id
   * that is `NaN` (here `None`) is strictly equal to nothing.
   */
  function FindCampaign(cs: seq<Campaign>, id: Option<int>): (r: Option<Campaign>)
    ensures r.Some? ==> r.value in cs && id == Some(r.value.id)
    ensures r.Some? ==> exists k | 0 <= k < |cs| :: cs[k] == r.value &&
                          forall j | 0 <= j < k :: Some(cs[j].id) != id
    ensures r.None? <==> forall k | 0 <= k < |cs| :: Some(cs[k].id) != id
  {
    if cs == [] then None
    else if Some(cs[0].id) == id then Some(cs[0])
    else
      var r := FindCampaign(cs[1..], id);
      assert r.Some? ==> cs[1..][0] == cs[1] && forall j | 0 <= j < 1 :: Some(cs[j].id) != id;
      r
  }

  lemma {:induction false} CatalogLookup(id: int)
    ensures FindCampaign(Catalog(), Some(id)).Some? <==> 1 <= id <= 5
    ensures 1 <= id <= 5 ==> FindCampaign(Catalog(), Some(id)) == Some(Catalog()[id - 1])
  {
    var cs := Catalog();
    if 1 <= id <= 5 {
      var r := FindCampaign(cs, Some(id));
      assert cs[id - 1].id == id;
      assert r.Some?;
      var k :| 0 <= k < |cs| && cs[k] == r.value;
      assert cs[k].id == id;
    } else {
      assert forall k | 0 <= k < |cs| :: Some(cs[k].id) != Some(id);
    }
  }

  // ---- String(n) for a natural number: its shortest decimal form ----

  function DigitChar(d: nat): (c: char)
    requires d < 10
    ensures '0' <= c <= '9' && (c as int) - ('0' as int) == d
  {
    (('0' as int) + d) as char
  }

  function DecimalString(n: nat): (s: string)
    ensures |s| > 0
    ensures forall i | 0 <= i < |s| :: '0' <= s[i] <= '9'
  {
    if n < 10 then [DigitChar(n)] else DecimalString(n / 10) + [DigitChar(n % 10)]
  }

  // ---- parseInt(s) with no radix argument (ECMAScript section 19.2.5) ----

  /** The StrWhiteSpaceChar set: white space and line terminators. */
  predicate IsWhiteSpace(c: char) {
    c == '\t' || c == '\n' || c == '\U{000B}' || c == '\U{000C}' || c == '\r' || c == ' ' ||
    c == '\U{00A0}' || c == '\U{1680}' || ('\U{2000}' <= c <= '\U{200A}') ||
    c == '\U{2028}' || c == '\U{2029}' || c == '\U{202F}' || c == '\U{205F}' ||
    c == '\U{3000}' || c == '\U{FEFF}'
  }

  function TrimStart(s: string): (r: string)
    ensures |r| <= |s| && r == s[|s| - |r|..]
    ensures |r| > 0 ==> !IsWhiteSpace(r[0])
    ensures |s| > 0 && !IsWhiteSpace(s[0]) ==> r == s
  {
    if |s| > 0 && IsWhiteSpace(s[0]) then TrimStart(s[1..]) else s
  }

  /** The value of `c` as a digit in radix 36 (used up to 16); 36 if it is no digit. */
  function DigitValue(c: char): (v: nat)
    ensures v <= 36
    ensures '0' <= c <= '9' ==> v == (c as int) - ('0' as int)
    ensures v < 10 <==> '0' <= c <= '9'
  {
    if '0' <= c <= '9' then (c as int) - ('0' as int)
    else if 'a' <= c <= 'z' then (c as int) - ('a' as int) + 10
    else if 'A' <= c <= 'Z' then (c as int) - ('A' as int) + 10
    else 36
  }

  /** Length of the longest prefix of `s` made of radix-`radix` digits. */
  function LeadingDigits(s: string, radix: nat): (n: nat)
    ensures n <= |s|
    ensures forall i | 0 <= i < n :: DigitValue(s[i]) < radix
    ensures n < |s| ==> DigitValue(s[n]) >= radix
  {
    if |s| > 0 && DigitValue(s[0]) < radix then 1 + LeadingDigits(s[1..], radix) else 0
  }

  /** The number that the digit string `s` denotes in radix `radix`. */
  function DigitsValue(s: string, radix: nat): int
    requires forall i | 0 <= i < |s| :: DigitValue(s[i]) < radix
  {
    if s == [] then 0
    else
      var init := s[..|s| - 1];
      assert forall i | 0 <= i < |init| :: init[i] == s[i];
      DigitsValue(init, radix) * radix + DigitValue(s[|s| - 1])
  }

  /**
   * `parseInt(s)`: skip leading white space, read an optional sign, switch
   * to radix 16 after a `0x`/`0X` prefix, and read the longest run of digits
   * that follows; `NaN` (here `None`) when that run is empty.
   */
  function ParseInt(s: string): (r: Option<int>)
    ensures TrimStart(s) == "" ==> r.None?
    ensures |TrimStart(s)| > 0 && '1' <= TrimStart(s)[0] <= '9' ==> r.Some?
    ensures TrimStart(s) == "0x" ==> r.None?
    ensures |TrimStart(s)| > 0 && !IsSignOrDigit(TrimStart(s)[0]) ==> r.None?
  {
    ParseSigned(TrimStart(s))
  }

  predicate IsSignOrDigit(c: char) {
    c == '-' || c == '+' || '0' <= c <= '9'
  }

  function ParseSigned(u: string): (r: Option<int>)
    ensures u == "" ==> r.None?
    ensures |u| > 0 && '1' <= u[0] <= '9' ==> r.Some?
    ensures u == "0x" ==> r.None?
    ensures |u| > 0 && !IsSignOrDigit(u[0]) ==> r.None?
  {
    if |u| > 0 && u[0] == '-' then
      match ParseUnsigned(u[1..])
      case None => None
      case Some(m) => Some(-m)
    else if |u| > 0 && u[0] == '+' then ParseUnsigned(u[1..])
    else ParseUnsigned(u)
  }

  function ParseUnsigned(v: string): (r: Option<int>)
    ensures v == "" ==> r.None?
    ensures |v| > 0 && '1' <= v[0] <= '9' ==> r.Some?
    ensures v == "0x" ==> r.None?
    ensures |v| > 0 && !('0' <= v[0] <= '9') ==> r.None?
  {
    if |v| >= 2 && v[0] == '0' && (v[1] == 'x' || v[1] == 'X') then ParseRun(v[2..], 16)
    else ParseRun(v, 10)
  }

  /** The longest run of radix-`radix` digits at the start of `w`, `None` if it is empty. */
  function ParseRun(w: string, radix: nat): (r: Option<int>)
    ensures r.Some? <==> |w| > 0 && DigitValue(w[0]) < radix
  {
    var n := LeadingDigits(w, radix);
    if n == 0 then None else Some(DigitsValue(w[..n], radix))
  }

  lemma {:induction false} DecimalStringValue(n: nat)
    ensures DigitsValue(DecimalString(n), 10) == n
  {
    if n >= 10 {
      var p := DecimalString(n / 10);
      var s := DecimalString(n);
      assert s == p + [DigitChar(n % 10)];
      assert s[..|s| - 1] == p;
      DecimalStringValue(n / 10);
    }
  }

  /** `parseInt(String(n)) === n` for every natural number `n`. */
  lemma ParseIntDecimalString(n: nat)
    ensures ParseInt(DecimalString(n)) == Some(n)
  {
    ParseIntDigits(DecimalString(n));
    DecimalStringValue(n);
  }

  /** A non-empty string of decimal digits parses to the number it denotes. */
  lemma ParseIntDigits(s: string)
    requires |s| > 0
    requires forall i | 0 <= i < |s| :: '0' <= s[i] <= '9'
    ensures ParseInt(s) == Some(DigitsValue(s, 10))
  {
    DigitsNotTrimmed(s);
    DigitsUnsigned(s);
    DigitsRun(s);
  }

  lemma DigitsNotTrimmed(s: string)
    requires |s| > 0 && '0' <= s[0] <= '9'
    ensures TrimStart(s) == s
  {
    assert !IsWhiteSpace(s[0]);
  }

  lemma DigitsUnsigned(s: string)
    requires |s| > 0
    requires forall i | 0 <= i < |s| :: '0' <= s[i] <= '9'
    ensures ParseSigned(s) == ParseRun(s, 10)
  {
    assert s[0] != '-' && s[0] != '+';
    assert |s| >= 2 ==> s[1] != 'x' && s[1] != 'X';
  }

  lemma DigitsRun(s: string)
    requires forall i | 0 <= i < |s| :: '0' <= s[i] <= '9'
    ensures ParseRun(s, 10) == if s == [] then None else Some(DigitsValue(s, 10))
  {
    AllDigitsLead(s);
    assert s[..|s|] == s;
  }

  lemma AllDigitsLead(s: string)
    requires forall i | 0 <= i < |s| :: '0' <= s[i] <= '9'
    ensures LeadingDigits(s, 10) == |s|
  {
    var n := LeadingDigits(s, 10);
    assert n < |s| ==> DigitValue(s[n]) < 10;
  }

  /** Every option the campaign select offers finds its own campaign. */
  lemma SelectOptionFindsCampaign(c: Campaign)
    requires c in Catalog()
    ensures FindCampaign(Catalog(), ParseInt(DecimalString(c.id))) == Some(c)
  {
    var k :| 0 <= k < 5 && Catalog()[k] == c;
    ParseIntDecimalString(k + 1);
    CatalogLookup(k + 1);
  }
}
