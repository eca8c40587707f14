/** The parsed metadata document as an abstract element tree, and the three DOM
    operations both metadata parsers use: `getElementsByTagName`,
    `getAttribute` and the `attributes` list. Tags are qualified names
    (`edmx:Edmx`); namespace resolution is not part of the model. Also the
    `parseInt` rule used for numeric facets. */
module Xml {
  import opened Wrappers
  import opened Text
  import opened Json

  datatype Elem = Elem(tag: string, attrs: seq<(string, string)>, children: seq<Elem>)

  /** `e.getAttribute(name)`: the value of the first attribute with that name, or null. */
  function GetAttribute(e: Elem, name: string): (r: Option<string>)
    ensures r.None? <==> forall i :: 0 <= i < |e.attrs| ==> e.attrs[i].0 != name
    ensures r.Some? ==> exists i :: 0 <= i < |e.attrs| && e.attrs[i] == (name, r.value)
  {
    FirstValue(e.attrs, name)
  }

  function FirstValue(attrs: seq<(string, string)>, name: string): (r: Option<string>)
    ensures r.None? <==> forall i :: 0 <= i < |attrs| ==> attrs[i].0 != name
    ensures r.Some? ==> exists i :: 0 <= i < |attrs| && attrs[i] == (name, r.value)
  {
    if attrs == [] then None
    else if attrs[0].0 == name then Some(attrs[0].1)
    else FirstValue(attrs[1..], name)
  }

  /** `getAttribute(name) || fallback`: a missing or empty attribute gives the fallback. */
  function AttrOr(e: Elem, name: string, fallback: string): (r: string)
    ensures GetAttribute(e, name).Some? && GetAttribute(e, name).value != "" ==> r == GetAttribute(e, name).value
    ensures GetAttribute(e, name).None? || GetAttribute(e, name).value == "" ==> r == fallback
  {
    match GetAttribute(e, name)
    case Some(v) => if v != "" then v else fallback
    case None => fallback
  }

  /** `getAttribute(name) || undefined`: an attribute that is missing or empty is absent. */
  function NonEmptyAttr(e: Elem, name: string): (r: Option<string>)
    ensures r.Some? ==> r.value != "" && GetAttribute(e, name) == r
    ensures r.None? ==> GetAttribute(e, name).None? || GetAttribute(e, name).value == ""
  {
    match GetAttribute(e, name)
    case Some(v) => if v != "" then Some(v) else None
    case None => None
  }

  /** All elements of a forest in document (pre-)order. */
  function Forest(cs: seq<Elem>): seq<Elem>
    decreases cs
  {
    if cs == [] then []
    else
      assert cs[0] in cs;
      [cs[0]] + Forest(cs[0].children) + Forest(cs[1..])
  }

  function ByTag(es: seq<Elem>, tag: string): (r: seq<Elem>)
    ensures forall i :: 0 <= i < |r| ==> r[i].tag == tag
    ensures |r| <= |es|
  {
    if es == [] then []
    else (if es[0].tag == tag then [es[0]] else []) + ByTag(es[1..], tag)
  }

  /** `e.getElementsByTagName(tag)`: the descendants of `e` (not `e` itself)
      with that tag, in document order. */
  function ElementsByTagName(e: Elem, tag: string): (r: seq<Elem>)
    ensures forall i :: 0 <= i < |r| ==> r[i].tag == tag
  {
    ByTag(Forest(e.children), tag)
  }

  /** `document.getElementsByTagName(tag)`: the root element is included. */
  function DocumentElementsByTagName(root: Elem, tag: string): (r: seq<Elem>)
    ensures forall i :: 0 <= i < |r| ==> r[i].tag == tag
  {
    ByTag(Forest([root]), tag)
  }

  /** `e.getElementsByTagName(tag)[0]`. */
  function FirstByTagName(e: Elem, tag: string): (r: Option<Elem>)
    ensures r.Some? <==> ElementsByTagName(e, tag) != []
    ensures r.Some? ==> r.value == ElementsByTagName(e, tag)[0] && r.value.tag == tag
  {
    var es := ElementsByTagName(e, tag);
    if es == [] then None else Some(es[0])
  }

  // ---------------------------------------------------------------------------
  // parseInt

  /** The value of `ch` as a digit of `radix` (10 or 16), or -1. */
  function DigitIn(ch: char, radix: nat): (d: int)
    ensures -1 <= d < 16
  {
    if '0' <= ch <= '9' && (ch as int - '0' as int) < radix then ch as int - '0' as int
    else if radix == 16 && 'a' <= ch <= 'f' then ch as int - 'a' as int + 10
    else if radix == 16 && 'A' <= ch <= 'F' then ch as int - 'A' as int + 10
    else -1
  }

  /** The longest prefix of `s` made of digits of `radix`. */
  function LeadingDigits(s: string, radix: nat): (r: string)
    ensures r <= s
    ensures forall i :: 0 <= i < |r| ==> DigitIn(r[i], radix) >= 0
    ensures |r| < |s| ==> DigitIn(s[|r|], radix) < 0
  {
    if s == [] || DigitIn(s[0], radix) < 0 then [] else [s[0]] + LeadingDigits(s[1..], radix)
  }

  function DigitsIn(s: string, radix: nat): nat
    requires forall i :: 0 <= i < |s| ==> DigitIn(s[i], radix) >= 0
  {
    if s == [] then 0
    else
      var init := s[..|s| - 1];
      assert forall i :: 0 <= i < |init| ==> init[i] == s[i];
      var high: nat := DigitsIn(init, radix);
      var low: nat := DigitIn(s[|s| - 1], radix);
      high * radix + low
  }

  /** `parseInt(s)` with no radix: leading white space is skipped, one sign is
      read, a `0x`/`0X` prefix selects hexadecimal, and the longest run of
      digits that follows is the value; with no digits the result is NaN. */
  function ParseInt(s: string): JsNumber {
    ParseSigned(TrimStart(s))
  }

  function ParseSigned(t: string): JsNumber {
    if t != [] && t[0] == '-' then
      match ParseUnsigned(t[1..])
      case Some(n) => Finite(-(n as int))
      case None => NaN
    else
      var u := if t != [] && t[0] == '+' then t[1..] else t;
      match ParseUnsigned(u)
      case Some(n) => Finite(n)
      case None => NaN
  }

  /** The digits after the sign; `None` when there are none (NaN). */
  function ParseUnsigned(u: string): Option<nat> {
    var hex := |u| >= 2 && u[0] == '0' && (u[1] == 'x' || u[1] == 'X');
    var radix := if hex then 16 else 10;
    var ds := LeadingDigits(if hex then u[2..] else u, radix);
    if ds == [] then None else Some(DigitsIn(ds, radix))
  }

  lemma {:induction false} DecimalDigitsAgree(s: string)
    requires AllDigits(s)
    ensures forall i :: 0 <= i < |s| ==> DigitIn(s[i], 10) >= 0
    ensures DigitsIn(s, 10) == DigitsValue(s)
  {
    if s != [] {
      DecimalDigitsAgree(s[..|s| - 1]);
    }
  }

  lemma DigitsParse(ds: string)
    requires ds != [] && AllDigits(ds)
    ensures ParseUnsigned(ds) == Some(DigitsValue(ds))
  {
    DecimalDigitsAgree(ds);
    LeadingAllDigits(ds, 10);
    assert !(|ds| >= 2 && ds[0] == '0' && (ds[1] == 'x' || ds[1] == 'X')) by {
      assert |ds| >= 2 ==> '0' <= ds[1] <= '9';
    }
  }

  lemma DecimalParse(n: nat)
    ensures ParseUnsigned(NatToString(n)) == Some(n)
  {
    DigitsParse(NatToString(n));
    NatToStringRoundTrip(n);
  }

  lemma TrimStartKeeps(s: string)
    requires s != [] && !IsJsSpace(s[0])
    ensures TrimStart(s) == s
  {
  }

  /** parseInt reads back what `String(n)` prints, for every integer. */
  lemma ParseIntRoundTrip(i: int)
    ensures ParseInt(IntToString(i)) == Finite(i)
  {
    if i < 0 {
      NegativeParse(-i);
    } else {
      NonNegativeParse(i);
    }
  }

  lemma NegativeParse(n: nat)
    ensures ParseInt("-" + NatToString(n)) == Finite(-(n as int))
  {
    var s := "-" + NatToString(n);
    assert s[0] == '-' && s[1..] == NatToString(n);
    TrimStartKeeps(s);
    DecimalParse(n);
  }

  lemma NonNegativeParse(n: nat)
    ensures ParseInt(NatToString(n)) == Finite(n)
  {
    var s := NatToString(n);
    assert '0' <= s[0] <= '9';
    TrimStartKeeps(s);
    DecimalParse(n);
  }

  lemma {:induction false} LeadingAllDigits(s: string, radix: nat)
    requires forall i :: 0 <= i < |s| ==> DigitIn(s[i], radix) >= 0
    ensures LeadingDigits(s, radix) == s
  {
    if s != [] {
      LeadingAllDigits(s[1..], radix);
    }
  }
}
