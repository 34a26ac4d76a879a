/**
  The values a style property can hold, and the three textual forms the
  declaration engine needs of them: Python's `str()` (used in error messages),
  Python's `repr()` (used for the elements of a tuple), and the CSS rendering
  used when a declaration is serialized.
*/
module Values {
  import opened Strings

  /**
    A property value. Lengths and percentages are opaque quantities supplied by
    the units collaborator; the model only needs their kind and the text they
    render as (such as "20px" or "30%"). Keywords are the named constants of the
    CSS vocabulary (AUTO, INLINE, ...), held by their lower-case name. `NoneV` is
    Python's `None`.
  */
  datatype Value =
    | Int(n: int)
    | Length(text: string)
    | Percent(text: string)
    | Str(s: string)
    | Keyword(name: string)
    | NoneV

  /** What a caller assigns to an attribute: one value, or a tuple of values. */
  datatype Arg = Scalar(v: Value) | Tuple(items: seq<Value>)

  const AUTO: Value := Keyword("auto")

  // The keywords of the CSS 2.1 `display` property.
  const INLINE: Value := Keyword("inline")
  const BLOCK: Value := Keyword("block")
  const LIST_ITEM: Value := Keyword("list-item")
  const INLINE_BLOCK: Value := Keyword("inline-block")
  const TABLE: Value := Keyword("table")
  const INLINE_TABLE: Value := Keyword("inline-table")
  const TABLE_ROW_GROUP: Value := Keyword("table-row-group")
  const TABLE_HEADER_GROUP: Value := Keyword("table-header-group")
  const TABLE_FOOTER_GROUP: Value := Keyword("table-footer-group")
  const TABLE_ROW: Value := Keyword("table-row")
  const TABLE_COLUMN_GROUP: Value := Keyword("table-column-group")
  const TABLE_COLUMN: Value := Keyword("table-column")
  const TABLE_CELL: Value := Keyword("table-cell")
  const TABLE_CAPTION: Value := Keyword("table-caption")
  const NONE: Value := Keyword("none")

  predicate IsDigit(c: char)
  {
    '0' <= c <= '9'
  }

  function DigitChar(d: nat): (c: char)
    requires d < 10
    ensures IsDigit(c) && c as int - '0' as int == d
  {
    ('0' as int + d) as char
  }

  /** The decimal digits of `n`, as Python's `str()` writes a non-negative int. */
  function NatText(n: nat): (r: string)
    ensures r != [] && forall i :: 0 <= i < |r| ==> IsDigit(r[i])
    ensures r[0] == '0' <==> n == 0
    decreases n
  {
    if n < 10 then [DigitChar(n)] else NatText(n / 10) + [DigitChar(n % 10)]
  }

  /** The number a string of decimal digits denotes. */
  function DigitsValue(s: string): nat
    requires forall i :: 0 <= i < |s| ==> IsDigit(s[i])
  {
    if s == [] then 0 else DigitsValue(s[..|s| - 1]) * 10 + DigitValue(s[|s| - 1])
  }

  function DigitValue(c: char): nat
    requires IsDigit(c)
  {
    c as int - '0' as int
  }

  lemma {:induction false} NatTextRoundTrip(n: nat)
    ensures DigitsValue(NatText(n)) == n
    decreases n
  {
    if n >= 10 {
      NatTextRoundTrip(n / 10);
      var r := NatText(n);
      assert r[..|r| - 1] == NatText(n / 10);
    }
  }

  /** Python's `str(n)` for an int. */
  function IntText(n: int): (r: string)
  {
    if n < 0 then "-" + NatText(-n) else NatText(n)
  }

  /** Distinct integers print differently, so a message or a rendering names its integer unambiguously. */
  lemma IntTextInjective(a: int, b: int)
    requires IntText(a) == IntText(b)
    ensures a == b
  {
    IntTextSign(a);
    IntTextSign(b);
    if a < 0 {
      assert NatText(-a) == IntText(a)[1..] == IntText(b)[1..] == NatText(-b);
      NatTextInjective(-a, -b);
    } else {
      assert NatText(a) == IntText(a) == IntText(b) == NatText(b);
      NatTextInjective(a, b);
    }
  }

  lemma NatTextInjective(m: nat, n: nat)
    requires NatText(m) == NatText(n)
    ensures m == n
  {
    NatTextRoundTrip(m);
    NatTextRoundTrip(n);
  }

  /** The text of an int starts with a minus sign exactly when the int is negative. */
  lemma IntTextSign(n: int)
    ensures IntText(n) != [] && (IntText(n)[0] == '-' <==> n < 0)
    ensures n < 0 ==> IntText(n)[1..] == NatText(-n)
  {
    if n < 0 {
      assert ("-" + NatText(-n))[1..] == NatText(-n);
    } else {
      assert IsDigit(NatText(n)[0]);
    }
  }

  /** Python's `str(v)`. */
  function PlainText(v: Value): string
  {
    match v
    case Int(n) => IntText(n)
    case Length(t) => t
    case Percent(t) => t
    case Str(s) => s
    case Keyword(k) => k
    case NoneV => "None"
  }

  /** Python's `repr(v)`: strings (and keywords, which are strings) are quoted. */
  function QuotedText(v: Value): string
  {
    match v
    case Str(s) => "'" + s + "'"
    case Keyword(k) => "'" + k + "'"
    case _ => PlainText(v)
  }

  /** Python's `repr()` of an assigned value: a tuple shows its elements' `repr()`. */
  function ArgRepr(a: Arg): string
  {
    match a
    case Scalar(v) => QuotedText(v)
    case Tuple(vs) =>
      "(" + Join(seq(|vs|, i requires 0 <= i < |vs| => QuotedText(vs[i])), ", ")
      + (if |vs| == 1 then "," else "") + ")"
  }

  /** How a stored value appears in a serialized declaration: bare integers are pixels. */
  function CssText(v: Value): (r: string)
    ensures v.Int? ==> |r| > 2 && r[|r| - 2..] == "px" && (r[0] == '-' <==> v.n < 0)
    ensures v.Int? && v.n >= 0 ==> forall i :: 0 <= i < |r| - 2 ==> IsDigit(r[i])
    ensures !v.Int? && !v.NoneV? ==> r == PlainText(v)
  {
    match v
    case Int(n) =>
      IntTextSign(n);
      IntText(n) + "px"
    case Length(t) => t
    case Percent(t) => t
    case Str(s) => s
    case Keyword(k) => k
    case NoneV => "none"
  }

  /** Integers render as pixels without loss: distinct integers give distinct texts. */
  lemma CssTextIntInjective(a: int, b: int)
    requires CssText(Int(a)) == CssText(Int(b))
    ensures a == b
  {
    var r, t := CssText(Int(a)), CssText(Int(b));
    assert IntText(a) == r[..|r| - 2] && IntText(b) == t[..|t| - 2];
    IntTextInjective(a, b);
  }
}
