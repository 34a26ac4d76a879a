/**
  The value domain of a property (`Choices` in colosseum.constants): explicit
  literal values plus three flags for "any integer", "any length" and "any
  percentage". It decides membership and describes itself for error messages.
*/
module Domain {
  import opened Strings
  import opened Values

  /** `Choices(*literals, integer=..., length=..., percentage=...)`. */
  datatype Choices = Choices(literals: seq<Value>, integer: bool, length: bool, percentage: bool)

  const NO_CHOICES: Choices := Choices([], false, false, false)

  /**
    Membership. A length domain also takes bare integers (a number of pixels)
    and percentages; an integer domain takes only bare integers; a percentage
    domain takes only percentages.
  */
  predicate Accepts(c: Choices, v: Value): (r: bool)
    ensures c == NO_CHOICES ==> !r
    ensures v in c.literals ==> r
    ensures v.Str? || v.Keyword? || v.NoneV? ==> (r <==> v in c.literals)
    ensures v.Length? ==> (r <==> v in c.literals || c.length)
  {
    || v in c.literals
    || (v.Int? && (c.integer || c.length))
    || (v.Length? && c.length)
    || (v.Percent? && (c.length || c.percentage))
  }

  /** How a literal is listed in a description: its text, with `None` as "none". */
  function LiteralText(v: Value): string
  {
    if v == NoneV then "none" else PlainText(v)
  }

  function LiteralTexts(vs: seq<Value>): (r: seq<string>)
    ensures |r| == |vs|
  {
    seq(|vs|, i requires 0 <= i < |vs| => LiteralText(vs[i]))
  }

  lemma LiteralTextsAppend(a: seq<Value>, b: seq<Value>)
    ensures LiteralTexts(a + b) == LiteralTexts(a) + LiteralTexts(b)
  {
  }

  lemma MultisetRemove<T>(b: seq<T>, j: nat)
    requires j < |b|
    ensures multiset(b) == multiset(b[..j] + b[j + 1..]) + multiset{b[j]}
  {
    assert b == b[..j] + [b[j]] + b[j + 1..];
  }

  /** The texts of `b` around its element `j`. */
  lemma LiteralTextsSplit(b: seq<Value>, j: nat)
    requires j < |b|
    ensures LiteralTexts(b) == LiteralTexts(b[..j]) + [LiteralText(b[j])] + LiteralTexts(b[j + 1..])
    ensures LiteralTexts(b[..j] + b[j + 1..]) == LiteralTexts(b[..j]) + LiteralTexts(b[j + 1..])
  {
    var front, back := b[..j], b[j + 1..];
    assert b == front + [b[j]] + back;
    LiteralTextsAppend(front + [b[j]], back);
    LiteralTextsAppend(front, [b[j]]);
    LiteralTextsAppend(front, back);
  }

  lemma MultisetSplice<T>(front: seq<T>, x: T, back: seq<T>)
    ensures multiset(front + [x] + back) == multiset(front + back) + multiset{x}
  {
  }

  /** The placeholders of the enabled flags, always in the order integer, length, percentage. */
  function FlagItems(c: Choices): (r: seq<string>)
    ensures "<integer>" in r <==> c.integer
    ensures "<length>" in r <==> c.length
    ensures "<percentage>" in r <==> c.percentage
  {
    (if c.integer then ["<integer>"] else [])
    + (if c.length then ["<length>"] else [])
    + (if c.percentage then ["<percentage>"] else [])
  }

  /**
    The entries of `str(choices)`: the flag placeholders, then the texts of
    the literals sorted. The literals are collected as a set first, so a
    literal given twice is listed once.
  */
  function DescriptionItems(c: Choices): seq<string>
  {
    FlagItems(c) + Sort(LiteralTexts(Distinct(c.literals)))
  }

  /**
    The shape of a description: the enabled flags first, in their fixed order,
    then the text of each different literal once, in ascending order.
  */
  lemma DescriptionShape(c: Choices)
    ensures var items, flags, literals := DescriptionItems(c), FlagItems(c), Distinct(c.literals);
      && |items| == |flags| + |literals|
      && items[..|flags|] == flags
      && Sorted(items[|flags|..])
      && multiset(items[|flags|..]) == multiset(LiteralTexts(literals))
  {
    var items, flags, texts := DescriptionItems(c), FlagItems(c), LiteralTexts(Distinct(c.literals));
    assert items[..|flags|] == flags && items[|flags|..] == Sort(texts);
    assert |Sort(texts)| == |multiset(texts)|;
  }

  /** `str(choices)`: the description that ends an invalid-value message. */
  function Describe(c: Choices): (r: string)
    ensures c.literals == [] && !c.integer && !c.length && !c.percentage ==> r == ""
    ensures c.integer ==> "<integer>" <= r
    ensures !c.integer && c.length ==> "<length>" <= r
  {
    JoinStartsWithFirst(DescriptionItems(c), ", ");
    Join(DescriptionItems(c), ", ")
  }

  /**
    The exact text of the `ValueError` a property raises for a value outside
    its domain; `valueText` is the value's `repr()`.
  */
  function InvalidValueMessage(name: string, valueText: string, c: Choices): (r: string)
    ensures "Invalid value " + valueText + " for CSS property '" + name <= r
    ensures |Describe(c)| <= |r| && r[|r| - |Describe(c)|..] == Describe(c)
  {
    var head := "Invalid value " + valueText + " for CSS property '" + name;
    ConcatParts(head, "'; Valid values are: ", Describe(c));
    head + "'; Valid values are: " + Describe(c)
  }

  lemma FlagsAreDescribed(c: Choices, s: string)
    requires s in FlagItems(c)
    ensures s in DescriptionItems(c)
  {
    var items, flags := DescriptionItems(c), FlagItems(c);
    var j :| 0 <= j < |flags| && flags[j] == s;
    assert items[j] == s;
  }

  lemma LiteralsAreDescribed(c: Choices, v: Value)
    requires v in c.literals
    ensures LiteralText(v) in DescriptionItems(c)
  {
    var literals := Distinct(c.literals);
    var texts := LiteralTexts(literals);
    var j :| 0 <= j < |literals| && literals[j] == v;
    assert texts[j] == LiteralText(v);
    assert LiteralText(v) in multiset(Sort(texts));
    assert LiteralText(v) in Sort(texts);
  }

  /** Membership and description agree: every accepted value is accounted for in the description. */
  lemma AcceptedValueIsDescribed(c: Choices, v: Value)
    requires Accepts(c, v)
    ensures var items := DescriptionItems(c);
      || LiteralText(v) in items
      || (v.Int? && ("<integer>" in items || "<length>" in items))
      || (v.Length? && "<length>" in items)
      || (v.Percent? && ("<length>" in items || "<percentage>" in items))
  {
    if v in c.literals {
      LiteralsAreDescribed(c, v);
    } else if v.Int? && c.integer {
      FlagsAreDescribed(c, "<integer>");
    } else if v.Percent? && !c.length {
      FlagsAreDescribed(c, "<percentage>");
    } else {
      FlagsAreDescribed(c, "<length>");
    }
  }

  /**
    The description depends only on which literals a domain has, not on the
    order they were given in or on how often one was repeated: `Choices`
    keeps its literals in a set.
  */
  lemma {:induction false} DescribeIgnoresLiteralOrder(c: Choices, d: Choices)
    requires forall v :: v in c.literals <==> v in d.literals
    requires c.integer == d.integer && c.length == d.length && c.percentage == d.percentage
    ensures Describe(c) == Describe(d)
  {
    var a, b := Distinct(c.literals), Distinct(d.literals);
    DistinctPermutes(c.literals, d.literals);
    LiteralTextsPermute(a, b);
    SortedUnique(Sort(LiteralTexts(a)), Sort(LiteralTexts(b)));
  }

  lemma {:induction false} LiteralTextsPermute(a: seq<Value>, b: seq<Value>)
    requires multiset(a) == multiset(b)
    ensures multiset(LiteralTexts(a)) == multiset(LiteralTexts(b))
    decreases |a|
  {
    if a == [] {
      assert b == [] by { assert |multiset(b)| == 0; }
    } else {
      var j := MatchingIndex(a, b);
      LiteralTextsPermute(a[1..], b[..j] + b[j + 1..]);
      LiteralTextsRestore(a, b, j);
    }
  }

  /** Where the first element of `a` sits in a permutation `b` of it, and what is left of the two. */
  lemma MatchingIndex<T>(a: seq<T>, b: seq<T>) returns (j: nat)
    requires multiset(a) == multiset(b) && a != []
    ensures j < |b| && b[j] == a[0]
    ensures multiset(a[1..]) == multiset(b[..j] + b[j + 1..])
  {
    assert a[0] in multiset(b);
    j :| 0 <= j < |b| && b[j] == a[0];
    RemoveMatching(a, b, j);
  }

  /** Putting the matching element back on both sides keeps the texts a permutation. */
  lemma LiteralTextsRestore(a: seq<Value>, b: seq<Value>, j: nat)
    requires a != [] && j < |b| && b[j] == a[0]
    requires multiset(LiteralTexts(a[1..])) == multiset(LiteralTexts(b[..j] + b[j + 1..]))
    ensures multiset(LiteralTexts(a)) == multiset(LiteralTexts(b))
  {
    LiteralTextsSplit(a, 0);
    LiteralTextsSplit(b, j);
    assert a[..0] + a[1..] == a[1..] && LiteralTexts(a[..0]) == [];
    ghost var t := LiteralText(a[0]);
    MultisetSplice([], t, LiteralTexts(a[1..]));
    MultisetSplice(LiteralTexts(b[..j]), t, LiteralTexts(b[j + 1..]));
  }

  lemma RemoveMatching<T>(a: seq<T>, b: seq<T>, j: nat)
    requires multiset(a) == multiset(b) && a != [] && j < |b| && b[j] == a[0]
    ensures multiset(a[1..]) == multiset(b[..j] + b[j + 1..])
  {
    MultisetRemove(b, j);
    MultisetRemove(a, 0);
    assert a[..0] + a[1..] == a[1..];
    assert multiset(a[1..]) == multiset(a) - multiset{a[0]};
  }

  // The domains and messages of the Choices scenarios.

  /** The message for the string 'invalid' assigned to a property called 'prop'. */
  lemma PropMessage(c: Choices)
    ensures InvalidValueMessage("prop", QuotedText(Str("invalid")), c)
      == "Invalid value 'invalid' for CSS property 'prop'; Valid values are: " + Describe(c)
  {
    PropMessageText(Describe(c));
  }

  lemma PropMessageText(d: string)
    ensures "Invalid value " + QuotedText(Str("invalid")) + " for CSS property '" + "prop" + "'; Valid values are: " + d
      == "Invalid value 'invalid' for CSS property 'prop'; Valid values are: " + d
  {
    PropMessagePrefix();
    PropMessageHead();
  }

  lemma PropMessageHead()
    ensures "Invalid value 'invalid' for CSS property 'prop" + "'; Valid values are: "
      == "Invalid value 'invalid' for CSS property 'prop'; Valid values are: "
  {
  }

  lemma PropMessagePrefix()
    ensures "Invalid value " + QuotedText(Str("invalid")) + " for CSS property '" + "prop"
      == "Invalid value 'invalid' for CSS property 'prop"
  {
    assert QuotedText(Str("invalid")) == "'invalid'";
    assert "Invalid value " + "'invalid'" == "Invalid value 'invalid'";
    assert "Invalid value 'invalid'" + " for CSS property '" == "Invalid value 'invalid' for CSS property '";
    assert "Invalid value 'invalid' for CSS property '" + "prop" == "Invalid value 'invalid' for CSS property 'prop";
  }

  lemma NoChoicesScenario(v: Value)
    ensures !Accepts(NO_CHOICES, v)
    ensures InvalidValueMessage("prop", QuotedText(Str("invalid")), NO_CHOICES)
      == "Invalid value 'invalid' for CSS property 'prop'; Valid values are: "
  {
    assert Sort([]) == [];
    assert Describe(NO_CHOICES) == "";
    PropMessage(NO_CHOICES);
  }

  lemma LengthScenario(v: Value)
    ensures Accepts(Choices([], false, true, false), v) <==> v.Int? || v.Length? || v.Percent?
    ensures Describe(Choices([], false, true, false)) == "<length>"
  {
    assert Sort([]) == [];
  }

  lemma PercentageScenario(v: Value)
    ensures Accepts(Choices([], false, false, true), v) <==> v.Percent?
    ensures Describe(Choices([], false, false, true)) == "<percentage>"
  {
    assert Sort([]) == [];
  }

  lemma IntegerScenario(v: Value)
    ensures Accepts(Choices([], true, false, false), v) <==> v.Int?
    ensures Describe(Choices([], true, false, false)) == "<integer>"
  {
    assert Sort([]) == [];
  }

  lemma SortedLiteralTexts()
    ensures Sort(["a", "b", "none"]) == ["a", "b", "none"]
  {
    var s := ["a", "b", "none"];
    assert Sorted(s) by {
      assert LessEq(Identity(s[0]), Identity(s[1])) && LessEq(Identity(s[1]), Identity(s[2]));
    }
    SortedUnique(Sort(s), s);
  }

  lemma DistinctLiterals()
    ensures Distinct([Str("a"), Str("b"), NoneV]) == [Str("a"), Str("b"), NoneV]
  {
    var xs := [Str("a"), Str("b"), NoneV];
    assert xs[1..] == [Str("b"), NoneV] && xs[1..][1..] == [NoneV] && [NoneV][1..] == [];
    assert Distinct([NoneV]) == [NoneV];
    assert Distinct([Str("b"), NoneV]) == [Str("b"), NoneV];
  }

  lemma LiteralTextsOfABNone()
    ensures LiteralTexts([Str("a"), Str("b"), NoneV]) == ["a", "b", "none"]
  {
  }

  lemma LiteralItems(c: Choices)
    requires c.literals == [Str("a"), Str("b"), NoneV]
    ensures DescriptionItems(c) == FlagItems(c) + ["a", "b", "none"]
  {
    DistinctLiterals();
    LiteralTextsOfABNone();
    SortedLiteralTexts();
    assert DescriptionItems(c) == FlagItems(c) + Sort(LiteralTexts([Str("a"), Str("b"), NoneV]));
  }

  lemma JoinedLiterals()
    ensures Join(["a", "b", "none"], ", ") == "a, b, none"
  {
    assert ["a", "b", "none"][1..] == ["b", "none"] && ["b", "none"][1..] == ["none"];
    assert Join(["b", "none"], ", ") == "b, none";
  }

  /** The full description, written item by item with its separators. */
  lemma JoinedFullDescription()
    ensures Join(["<integer>", "<length>", "<percentage>", "a", "b", "none"], ", ")
      == "<integer>, " + ("<length>, " + ("<percentage>, " + "a, b, none"))
  {
    assert ["<integer>"] + ["<length>", "<percentage>", "a", "b", "none"]
      == ["<integer>", "<length>", "<percentage>", "a", "b", "none"];
    JoinedLength();
    JoinCons("<integer>", ["<length>", "<percentage>", "a", "b", "none"], ", ");
    assert "<integer>" + ", " == "<integer>, ";
  }

  lemma JoinedLength()
    ensures Join(["<length>", "<percentage>", "a", "b", "none"], ", ") == "<length>, " + ("<percentage>, " + "a, b, none")
  {
    assert ["<length>"] + ["<percentage>", "a", "b", "none"] == ["<length>", "<percentage>", "a", "b", "none"];
    JoinedPercentage();
    JoinCons("<length>", ["<percentage>", "a", "b", "none"], ", ");
    assert "<length>" + ", " == "<length>, ";
  }

  lemma JoinedPercentage()
    ensures Join(["<percentage>", "a", "b", "none"], ", ") == "<percentage>, " + "a, b, none"
  {
    assert ["<percentage>"] + ["a", "b", "none"] == ["<percentage>", "a", "b", "none"];
    JoinedLiterals();
    JoinCons("<percentage>", ["a", "b", "none"], ", ");
    assert "<percentage>" + ", " == "<percentage>, ";
  }

  /** `str(choices)` is the items joined with ", ". */
  lemma DescribeFromItems(c: Choices, items: seq<string>)
    requires DescriptionItems(c) == items
    ensures Describe(c) == Join(items, ", ")
  {
  }

  lemma LiteralDescription(c: Choices)
    requires c.literals == [Str("a"), Str("b"), NoneV]
    requires !c.integer && !c.length && !c.percentage
    ensures Describe(c) == "a, b, none"
  {
    LiteralItems(c);
    assert FlagItems(c) == [];
    DescribeFromItems(c, ["a", "b", "none"]);
    JoinedLiterals();
  }

  lemma FullDescription(c: Choices)
    requires c.literals == [Str("a"), Str("b"), NoneV]
    requires c.integer && c.length && c.percentage
    ensures Describe(c) == "<integer>, " + ("<length>, " + ("<percentage>, " + "a, b, none"))
  {
    LiteralItems(c);
    assert FlagItems(c) == ["<integer>", "<length>", "<percentage>"];
    DescribeFromItems(c, ["<integer>", "<length>", "<percentage>", "a", "b", "none"]);
    JoinedFullDescription();
  }

  /** A literal given twice is described once. */
  lemma RepeatedLiteralScenario()
    ensures Describe(Choices([Str("a"), Str("a")], false, false, false)) == "a"
  {
    var c := Choices([Str("a"), Str("a")], false, false, false);
    assert Distinct(c.literals) == [Str("a")];
    assert LiteralTexts([Str("a")]) == ["a"];
    assert Sorted(["a"]);
    SortedUnique(Sort(["a"]), ["a"]);
    assert DescriptionItems(c) == ["a"];
  }

  lemma LiteralScenario(v: Value)
    ensures Accepts(Choices([Str("a"), Str("b"), NoneV], false, false, false), v)
      <==> v == Str("a") || v == Str("b") || v == NoneV
  {
  }

  lemma FullScenario(c: Choices)
    requires c == Choices([Str("a"), Str("b"), NoneV], true, true, true)
    ensures Accepts(c, Int(10)) && Accepts(c, Length("20px")) && Accepts(c, Percent("30%"))
    ensures Accepts(c, Str("a")) && Accepts(c, Str("b")) && !Accepts(c, Str("invalid"))
  {
  }
}
