/**
  A directional property (`directional_property` in colosseum.declaration):
  a shorthand such as `margin` standing for four validated edge properties
  (`margin_top`, `margin_right`, `margin_bottom`, `margin_left`). Its getter is
  the tuple `(top, right, bottom, left)`; its setter expands one to four
  values by the fill rule of the CSS 2.1 box model (section 8.3 of CSS 2.1)
  and assigns the edges; its deleter deletes all four edges.
*/
module Directional {
  import opened Wrappers
  import opened Values
  import opened Domain
  import opened Declaration

  /** The shorthand's value, `(top, right, bottom, left)`. */
  datatype Sides = Sides(top: Value, right: Value, bottom: Value, left: Value)

  function SidesTuple(s: Sides): (r: seq<Value>)
    ensures |r| == 4
  {
    [s.top, s.right, s.bottom, s.left]
  }

  /** A shorthand and its four edge properties. */
  datatype Family = Family(name: string, top: Property, right: Property, bottom: Property, left: Property)

  function Edges(f: Family): (r: seq<Property>)
    ensures |r| == 4
  {
    [f.top, f.right, f.bottom, f.left]
  }

  function EdgeNames(f: Family): set<string>
  {
    {f.top.name, f.right.name, f.bottom.name, f.left.name}
  }

  /** The four edges are distinct properties. */
  predicate ValidFamily(f: Family)
  {
    forall i, j :: 0 <= i < j < 4 ==> Edges(f)[i].name != Edges(f)[j].name
  }

  /** The shorthand's getter. */
  function ReadSides(values: map<string, Value>, f: Family): Sides
  {
    Sides(Read(values, f.top), Read(values, f.right), Read(values, f.bottom), Read(values, f.left))
  }

  /**
    The fill rule: one to four values give the four sides; a missing right
    side copies the top, a missing bottom copies the top, a missing left
    copies the right. Any other number of values has no expansion.
  */
  function Expand(vs: seq<Value>): (r: Option<Sides>)
    ensures r.Some? <==> 1 <= |vs| <= 4
    ensures r.Some? ==> r.value.top == vs[0]
    ensures r.Some? ==> r.value.right == (if |vs| >= 2 then vs[1] else r.value.top)
    ensures r.Some? ==> r.value.bottom == (if |vs| >= 3 then vs[2] else r.value.top)
    ensures r.Some? ==> r.value.left == (if |vs| == 4 then vs[3] else r.value.right)
  {
    match |vs|
    case 1 => Some(Sides(vs[0], vs[0], vs[0], vs[0]))
    case 2 => Some(Sides(vs[0], vs[1], vs[0], vs[1]))
    case 3 => Some(Sides(vs[0], vs[1], vs[2], vs[1]))
    case 4 => Some(Sides(vs[0], vs[1], vs[2], vs[3]))
    case _ => None
  }

  /** The values given are kept in their positions; the expansion only fills the rest. */
  lemma ExpandKeepsGiven(vs: seq<Value>, i: nat)
    requires 1 <= |vs| <= 4 && i < |vs|
    ensures SidesTuple(Expand(vs).value)[i] == vs[i]
  {
  }

  /** A full four-value tuple is stored as given, and reads back as itself. */
  lemma ExpandFourRoundTrip(s: Sides)
    ensures Expand(SidesTuple(s)) == Some(s)
  {
  }

  /** The other properties of a store whose only change is property `p`. */
  lemma ReadOther(before: map<string, Value>, after: map<string, Value>, p: Property, q: Property)
    requires after - {p.name} == before - {p.name}
    requires q.name != p.name
    ensures Read(after, q) == Read(before, q)
  {
    assert q.name in after <==> q.name in after - {p.name};
    assert q.name in before <==> q.name in before - {p.name};
    if q.name in after {
      assert after[q.name] == (after - {p.name})[q.name];
      assert before[q.name] == (before - {p.name})[q.name];
    }
  }

  predicate AcceptsSides(f: Family, sides: Sides)
  {
    && Accepts(f.top.choices, sides.top) && Accepts(f.right.choices, sides.right)
    && Accepts(f.bottom.choices, sides.bottom) && Accepts(f.left.choices, sides.left)
  }

  /** The first edge, in the order top, right, bottom, left, that rejects its side. */
  function RejectedEdge(f: Family, sides: Sides): (e: nat)
    requires !AcceptsSides(f, sides)
    ensures e < 4 && !Accepts(Edges(f)[e].choices, SidesTuple(sides)[e])
    ensures forall j :: 0 <= j < e ==> Accepts(Edges(f)[j].choices, SidesTuple(sides)[j])
  {
    if !Accepts(f.top.choices, sides.top) then 0
    else if !Accepts(f.right.choices, sides.right) then 1
    else if !Accepts(f.bottom.choices, sides.bottom) then 2
    else 3
  }

  /** The `ValueError` of the first edge that rejects its side. */
  function FirstRejection(f: Family, sides: Sides): Error
    requires !AcceptsSides(f, sides)
  {
    var e := RejectedEdge(f, sides);
    InvalidValue(InvalidValueMessage(Edges(f)[e].name, QuotedText(SidesTuple(sides)[e]), Edges(f)[e].choices))
  }

  /** The store after the first `k` edges have been assigned their sides. */
  function WriteEdges(values: map<string, Value>, f: Family, sides: Sides, k: nat): map<string, Value>
    requires k <= 4
  {
    if k == 0 then values
    else WriteEdges(values, f, sides, k - 1)[Edges(f)[k - 1].name := SidesTuple(sides)[k - 1]]
  }

  /** Each of the first `k` edges already stores its side. */
  predicate EdgesStored(values: map<string, Value>, f: Family, sides: Sides, k: nat)
    requires k <= 4
  {
    forall j :: 0 <= j < k ==> StoredAs(values, Edges(f)[j], SidesTuple(sides)[j])
  }

  /** Each of the first `k` edges accepts its side. */
  predicate EdgesAccept(f: Family, sides: Sides, k: nat)
    requires k <= 4
  {
    forall j :: 0 <= j < k ==> Accepts(Edges(f)[j].choices, SidesTuple(sides)[j])
  }

  /**
    `o` is the outcome of assigning the first `k` edges in turn: it fails
    exactly when one of them rejects its side, with the first rejection;
    the edges up to the failing one (or all `k`) hold their new sides, and
    the layout is dirty unless each of those already stored its side.
  */
  predicate AssignedUpTo(s: Store, f: Family, sides: Sides, k: nat, o: Outcome)
    requires k <= 4
  {
    && (o.raised.None? <==> EdgesAccept(f, sides, k))
    && (o.raised.Some? ==>
         !AcceptsSides(f, sides) && RejectedEdge(f, sides) < k && o.raised.value == FirstRejection(f, sides))
    && var n := if o.raised.None? then k else RejectedEdge(f, sides);
       && o.after.values == WriteEdges(s.values, f, sides, n)
       && o.after.dirty == (if EdgesStored(s.values, f, sides, n) then s.dirty else Dirty)
  }

  /** Assigns edge `k` its side, unless an earlier edge has already refused. */
  function AssignEdge(s: Store, f: Family, sides: Sides, k: nat, o: Outcome): (r: Outcome)
    requires ValidFamily(f) && k < 4 && AssignedUpTo(s, f, sides, k, o)
    ensures AssignedUpTo(s, f, sides, k + 1, r)
  {
    if o.raised.Some? then
      assert !EdgesAccept(f, sides, k + 1);
      o
    else
      var r := Assign(o.after, Edges(f)[k], SidesTuple(sides)[k]);
      if r.raised.None? then
        EdgeStep(s, f, sides, k, o, r);
        r
      else
        EdgeRefused(f, sides, k);
        r
  }

  /** The edges accept their sides exactly when each of the four does, in index terms. */
  lemma AcceptsEveryEdge(f: Family, sides: Sides)
    ensures AcceptsSides(f, sides) <==> EdgesAccept(f, sides, 4)
  {
    assert Edges(f)[0] == f.top && Edges(f)[1] == f.right && Edges(f)[2] == f.bottom && Edges(f)[3] == f.left;
    assert SidesTuple(sides)[0] == sides.top && SidesTuple(sides)[1] == sides.right;
    assert SidesTuple(sides)[2] == sides.bottom && SidesTuple(sides)[3] == sides.left;
  }

  /** When the first `k` edges accept and edge `k` does not, edge `k` is the first rejection. */
  lemma EdgeRefused(f: Family, sides: Sides, k: nat)
    requires k < 4 && EdgesAccept(f, sides, k) && !Accepts(Edges(f)[k].choices, SidesTuple(sides)[k])
    ensures !AcceptsSides(f, sides) && RejectedEdge(f, sides) == k
  {
    AcceptsEveryEdge(f, sides);
    var e := RejectedEdge(f, sides);
    assert !(e < k);
  }

  /**
    Assigns the four edges in the order top, right, bottom, left, stopping at
    the first edge that rejects its side. The edges before it keep their new
    sides; the layout becomes dirty when one of the assigned edges did not
    already store its side; nothing outside the four edges changes. When
    every edge accepts, the getter returns exactly the sides given.
  */
  function AssignSides(s: Store, f: Family, sides: Sides): (r: Outcome)
    requires ValidFamily(f)
    ensures r.raised.None? <==> AcceptsSides(f, sides)
    ensures r.raised.Some? ==> r.raised.value == FirstRejection(f, sides)
    ensures var k := if r.raised.None? then 4 else RejectedEdge(f, sides);
      && r.after.values == WriteEdges(s.values, f, sides, k)
      && r.after.dirty == (if EdgesStored(s.values, f, sides, k) then s.dirty else Dirty)
    ensures r.raised.None? ==> ReadSides(r.after.values, f) == sides
    ensures r.after.values - EdgeNames(f) == s.values - EdgeNames(f)
  {
    var t := AssignEdge(s, f, sides, 0, Outcome(s, None));
    var u := AssignEdge(s, f, sides, 1, t);
    var b := AssignEdge(s, f, sides, 2, u);
    var l := AssignEdge(s, f, sides, 3, b);
    AcceptsEveryEdge(f, sides);
    WriteEdgesOutside(s.values, f, sides, if l.raised.None? then 4 else RejectedEdge(f, sides));
    WrittenSidesRead(s.values, f, sides);
    l
  }

  /** Writing edges changes nothing outside the four edges. */
  lemma {:induction false} WriteEdgesOutside(values: map<string, Value>, f: Family, sides: Sides, k: nat)
    requires k <= 4
    ensures WriteEdges(values, f, sides, k) - EdgeNames(f) == values - EdgeNames(f)
  {
    if k > 0 {
      WriteEdgesOutside(values, f, sides, k - 1);
      var w := WriteEdges(values, f, sides, k - 1);
      assert Edges(f)[k - 1].name in EdgeNames(f);
      assert w[Edges(f)[k - 1].name := SidesTuple(sides)[k - 1]] - EdgeNames(f) == w - EdgeNames(f);
    }
  }

  /** Each of the first `k` edges holds its side once they are written. */
  lemma {:induction false} WriteEdgesAt(values: map<string, Value>, f: Family, sides: Sides, k: nat, e: nat)
    requires ValidFamily(f) && e < k <= 4
    ensures StoredAs(WriteEdges(values, f, sides, k), Edges(f)[e], SidesTuple(sides)[e])
  {
    if e < k - 1 {
      WriteEdgesAt(values, f, sides, k - 1, e);
      assert Edges(f)[k - 1].name != Edges(f)[e].name;
    }
  }

  /** Once all four edges are written, the getter reads the sides written. */
  lemma WrittenSidesRead(values: map<string, Value>, f: Family, sides: Sides)
    requires ValidFamily(f)
    ensures ReadSides(WriteEdges(values, f, sides, 4), f) == sides
  {
    WriteEdgesAt(values, f, sides, 4, 0);
    WriteEdgesAt(values, f, sides, 4, 1);
    WriteEdgesAt(values, f, sides, 4, 2);
    WriteEdgesAt(values, f, sides, 4, 3);
    StoredSidesRead(WriteEdges(values, f, sides, 4), f, sides);
  }

  /** Writing the first `k` edges leaves every later edge as it was. */
  lemma {:induction false} WriteEdgesOther(values: map<string, Value>, f: Family, sides: Sides, k: nat, e: nat)
    requires ValidFamily(f) && k <= e < 4
    ensures (Edges(f)[e].name in WriteEdges(values, f, sides, k)) == (Edges(f)[e].name in values)
    ensures Edges(f)[e].name in values ==>
      WriteEdges(values, f, sides, k)[Edges(f)[e].name] == values[Edges(f)[e].name]
  {
    if k > 0 {
      WriteEdgesOther(values, f, sides, k - 1, e);
      assert Edges(f)[k - 1].name != Edges(f)[e].name;
    }
  }

  /** Assigning edge `k` after the first `k` extends both `WriteEdges` and `EdgesStored` by one edge. */
  lemma EdgeStep(s: Store, f: Family, sides: Sides, k: nat, o: Outcome, n: Outcome)
    requires ValidFamily(f) && k < 4
    requires o.after.values == WriteEdges(s.values, f, sides, k)
    requires o.after.dirty == (if EdgesStored(s.values, f, sides, k) then s.dirty else Dirty)
    requires n == Assign(o.after, Edges(f)[k], SidesTuple(sides)[k]) && n.raised.None?
    ensures n.after.values == WriteEdges(s.values, f, sides, k + 1)
    ensures n.after.dirty == (if EdgesStored(s.values, f, sides, k + 1) then s.dirty else Dirty)
  {
    WriteEdgesOther(s.values, f, sides, k, k);
    assert StoredAs(o.after.values, Edges(f)[k], SidesTuple(sides)[k]) <==>
      StoredAs(s.values, Edges(f)[k], SidesTuple(sides)[k]);
    assert EdgesStored(s.values, f, sides, k + 1) <==>
      EdgesStored(s.values, f, sides, k) && StoredAs(s.values, Edges(f)[k], SidesTuple(sides)[k]);
  }

  /** When every edge already stores its side, the shorthand reads those sides. */
  lemma StoredSidesRead(values: map<string, Value>, f: Family, sides: Sides)
    requires EdgesStored(values, f, sides, 4)
    ensures ReadSides(values, f) == sides
  {
    assert StoredAs(values, Edges(f)[0], SidesTuple(sides)[0]) && StoredAs(values, Edges(f)[1], SidesTuple(sides)[1]);
    assert StoredAs(values, Edges(f)[2], SidesTuple(sides)[2]) && StoredAs(values, Edges(f)[3], SidesTuple(sides)[3]);
  }

  /** A change confined to one edge leaves the store unchanged outside the edges. */
  lemma SameOutsideEdges(before: map<string, Value>, after: map<string, Value>, f: Family, p: Property)
    requires after - {p.name} == before - {p.name}
    requires p.name in EdgeNames(f)
    ensures after - EdgeNames(f) == before - EdgeNames(f)
  {
    assert after - EdgeNames(f) == (after - {p.name}) - EdgeNames(f);
    assert before - EdgeNames(f) == (before - {p.name}) - EdgeNames(f);
  }

  /** The values an assigned shorthand stands for: a tuple's items, or one scalar value. */
  function ShorthandValues(a: Arg): seq<Value>
  {
    match a
    case Scalar(v) => [v]
    case Tuple(vs) => vs
  }

  /**
    The shorthand's setter. A tuple of a length other than one to four raises
    a `ValueError` and changes nothing; otherwise the expanded sides are
    assigned to the edges.
  */
  function AssignShorthand(s: Store, f: Family, a: Arg): (r: Outcome)
    requires ValidFamily(f)
    ensures Expand(ShorthandValues(a)).None? ==>
      r == Outcome(s, Some(InvalidArity(f.name, |ShorthandValues(a)|)))
    ensures Expand(ShorthandValues(a)).Some? ==>
      r == AssignSides(s, f, Expand(ShorthandValues(a)).value)
  {
    match Expand(ShorthandValues(a))
    case None => Outcome(s, Some(InvalidArity(f.name, |ShorthandValues(a)|)))
    case Some(sides) => AssignSides(s, f, sides)
  }

  /**
    The shorthand's deleter: all four edges are deleted, so the getter returns
    the four defaults; the layout becomes dirty when any edge had been stored.
  */
  function RemoveSides(s: Store, f: Family): (r: Store)
    requires ValidFamily(f)
    ensures ReadSides(r.values, f) == Sides(f.top.default, f.right.default, f.bottom.default, f.left.default)
    ensures forall e :: e in EdgeNames(f) ==> e !in r.values
    ensures r.dirty == (if exists e :: e in EdgeNames(f) && e in s.values then Dirty else s.dirty)
    ensures r.values - EdgeNames(f) == s.values - EdgeNames(f)
  {
    var t := Remove(s, f.top);
    var u := Remove(t, f.right);
    var b := Remove(u, f.bottom);
    var l := Remove(b, f.left);
    assert Edges(f)[0] == f.top && Edges(f)[1] == f.right && Edges(f)[2] == f.bottom && Edges(f)[3] == f.left;
    SameOutsideEdges(s.values, t.values, f, f.top);
    SameOutsideEdges(t.values, u.values, f, f.right);
    SameOutsideEdges(u.values, b.values, f, f.bottom);
    SameOutsideEdges(b.values, l.values, f, f.left);
    assert f.right.name in t.values <==> f.right.name in s.values;
    assert f.bottom.name in u.values <==> f.bottom.name in s.values;
    assert f.left.name in b.values <==> f.left.name in s.values;
    assert (exists e :: e in EdgeNames(f) && e in s.values) <==>
      f.top.name in s.values || f.right.name in s.values || f.bottom.name in s.values || f.left.name in s.values;
    l
  }

  // The fill law and the independence of the edges.

  /** A scalar and the one-tuple holding it are the same assignment. */
  lemma ScalarIsOneTuple(s: Store, f: Family, v: Value)
    requires ValidFamily(f)
    ensures AssignShorthand(s, f, Scalar(v)) == AssignShorthand(s, f, Tuple([v]))
  {
  }

  /**
    A shorthand of one to four valid values reads back as its fill-rule
    expansion, and every edge getter agrees with its component of the tuple.
  */
  lemma ShorthandReadsBack(s: Store, f: Family, vs: seq<Value>)
    requires ValidFamily(f) && 1 <= |vs| <= 4
    requires AcceptsSides(f, Expand(vs).value)
    ensures var r := AssignShorthand(s, f, Tuple(vs));
      && r.raised.None?
      && ReadSides(r.after.values, f) == Expand(vs).value
      && forall i :: 0 <= i < 4 ==> Read(r.after.values, Edges(f)[i]) == SidesTuple(Expand(vs).value)[i]
  {
  }

  /** An empty tuple or one of five or more values is refused with a `ValueError`, changing nothing. */
  lemma BadArityRefused(s: Store, f: Family, vs: seq<Value>)
    requires ValidFamily(f) && (|vs| == 0 || |vs| > 4)
    ensures var r := AssignShorthand(s, f, Tuple(vs));
      r.after == s && r.raised.Some? && IsValueError(r.raised.value)
  {
  }

  /** Component `j` of the shorthand's tuple is the getter of edge `j`. */
  lemma SidesTupleAt(values: map<string, Value>, f: Family, j: nat)
    requires j < 4
    ensures SidesTuple(ReadSides(values, f))[j] == Read(values, Edges(f)[j])
  {
  }

  /** Assigning one edge moves only that component of the shorthand's tuple. */
  lemma AssignEdgeIndependent(s: Store, f: Family, i: nat, v: Value)
    requires ValidFamily(f) && i < 4
    requires Accepts(Edges(f)[i].choices, v)
    ensures SidesTuple(ReadSides(Assign(s, Edges(f)[i], v).after.values, f))
      == SidesTuple(ReadSides(s.values, f))[i := v]
  {
    var after := Assign(s, Edges(f)[i], v).after.values;
    var lhs, rhs := SidesTuple(ReadSides(after, f)), SidesTuple(ReadSides(s.values, f))[i := v];
    forall j | 0 <= j < 4
      ensures lhs[j] == rhs[j]
    {
      SidesTupleAt(after, f, j);
      SidesTupleAt(s.values, f, j);
      if j != i {
        ReadOther(s.values, after, Edges(f)[i], Edges(f)[j]);
      }
    }
  }

  /** Deleting one edge reverts only that component of the shorthand's tuple to its default. */
  lemma RemoveEdgeIndependent(s: Store, f: Family, i: nat)
    requires ValidFamily(f) && i < 4
    ensures SidesTuple(ReadSides(Remove(s, Edges(f)[i]).values, f))
      == SidesTuple(ReadSides(s.values, f))[i := Edges(f)[i].default]
  {
    var after := Remove(s, Edges(f)[i]).values;
    var lhs, rhs := SidesTuple(ReadSides(after, f)), SidesTuple(ReadSides(s.values, f))[i := Edges(f)[i].default];
    forall j | 0 <= j < 4
      ensures lhs[j] == rhs[j]
    {
      SidesTupleAt(after, f, j);
      SidesTupleAt(s.values, f, j);
      if j != i {
        ReadOther(s.values, after, Edges(f)[i], Edges(f)[j]);
      }
    }
  }
}
