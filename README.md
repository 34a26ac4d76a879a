# colosseum style declarations, modelled in Dafny

colosseum is a CSS layout engine. Each node has a style declaration, the `CSS` object of
`colosseum.declaration`. Its attributes are validated properties. Reading an attribute gives
the value stored for it, or the property's default when nothing is stored. Assigning a value
checks it against the property's domain, a `Choices`: a set of literal values plus three
flags that admit integers, lengths and percentages. A value outside the domain raises a
`ValueError` whose text names the value, the property and the domain's description. Assigning
a value marks the node's layout dirty unless that same value is already stored under the
property's name; assigning the default to a property that stores nothing stores it and marks
the layout dirty. Deleting restores the default, and marks the layout dirty only if a
value was stored.

The `margin` shorthand reads and writes the four edge properties `margin_top`,
`margin_right`, `margin_bottom` and `margin_left`. A tuple of 1 to 4 values is spread over the
edges by the usual CSS rule: top, right = top, bottom = top, left = right. A scalar counts as a
1-tuple. Any other length raises a `ValueError`. `set(**styles)` assigns several properties at
once; a `None` value deletes that property. If any name is not a property, `set` raises
`NameError` before assigning anything. `str()` of a declaration lists the stored properties
as `name: value` pairs. Names are dash-cased and sorted, bare integers are written as pixels,
and the pairs are joined with `; `.

The model follows colosseum's declaration tests:

- **Module layers.**
  - Modules `Strings` and `Values` hold the text helpers and the value universe.
  - `Domain` holds `Choices`, membership and `describe()`.
  - `Declaration` holds one validated property's getter, setter and deleter, as functions on a `Store`: the stored map plus the dirty flag.
  - `Directional` holds the margin shorthand.
  - `Css` holds the property registry, attribute access by name, bulk `set`, rendering, and the class `CSS` that applies these operations in place.
- **Scenarios.** The tests of `Choices` on their own (test_declaration.py:12-154) are lemmas in `Domain`. The tests of the scalar, choice, directional and bulk properties are methods of module `Scenarios` that run the test's steps on a `CSS` object, with the test's own assertions proved between the steps. The rendering test is stated twice: as lemmas on a `Store` (`StyledBulk`, `StyledRender`) and as a method on a `CSS` object (`StrScenario`). `test_engine` is left out.
- **Bare integers under `length=True`.** A length domain accepts a bare integer, as test_declaration.py:45 requires, and describes itself only as `<length>`.

## Model

| member | source | states |
|---|---|---|
| Domain.FlagItems | tests/test_declaration.py:135-154 | The description lists `<integer>`, `<length>` and `<percentage>` exactly when the corresponding flag is set |
| Domain.DescriptionShape | tests/test_declaration.py:135-154 | A description is the flag items in fixed order followed by the texts of the distinct literals, sorted and with nothing lost or added |
| Domain.AcceptedValueIsDescribed | tests/test_declaration.py:135-154 | Every value a domain accepts is covered by an item of its description: its own literal text or the flag that admits it |
| Domain.LiteralsAreDescribed | tests/test_declaration.py:112-133 | Each literal of a domain appears in its description |
| Domain.DescribeIgnoresLiteralOrder | tests/test_declaration.py:135-154 | Two domains with the same flags and the same literals, in any order and with any repeats, describe themselves identically |
| Domain.NoChoicesScenario | tests/test_declaration.py:13-37 | An empty domain accepts nothing; the message for 'invalid' on 'prop' ends in an empty description |
| Domain.LengthScenario | tests/test_declaration.py:39-60 | `length=True` accepts integers, lengths and percentages and nothing else; it describes itself as `<length>` |
| Domain.PercentageScenario | tests/test_declaration.py:62-85 | `percentage=True` accepts exactly percentages; it describes itself as `<percentage>` |
| Domain.IntegerScenario | tests/test_declaration.py:87-110 | `integer=True` accepts exactly integers; it describes itself as `<integer>` |
| Domain.LiteralScenario | tests/test_declaration.py:112-126 | `Choices('a', 'b', None)` accepts exactly 'a', 'b' and None |
| Domain.LiteralDescription | tests/test_declaration.py:128-133 | The literals 'a', 'b', None with no flags describe themselves as `a, b, none` |
| Domain.FullScenario | tests/test_declaration.py:135-147 | The full domain accepts 10, 20px, 30%, 'a' and 'b' and refuses 'invalid' |
| Domain.FullDescription | tests/test_declaration.py:149-154 | The full domain describes itself as `<integer>, <length>, <percentage>, a, b, none` |
| Domain.PropMessage | tests/test_declaration.py:32-37 | The `ValueError` text for the value 'invalid' (its repr quoted) on property 'prop' is `Invalid value 'invalid' for CSS property 'prop'; Valid values are: ` followed by the description |
| Domain.Accepts | tests/test_declaration.py:13-154 | The empty domain accepts nothing; a literal of the domain is always accepted; a string, keyword or None is accepted exactly when it is a literal; a length exactly when it is a literal or the domain admits lengths |
| Domain.Describe | tests/test_declaration.py:37-154 | The empty domain describes itself as the empty text; an integer domain's description starts with `<integer>`, and a length domain without the integer flag starts with `<length>` |
| Domain.InvalidValueMessage | tests/test_declaration.py:32-37 | The message starts `Invalid value <repr> for CSS property '<name>` and ends with the domain's description |
| Domain.RepeatedLiteralScenario | tests/test_declaration.py:128-133 | A literal given twice is listed once in the description, as collecting the literals into a set does |
| Strings.Distinct | tests/test_declaration.py:128-154 | Collecting into a set keeps each element of the input exactly once and adds nothing |
| Strings.DistinctPermutes | tests/test_declaration.py:128-154 | Two lists with the same elements, in any order and with any repeats, collect into the same set |
| Values.CssText | tests/test_declaration.py:485-490 | An integer is written as digits with a `px` suffix, with a leading minus exactly when it is negative; any other value except None is written as its own text |
| Values.CssTextIntInjective | tests/test_declaration.py:485-490 | Distinct integers render as distinct pixel texts |
| Values.NatTextRoundTrip | tests/test_declaration.py:485-490 | Reading the decimal digits an integer is written with gives back the integer |
| Values.IntTextInjective | tests/test_declaration.py:485-490 | Distinct integers are written as distinct texts, so rendered pixel values tell the integers apart |
| Declaration.Read | tests/test_declaration.py:166-167 | The getter returns the default or the value stored under the property's name; when the default and the stored value lie in the domain, so does what the getter returns |
| Declaration.Assign | tests/test_declaration.py:170-189 | The setter raises exactly when the value is outside the domain; the error is the exact message and changes nothing; otherwise the value is stored, the getter returns it, and the layout becomes dirty unless that same value was already stored; no other property changes |
| Declaration.Remove | tests/test_declaration.py:194-207 | After the deleter the getter returns the default; the layout becomes dirty exactly when a value was stored; no other property changes |
| Declaration.AssignStoredIsNoOp | tests/test_declaration.py:179-183 | Assigning the value already stored leaves state and dirty flag untouched |
| Declaration.AssignDefaultToUnset | tests/test_declaration.py:162-207 | Assigning its default to a property that stores nothing stores the default and marks the layout dirty, although the getter returns the same value before and after |
| Declaration.AssignIdempotent | tests/test_declaration.py:179-183 | A second identical assignment changes nothing and raises what the first raised |
| Declaration.AssignOverwrites | tests/test_declaration.py:185-189 | Of two accepted assignments the second wins, and other properties are untouched |
| Declaration.AssignThenRemove | tests/test_declaration.py:191-196 | Assigning then deleting leaves the default and the other properties exactly as before |
| Declaration.AssignThenRemoveIsDirty | tests/test_declaration.py:185-196 | An accepted assignment followed by a delete always leaves the layout dirty |
| Declaration.RemoveIdempotent | tests/test_declaration.py:198-207 | Deleting twice is the same as deleting once; the second delete leaves the dirty flag alone |
| Declaration.AssignKeepsDomain | tests/test_declaration.py:291-293 | Assignments and deletes keep every stored value of a property inside its domain |
| Directional.Expand | tests/test_declaration.py:348-408 | A tuple of 1 to 4 values expands to four sides: top is the first, right defaults to top, bottom to top, left to right; any other length gives none |
| Directional.ExpandKeepsGiven | tests/test_declaration.py:348-408 | Expansion keeps each given value at its own position |
| Directional.ExpandFourRoundTrip | tests/test_declaration.py:400-408 | Expanding the 4-tuple of a set of sides gives back those sides |
| Directional.AssignEdge | tests/test_declaration.py:348-408 | One edge setter in the row of four: if the edges before it were all written, it writes its own side or raises that edge's error; once an edge has raised, the rest are skipped |
| Directional.AssignSides | tests/test_declaration.py:348-408 | Assigning four sides succeeds exactly when every edge accepts its value; failure gives the first refusing edge's error; the store then holds the sides of the edges before it, and on success all four, each read back; the layout becomes dirty unless every written edge already stored its side; nothing outside the edges changes |
| Directional.AssignShorthand | tests/test_declaration.py:348-415 | Setting the shorthand raises an arity error and changes nothing when the tuple cannot be expanded; otherwise it assigns the expanded sides |
| Directional.ScalarIsOneTuple | tests/test_declaration.py:361-369 | Assigning a scalar to the shorthand is assigning a 1-tuple |
| Directional.ShorthandReadsBack | tests/test_declaration.py:348-408 | After setting the shorthand with 1 to 4 accepted values, the shorthand and each edge read back the expanded values |
| Directional.BadArityRefused | tests/test_declaration.py:410-415 | A shorthand tuple of length 0 or more than 4 raises a `ValueError` and changes nothing |
| Directional.AssignEdgeIndependent | tests/test_declaration.py:335-343 | Assigning one edge changes that edge of the shorthand's tuple and no other |
| Directional.RemoveEdgeIndependent | tests/test_declaration.py:420-428 | Deleting one edge restores that edge's default in the shorthand's tuple and changes no other |
| Directional.RemoveSides | tests/test_declaration.py:436-444 | Deleting the shorthand restores every edge's default; the layout becomes dirty exactly when an edge was stored; nothing else changes |
| Css.PlainNamed | tests/test_declaration.py:162-490 | The registry finds a property only under that property's own name |
| Css.Lookup | tests/test_declaration.py:446-472 | A name is an attribute exactly when it is the shorthand or a registered property, and resolves to that entry |
| Css.FirstUnknown | tests/test_declaration.py:468-472 | No unknown name is found exactly when every name is known; a found name is unknown and is the first one in the call |
| Css.BulkSet | tests/test_declaration.py:446-472 | `set` raises `NameError` exactly when some name is not an attribute, and then changes nothing |
| Css.BulkSetCases | tests/test_declaration.py:446-472 | `set` with an unknown name raises for the first such name and changes nothing; otherwise it applies the items in order |
| Css.GetAttr | tests/test_declaration.py:166-167 | Reading an attribute succeeds exactly for a known name; a property reads as its default or its stored value, inside its domain in a valid store; `margin` reads as the tuple of its four edges |
| Css.SetAttr | tests/test_declaration.py:170-189 | Assigning an unknown name raises `NameError` and changes nothing; a tuple is refused by every property; a refused property assignment changes nothing; the dirty flag is only ever set |
| Css.DelAttr | tests/test_declaration.py:194-207 | Deleting fails only for an unknown name, and then changes nothing; afterwards a property reads as its default; the dirty flag is only ever set |
| Css.BulkItem | tests/test_declaration.py:457-463 | A None argument deletes, and fails exactly for an unknown name; an unknown name always raises `NameError` |
| Css.ApplyAll | tests/test_declaration.py:446-472 | When applying the items raises nothing, every name was an attribute; the dirty flag is only ever set |
| Css.ApplyAllNoNameError | tests/test_declaration.py:450-463 | When every name is known, applying the items can only raise a `ValueError` |
| Css.ApplyAllStops | tests/test_declaration.py:446-472 | Once an item raises, the remaining items are not applied |
| Css.SetAttrKeepsValid | tests/test_declaration.py:291-293 | Attribute assignment keeps every stored value in its property's domain |
| Css.DelAttrKeepsValid | tests/test_declaration.py:318-321 | Attribute deletion keeps every stored value in its property's domain |
| Css.BulkSetKeepsValid | tests/test_declaration.py:446-472 | Bulk assignment keeps every stored value in its property's domain |
| Css.SetAttrReadsBack | tests/test_declaration.py:170-173 | After an accepted assignment by name, the attribute reads back the value |
| Css.SetShorthandReadsBack | tests/test_declaration.py:348-408 | After an accepted shorthand assignment, `margin` reads back the expanded 4-tuple |
| Css.EmptyReadsDefaults | tests/test_declaration.py:327-332 | An empty declaration reads width, height and top as AUTO, min_width as 0, max_width as None, display as INLINE and margin as (0, 0, 0, 0) |
| Css.MarginGetters | tests/test_declaration.py:327-332 | `margin` reads the four edges as a tuple, and each edge reads its side |
| Css.StoredItems | tests/test_declaration.py:474-490 | The collected items are exactly the stored properties, each with its dashed name and CSS text |
| Css.DashCaseInjective | tests/test_declaration.py:485-490 | Dash-casing never maps two distinct property names to the same name |
| Css.Render | tests/test_declaration.py:474-490 | The rendering is empty exactly when no property is stored |
| Css.RenderedItemsShape | tests/test_declaration.py:485-490 | The rendered items are sorted by name and are exactly the stored properties |
| Css.RenderIgnoresOrder | tests/test_declaration.py:485-490 | Sorting the stored items in any order of collection gives the same rendering |
| Css.CSS.constructor | tests/test_declaration.py:163-168 | A new declaration stores nothing, has no dirty flag set yet, and is valid |
| Css.CSS.Get | tests/test_declaration.py:283-297 | In a valid declaration every property reads as a value of its domain |
| Css.CSS.SetProperty | tests/test_declaration.py:170-189 | The in-place setter produces the state and error `Declaration.Assign` specifies |
| Css.CSS.DeleteProperty | tests/test_declaration.py:194-207 | The in-place deleter produces the state `Declaration.Remove` specifies |
| Css.CSS.SetSides | tests/test_declaration.py:348-408 | Assigning the edges one after another produces what `Directional.AssignSides` specifies |
| Css.CSS.Set | tests/test_declaration.py:170-189 | `setattr` by name produces the state and error `Css.SetAttr` specifies, and keeps the declaration valid |
| Css.CSS.Delete | tests/test_declaration.py:194-207 | `delattr` by name produces the state `Css.DelAttr` specifies, and keeps the declaration valid |
| Css.CSS.FindUnknown | tests/test_declaration.py:468-472 | The scan returns the first name that is not an attribute |
| Css.CSS.SetOrDelete | tests/test_declaration.py:457-463 | One keyword argument of `set`: None deletes, anything else assigns; the declaration stays valid |
| Css.CSS.SetMany | tests/test_declaration.py:446-472 | `set(**styles)` produces the state and error `Css.BulkSet` specifies, and keeps the declaration valid |
| Css.CSS.ToText | tests/test_declaration.py:485-490 | Collecting and sorting the stored properties produces `Css.Render` of the stored values |
| Strings.InsertByPermutes | tests/test_declaration.py:485-490 | Inserting into a sorted list adds exactly that element |
| Strings.SortByPermutes | tests/test_declaration.py:485-490 | Sorting is a permutation of its input |
| Strings.SortBy | tests/test_declaration.py:485-490 | Sorting by key yields a list sorted by key with the input's length |
| Strings.SortedByUnique | tests/test_declaration.py:485-490 | Two sorted permutations of a list with distinct keys are equal |
| Strings.LessEqTotal | tests/test_declaration.py:485-490 | The name order is total |
| Strings.LessEqTransitive | tests/test_declaration.py:485-490 | The name order is transitive |
| Strings.LessEqAntisymmetric | tests/test_declaration.py:485-490 | The name order is antisymmetric |
| Strings.DashCase | tests/test_declaration.py:485-490 | Dash-casing replaces each underscore by a dash and keeps every other character |
| Scenarios.AutoDefaultScenario | tests/test_declaration.py:162-207 | The width sequence: AUTO default, set, same-value set without dirtying, change, delete, and a no-op second delete |
| Scenarios.ZeroDefaultScenario | tests/test_declaration.py:209-244 | The same sequence for min_width, defaulting to 0 |
| Scenarios.NoneDefaultScenario | tests/test_declaration.py:246-281 | The same sequence for max_width, defaulting to None |
| Scenarios.DisplayChoices | tests/test_declaration.py:291-297 | display accepts BLOCK and TABLE and refuses 10 |
| Scenarios.ChoicesScenario | tests/test_declaration.py:283-321 | The display sequence: INLINE default, 10 refused, BLOCK, BLOCK again without dirtying, TABLE, delete |
| Scenarios.DirectionalScenario | tests/test_declaration.py:323-444 | The margin sequence: per-edge assignment, 1- to 4-tuples and a scalar, both bad arities refused, edge delete, shorthand delete |
| Scenarios.SetMultipleScenario | tests/test_declaration.py:446-472 | `set(width=10, height=20)`, then `set(width=None, top=30)`, then a `NameError` that leaves the layout clean |
| Scenarios.StyledBulk | tests/test_declaration.py:478-483 | The bulk assignment of the rendering test stores width, height, display and the four margin edges |
| Scenarios.StyledRender | tests/test_declaration.py:485-490 | The styled declaration renders as `display: block; height: 20px; margin-bottom: 50px; margin-left: 60px; margin-right: 40px; margin-top: 30px; width: 10px` |
| Scenarios.StrScenario | tests/test_declaration.py:474-490 | The rendering test end to end on a `CSS` object gives that exact string |

## Left out

- `engine()` (tests/test_declaration.py:158-160) returns a module object; there is nothing to model.
- The test node, the `Box` and the node's layout object are not modelled. The layout's dirty flag is a field of the `CSS` class, and `node.layout.dirty = False` becomes `SetDirty(Clean)`.
- Units are not modelled. A length such as `20 * px` and a percentage such as `30 * percent` are opaque values carrying their text. No unit arithmetic or conversion is modelled.
- The descriptor machinery and `hasattr` are replaced by a registry (`Css.Lookup`). Setting or deleting an unregistered name directly reports `UnknownProperty` rather than creating or failing on a Python attribute.
- `colosseum/declaration.py` and `colosseum/constants.py` are not part of this model. The registry's domains, defaults and display keywords follow CSS 2.1 as far as the tests pin them down. Only the ten properties and the one shorthand the tests use are registered.
- Python's `repr()` is modelled for the values the tests use: strings and keywords are quoted with single quotes, and there is no escaping of quotes inside them.
- Declaration keywords such as AUTO and BLOCK are kept distinct from strings with the same text. Python's `is` comparisons of the tests then become equalities of values.
- Integer values are stored as integers and written with a `px` suffix only when rendered.
- Directional.BadArityRefused: the text of the shorthand's arity `ValueError` is not given by the tests, so the error records the property and the count, not a message.
- Css.BulkSet: the items are applied in call order, and the first error stops the rest. Keyword-argument order is insertion order in Python, so this matches the call.
- Domain.FullDescription and Scenarios.StyledRender: the expected texts are stated as concatenations of adjacent literal pieces, which are the same strings as the tests' literals.
