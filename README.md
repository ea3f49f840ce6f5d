# Trapezoidal fuzzy membership function

This project models `TrapezoidClassification`, a fuzzy-logic membership function shaped like a trapezoid. It is written in Dafny and its properties are proved.

An object holds a linguistic term (its label) and four optional corners: `lowerLimit`, `lowerSupportLimit`, `upperSupportLimit` and `upperLimit`. An absent outer limit makes the function open on that side. A left-open function has degree 1 at or below `upperSupportLimit`, and a right-open function has degree 1 at or above `lowerSupportLimit`. The support limit on the open side is never read.

The model has two files:

- `wrappers.dfy` (module `Wrappers`) holds `Option`, `Result` and `Outcome`. They stand for Java's null references and its thrown exceptions.
- `fuzzy.dfy` (module `Fuzzy`) holds the class `TrapezoidClassification` and the lemmas about it.

The Java fields are `final`, so they are `const` fields in Dafny. The name-to-corner table is not final, and the constructor fills it in place. It is a `var` map that `CreateFieldMap` fills one entry at a time. The Java constructor throws `IllegalArgumentException` through Guava's `checkArgument`. In the model:

- `CheckArguments` states which configurations fail, and with which message.
- `Create` returns either that failure or a new object.
- The Dafny constructor only stores the arguments and derives the openness flags, for arguments that passed the checks.

`GetLinguisticTerm` returns the label and `GetType` returns the single tag `Trapezoid`. Both are plain accessors. `Create`'s contract states what they return for a new object.

Numbers are mathematical reals. Two proofs matter most:

- Every corner that the region tests dereference is present. Dafny checks each `.value` read against the constructor's checks.
- Every division is by a strictly positive edge width. `GetDifference` requires it, and Dafny checks it at both call sites.

Corner order is never assumed. The degree lies in [0, 1] for every configured object and every value. When every present edge rises or falls strictly and a closed plateau is non-empty (`Ordered`), the degree equals the textbook trapezoid max(0, min(1, rise, fall)). Corners that are ordered but have a vertical edge, such as the closed corners (0, 0, 8, 10), are outside that lemma.

Three facts about the code are easy to misread:

- The checks at lines 32-33 go from the outer limit to the support limit. A present `lowerLimit` needs a `lowerSupportLimit`, and a present `upperLimit` needs an `upperSupportLimit`. So a left-open function may omit `lowerSupportLimit`, and a right-open one may omit `upperSupportLimit`.
- The boundary message at line 17 begins with a capital "The".
- The plateau never overlaps an edge, whatever the corner order (`IsOne`). When both edges are strict and a closed plateau is non-empty (`Ordered`), the two edges do not overlap either (`OrderedRegionsDisjoint`). When a closed plateau is empty, a value can lie on both edges even if each edge is strict, and the rising edge wins (`UnorderedEdgesOverlap`).

## Model

| member | source | states |
|---|---|---|
| `Fuzzy.CheckArguments` | src/main/java/ch/unibnf/sfdwh/tscf/fuzzy/TrapezoidClassification.java:32-49 | Construction fails exactly when a lower limit lacks its lower support limit, or an upper limit lacks its upper support limit, or both outer limits are absent. The message is the boundary message in the last case and the closed-function message otherwise. |
| `Fuzzy.TrapezoidClassification.Create` | src/main/java/ch/unibnf/sfdwh/tscf/fuzzy/TrapezoidClassification.java:27-52 | Fails exactly when the checks fail, with their message. Otherwise it returns a fresh valid object holding exactly the given label and corners, whose type is `Trapezoid`. |
| `Fuzzy.TrapezoidClassification.constructor` | src/main/java/ch/unibnf/sfdwh/tscf/fuzzy/TrapezoidClassification.java:35-51 | Stores the arguments unchanged and sets `leftOpen`, `rightOpen` and `isClosed` from which outer limits are absent. The field table is consistent afterwards. |
| `Fuzzy.TrapezoidClassification.CreateFieldMap` | src/main/java/ch/unibnf/sfdwh/tscf/fuzzy/TrapezoidClassification.java:109-115 | Afterwards the table maps each of the four field names to its corner, absent ones included. |
| `Fuzzy.ReadCornersPresent` | src/main/java/ch/unibnf/sfdwh/tscf/fuzzy/TrapezoidClassification.java:43-51 | `leftOpen` holds iff `lowerLimit` is absent, and `rightOpen` iff `upperLimit` is absent. `isClosed` holds iff neither does, and both never hold together. Both corners of every edge that a region test reads are present. |
| `Fuzzy.TrapezoidClassification.IsOne` | src/main/java/ch/unibnf/sfdwh/tscf/fuzzy/TrapezoidClassification.java:138-143 | A value on the plateau is on neither edge, whatever the corner order. |
| `Fuzzy.TrapezoidClassification.IsRising` | src/main/java/ch/unibnf/sfdwh/tscf/fuzzy/TrapezoidClassification.java:148-152 | A value on the rising edge implies that both lower corners are present and the lower limit lies strictly below the lower support limit, so the edge width is positive. |
| `Fuzzy.TrapezoidClassification.IsFalling` | src/main/java/ch/unibnf/sfdwh/tscf/fuzzy/TrapezoidClassification.java:126-130 | A value on the falling edge implies that both upper corners are present and the upper support limit lies strictly below the upper limit, so the edge width is positive. |
| `Fuzzy.TrapezoidClassification.GetLinguisticTerm` | src/main/java/ch/unibnf/sfdwh/tscf/fuzzy/TrapezoidClassification.java:100-102 | A plain accessor with no contract of its own. `Create`'s ensures states that it returns the label given at construction. |
| `Fuzzy.TrapezoidClassification.GetType` | src/main/java/ch/unibnf/sfdwh/tscf/fuzzy/TrapezoidClassification.java:105-107 | A plain accessor with no contract of its own. `Create`'s ensures states that it returns the tag `Trapezoid`. |
| `Fuzzy.TrapezoidClassification.GetDifference` | src/main/java/ch/unibnf/sfdwh/tscf/fuzzy/TrapezoidClassification.java:117-121 | The divisor is positive. The result times the edge width is the distance from the edge's start, or from its end on a falling edge. Strictly inside the edge the result lies strictly between 0 and 1. |
| `Fuzzy.TrapezoidClassification.GetClassification` | src/main/java/ch/unibnf/sfdwh/tscf/fuzzy/TrapezoidClassification.java:63-75 | The degree lies in [0, 1]. It is 1 exactly on the plateau. It is 0 exactly when the value is on no plateau and no edge. |
| `Fuzzy.PlateauTakesPrecedence` | src/main/java/ch/unibnf/sfdwh/tscf/fuzzy/TrapezoidClassification.java:138-143 | The degree is 1 in three cases: left-open at or below the upper support limit, right-open at or above the lower support limit, and closed between the two support limits. |
| `Fuzzy.EdgeFormulas` | src/main/java/ch/unibnf/sfdwh/tscf/fuzzy/TrapezoidClassification.java:66-74 | Off the plateau, the rising edge gives (v - lowerLimit) / (lowerSupportLimit - lowerLimit). Otherwise the falling edge gives 1 - (v - upperSupportLimit) / (upperLimit - upperSupportLimit). Each divisor is positive and each degree is strictly between 0 and 1. Off all regions the degree is 0. |
| `Fuzzy.OrderedRegionsDisjoint` | src/main/java/ch/unibnf/sfdwh/tscf/fuzzy/TrapezoidClassification.java:123-152 | With strictly ordered edges and a non-empty closed plateau, no value is in two of the plateau, the rising edge and the falling edge. |
| `Fuzzy.MatchesTextbookTrapezoid` | src/main/java/ch/unibnf/sfdwh/tscf/fuzzy/TrapezoidClassification.java:64-75 | With strictly ordered edges and a non-empty closed plateau, the degree equals max(0, min(1, rise, fall)). An open side contributes 1. |
| `Fuzzy.ClosedTrapezoidExample` | src/main/java/ch/unibnf/sfdwh/tscf/fuzzy/TrapezoidClassification.java:64-75 | For the closed corners (0, 2, 8, 10), the degree is 1 at 2, 5 and 8, 0.5 at 1 and 9, and 0 at -1 and 11. |
| `Fuzzy.LeftOpenExample` | src/main/java/ch/unibnf/sfdwh/tscf/fuzzy/TrapezoidClassification.java:138-143 | For the corners (absent, 5, 8, 10), the degree is 1 at 3 and at -100, 0.5 at 9, and 0 at 10. |
| `Fuzzy.UnorderedEdgesOverlap` | src/main/java/ch/unibnf/sfdwh/tscf/fuzzy/TrapezoidClassification.java:68-71 | For the closed corners (0, 10, 2, 5), both edges are strict but the plateau is empty, so the corners are not `Ordered`. The value 3 is on both edges but not on the plateau. The rising edge wins and the degree is 0.3. |
| `Fuzzy.TrapezoidClassification.GetClassifications` | src/main/java/ch/unibnf/sfdwh/tscf/fuzzy/TrapezoidClassification.java:77-84 | The result has exactly the input's keys. Each entry is the degree of the input value under the same key. |
| `Fuzzy.TrapezoidClassification.GetAverage` | src/main/java/ch/unibnf/sfdwh/tscf/fuzzy/TrapezoidClassification.java:55-61 | The loop's running sum is the sum of the elements seen so far. The result is the sum of the values divided by their count. |
| `Fuzzy.SumBounds` | src/main/java/ch/unibnf/sfdwh/tscf/fuzzy/TrapezoidClassification.java:56-59 | If every value lies in [lo, hi], their sum lies between count * lo and count * hi. |
| `Fuzzy.AverageWithinBounds` | src/main/java/ch/unibnf/sfdwh/tscf/fuzzy/TrapezoidClassification.java:55-61 | If every value lies in [lo, hi], so does their mean. In particular the mean of degrees is a degree. |
| `Fuzzy.AverageExample` | src/main/java/ch/unibnf/sfdwh/tscf/fuzzy/TrapezoidClassification.java:55-61 | The mean of 1, 2 and 3 is 2. |
| `Fuzzy.TrapezoidClassification.GetFields` | src/main/java/ch/unibnf/sfdwh/tscf/fuzzy/TrapezoidClassification.java:86-89 | The result is four field names, none repeated. |
| `Fuzzy.TrapezoidClassification.GetFieldValue` | src/main/java/ch/unibnf/sfdwh/tscf/fuzzy/TrapezoidClassification.java:91-97 | The call fails, with "No field exists with name = " and the name, exactly for a name that is not a field name. For each field name it returns that corner exactly as given, absent or not. |
| `Fuzzy.FieldAccessRoundTrip` | src/main/java/ch/unibnf/sfdwh/tscf/fuzzy/TrapezoidClassification.java:24 | The field names come in the order `lowerLimit`, `lowerSupportLimit`, `upperSupportLimit`, `upperLimit`. Looking each one up gives the corresponding corner. A name is accepted iff it is one of them. |

## Left out

- IEEE-754 doubles are not modelled. That covers the `doubleValue()` widening of the generic `T extends Number`, rounding, infinities and NaN. Every corner and value is a real.
- Fuzzy.TrapezoidClassification.GetAverage: requires a non-empty collection. On an empty one the source divides 0.0 by 0 and returns NaN, and a real has no such value.
- Fuzzy.TrapezoidClassification.GetDifference: requires a positive edge width. For a zero-width edge the source would produce an infinity or NaN, but it never calls the method that way.
- `Collection<Double>` is modelled as a sequence, and each `HashMap` as a Dafny `map`. Iteration order and hashing are not modelled.
- `getFields` returns `Arrays.asList` over a static array that every instance shares (line 88). A caller's `set` on that list changes what later `getFields` calls return and which keys later field tables get. The model returns an immutable sequence, so this aliasing is not modelled.
- A null `literal` is accepted by the constructor (line 41) and returned by `getLinguisticTerm` (line 101). The model's label is a string that cannot be absent.
- Null `value` arguments to `getClassification` and the other evaluations are not modelled. In Java they throw a `NullPointerException`.
- `Serializable` and `serialVersionUID` are not modelled, since they carry no behaviour.
- The `FuzzyClassification` interface and the `FuzzyClassificationType` enum are not part of this model. `GetType` returns the one tag `Trapezoid`.
- The model makes the no-boundary check (line 49) before storing the corners, not after. A failed construction yields no object in either order, so nothing observable changes.
