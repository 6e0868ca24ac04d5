# CGLayoutKit geometry core in Dafny

A model of the value-type geometry at the heart of CGLayoutKit and Spackle.
Coordinates are `real` (the library's `CGFloat`). The origin is the top-left corner, and Y grows downward.

- `Points` (`points.dfy`) covers point translation: `offsetBy(x:y:)`, which defaults an omitted distance to zero, and `offsetBy(_:)`. It also has the direction-aware `leadingOffsetBy`, whose horizontal distance is mirrored in a right-to-left layout. The definition of `leadingOffsetBy` is not part of this model: it is modelled from what the point tests assert.
- `Sizes` (`sizes.dfy`) covers aspect fit and aspect fill. Each picks the smaller or larger of the two axis ratios. It returns the source unchanged when upscaling is refused and the scale exceeds `1 + ulpOfOne`. Otherwise it multiplies both dimensions by the scale and rounds each up. The module also has `box(size:)`. `Ceil` is an exact ceiling. `UlpOfOne` is 2^-52, the value of `CGFloat.ulpOfOne` on platforms where `CGFloat` is a 64-bit `Double`.
- `Rects` (`rects.dfy`) covers the nine physical named positions of a rectangle and the six direction-aware ones, which resolve to the left or right variant according to the layout direction.
  - The getters are pure functions.
  - The Swift setters are mutating property setters that rewrite `origin` in place, several of them in two steps. They appear twice in the model: once as `WithPosition` (a function returning the moved rectangle) and once as methods of the class `MutableRect`, which perform the same in-place updates and are proved equal to `WithPosition`.
  - The layout direction is an explicit `rtl` argument. In the library it is a process-wide flag read on every call.

## Model

| member | source | states |
|---|---|---|
| Points.OffsetBy | Spackle/CoreGraphics/CGPoint+Spackle.swift:31-33 | the offset point lies exactly (x, y) away from the original |
| Points.OffsetByLength | Spackle/CoreGraphics/CGPoint+Spackle.swift:38-40 | offsetting by one length equals offsetting by that length on both axes |
| Points.LeadingOffsetBy | CGLayoutKitTests/CGPointTests.swift:46-72 | the point moves vertically by dy, and horizontally by dx left to right or by -dx right to left |
| Points.LeadingOffsetByLength | CGLayoutKitTests/CGPointTests.swift:74-100 | the point moves vertically by the length, and horizontally by the length left to right or by its negation right to left |
| Points.OffsetDefaults | Spackle/CoreGraphics/CGPoint+Spackle.swift:31 | an omitted distance defaults to 0 and leaves its coordinate unchanged; with both omitted the offset is the identity |
| Points.OffsetComposes | Spackle/CoreGraphics/CGPoint+Spackle.swift:32 | offsets add up when composed, and offsetting by (-a, -b) undoes (a, b) |
| Points.OffsetExamples | CGLayoutKitTests/CGPointTests.swift:13-44 | (50,50) offset by (10,10), (-10,-10), x 10 only, y 10 only, length 10 and length -10 |
| Points.LeadingOffsetLeftToRight | CGLayoutKitTests/CGPointTests.swift:46-88 | left to right, a leading offset (two-distance or single-length) is the plain offset |
| Points.LeadingOffsetRightToLeft | CGLayoutKitTests/CGPointTests.swift:62-99 | right to left, x moves by -dx and y by +dy, i.e. the left-to-right offset with dx negated |
| Points.LeadingOffsetInverse | CGLayoutKitTests/CGPointTests.swift:46-72 | in either direction a leading offset is undone by the negated offset |
| Points.LeadingOffsetExamples | CGLayoutKitTests/CGPointTests.swift:46-100 | every leading-offset assertion of the tests, in both directions, including (50,50) by (10,10) right to left giving (40,60) |
| Sizes.Ceil | CGLayoutKit/CoreGraphics/CGSize+Layout.swift:45-46 | the result is a whole number c with c - 1 < x <= c |
| Sizes.ScaledDimension | CGLayoutKit/CoreGraphics/CGSize+Layout.swift:45-46 | a scaled dimension is a whole number at or above the exact product and less than one above it |
| Sizes.Filling | CGLayoutKit/CoreGraphics/CGSize+Layout.swift:56-67 | refused upscale (flag false, max ratio > 1 + ulpOfOne) returns the source; otherwise both dimensions are rounded-up products with the larger ratio |
| Sizes.Fitting | CGLayoutKit/CoreGraphics/CGSize+Layout.swift:36-47 | refused upscale (flag false, min ratio > 1 + ulpOfOne) returns the source; otherwise both dimensions are rounded-up products with the smaller ratio |
| Sizes.Box | CGLayoutKit/CoreGraphics/CGSize+Layout.swift:76-78 | width and height both equal the given side |
| Sizes.CeilMonotone | CGLayoutKit/CoreGraphics/CGSize+Layout.swift:45-46 | rounding up preserves order |
| Sizes.ScaledDimensionMonotone | CGLayoutKit/CoreGraphics/CGSize+Layout.swift:45-46 | a larger scale never gives a smaller rounded dimension |
| Sizes.FitWithinTarget | CGLayoutKit/CoreGraphics/CGSize+Layout.swift:36-47 | for a positive source, each fitted dimension is at most the target's rounded up, in both the scaling and the refused-upscale branch |
| Sizes.FitTouchesTarget | CGLayoutKit/CoreGraphics/CGSize+Layout.swift:38-46 | in the scaling branch one fitted dimension equals the matching target dimension rounded up |
| Sizes.FillCoversTarget | CGLayoutKit/CoreGraphics/CGSize+Layout.swift:56-67 | in the scaling branch both filled dimensions are at least the target's, and one equals the target's rounded up |
| Sizes.FitNotLargerThanFill | CGLayoutKit/CoreGraphics/CGSize+Layout.swift:36-67 | with upscaling allowed, the fitted width and height never exceed the filled ones |
| Sizes.UpscaleFlagIrrelevant | CGLayoutKit/CoreGraphics/CGSize+Layout.swift:36-67 | when the chosen scale is at most 1 + ulpOfOne, fit and fill give the same result whatever the upscale flag |
| Sizes.FitWithoutUpscaleCanGrow | CGLayoutKit/CoreGraphics/CGSize+Layout.swift:42-46 | with upscaling refused, (1,1) fitted into (1 + ulpOfOne, 3) gives (2,2), larger than the source and than the matching fill (1,1) |
| Sizes.FitCappedWithoutUpscale | CGLayoutKit/CoreGraphics/CGSize+Layout.swift:33-47 | with upscaling refused, each fitted dimension is at most the source's dimension times 1 + ulpOfOne, rounded up: the cap the code does keep |
| Sizes.FillCappedWithoutUpscale | CGLayoutKit/CoreGraphics/CGSize+Layout.swift:53-67 | with upscaling refused, each filled dimension is at most the source's dimension times 1 + ulpOfOne, rounded up |
| Sizes.UnitScaleRoundsUp | CGLayoutKit/CoreGraphics/CGSize+Layout.swift:42-66 | with upscaling refused, (1.5, 1.5) fitted or filled into (1.5, 1.5) gives (2, 2): the scale is exactly 1, and rounding up grows the source |
| Sizes.BoxIntoBox | CGLayoutKit/CoreGraphics/CGSize+Layout.swift:76-78 | a square fitted or filled into a square gives the target square rounded up |
| Sizes.FitExamples | SpackleTests/CGSizeTests.swift:13-29 | (500,800) into (160,230) is (144,230); into (2000,2000) it is (1250,2000) with upscale and (500,800) without |
| Sizes.FillExamples | SpackleTests/CGSizeTests.swift:31-47 | (500,800) into (160,230) is (160,256); into (2000,2000) it is (2000,3200) with upscale and (500,800) without |
| Rects.PositionOf | CGLayoutKit/CoreGraphics/CGRect+Layout.swift:32-95 | each of the nine named positions lies within the rectangle's horizontal and vertical extent |
| Rects.WithPosition | CGLayoutKit/CoreGraphics/CGRect+Layout.swift:32-95 | setting any of the nine positions keeps width and height, and reading the same position back gives exactly the value set |
| Rects.GetThenSet | CGLayoutKit/CoreGraphics/CGRect+Layout.swift:32-95 | setting any position to its current value leaves the rectangle unchanged |
| Rects.SetTwice | CGLayoutKit/CoreGraphics/CGRect+Layout.swift:32-95 | of two sets of the same position, the last one wins |
| Rects.SetTranslates | CGLayoutKit/CoreGraphics/CGRect+Layout.swift:32-95 | setting one position moves the origin and every other position by that position's displacement |
| Rects.SetOffsetPosition | CGLayoutKit/CoreGraphics/CGRect+Layout.swift:32-95 | setting a position to its own offset shifts the origin by the same offset |
| Rects.Midpoints | CGLayoutKit/CoreGraphics/CGRect+Layout.swift:32-95 | center is the midpoint of topLeft and bottomRight; each edge midpoint is halfway between that edge's corners |
| Rects.PositionExamples | SpackleTests/CGRectTests.swift:13-28 | the eight corner and edge positions of (10,10,100,100) |
| Rects.MutableRect.SetPosition | CGLayoutKit/CoreGraphics/CGRect+Layout.swift:32-95 | the in-place, partly two-step update of the origin leaves the size alone and yields exactly WithPosition of the old rectangle |
| Rects.WithSemanticPosition | CGLayoutKit/CoreGraphics/CGRect+Layout.swift:106-180 | setting a leading or trailing position keeps the size, and reading it back in the same direction gives the value set |
| Rects.Resolve | CGLayoutKit/CoreGraphics/CGRect+Layout.swift:106-180 | a semantic position resolves to a left-edge position exactly when it is leading in a left-to-right layout or trailing in a right-to-left one, and otherwise to a right-edge one |
| Rects.SemanticPositionOf | CGLayoutKit/CoreGraphics/CGRect+Layout.swift:106-180 | a leading position is on the left edge left to right and on the right edge right to left (trailing the reverse), and its row does not depend on the direction |
| Rects.RightToLeftMirrors | CGLayoutKit/CoreGraphics/CGRect+Layout.swift:106-180 | right to left resolves to the left/right mirror of left to right, i.e. the reflection across the vertical centre line |
| Rects.LeadingTrailingSwap | CGLayoutKit/CoreGraphics/CGRect+Layout.swift:106-180 | leading in one direction is trailing in the other, for the top, center and bottom rows, for getting and for setting |
| Rects.SemanticGetThenSet | CGLayoutKit/CoreGraphics/CGRect+Layout.swift:106-180 | setting a semantic position to its current value in the same direction leaves the rectangle unchanged |
| Rects.SetLeadingOffsetPosition | CGLayoutKit/CoreGraphics/CGRect+Layout.swift:106-180 | setting a semantic position to its own leading offset, in the same direction, shifts the origin by that leading offset |
| Rects.SemanticPositionExamples | SpackleTests/CGRectTests.swift:30-63 | the semantic positions of (10,10,100,100) in both directions, with topCenter and bottomCenter the same in both |
| Rects.MutableRect.SetSemanticPosition | CGLayoutKit/CoreGraphics/CGRect+Layout.swift:106-180 | the setter goes through the physical setter that the direction selects, and the result is WithSemanticPosition of the old rectangle |

## Left out

- CGLayoutKit/UIKit/UIView+Layout.swift is not part of this model. It forwards each position to its view's `frame`, offsets through CoreGraphics' own `CGRect.offsetBy`, and reads UIKit's layer corner radius and layout margins. All of that is host-framework plumbing.
- SpackleExample/ViewController.swift (a demo table view with animation) is not part of this model.
- Where the direction flag is stored and how it is resolved (`isRightToLeftLayoutDirection`, `_setIsRightToLeftLayoutDirection`, the lazy read from the host application) is not part of this model. The flag is an explicit `rtl` argument. The source reads the flag again on every access, and taking it as an argument captures that.
- The definition of `leadingOffsetBy` is not part of this model. `Points.LeadingOffsetBy` follows the behaviour the tests assert.
- The tests call `offsetBy(dx:dy:)`, a point extension from CGLayoutKit that is not part of this model. The tests' examples are stated against Spackle's `offsetBy(x:y:)`, which computes the same sums.
- Floating point is not modelled: `CGFloat` is `real`, so there is no rounding error, NaN or infinity. `ulpOfOne` is the exact constant 2^-52.
- Sizes.Fitting, Sizes.Filling: require a positive source width and height, because the source divides by them. A zero source dimension yields infinity or NaN there, and that is not modelled. A negative source gives finite results in the code ((-2, -4) fitted into (4, 4) is (4, 8)), but an aspect size of a negative size has no meaning in the library's design, so non-positive sources are outside the modelled domain. The target may be any size.
- Sizes.Fitting, Sizes.Filling: the doc comments say that with `upscale: false` the result is capped at the current size. The code keeps that cap only up to the guard's tolerance and the rounding up: Sizes.UnitScaleRoundsUp and Sizes.FitWithoutUpscaleCanGrow show results larger than the source, and Sizes.FitCappedWithoutUpscale and Sizes.FillCappedWithoutUpscale state the cap that does hold.
- Rects.PositionOf, Rects.WithPosition: require a non-negative width and height. CoreGraphics standardises rectangles with a negative size inside `minX`, `maxX` and `width`, and that library is not part of this model.
- Sizes.FitNotLargerThanFill: holds with upscaling allowed only. With upscaling refused it can fail, as Sizes.FitWithoutUpscaleCanGrow shows.
