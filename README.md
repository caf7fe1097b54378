# Ripples activity indicator, modelled in Dafny

`GLSRipplesActivityIndicator` is a UIKit view that shows four concentric rings
pulsing in scale and opacity, each a quarter cycle behind its neighbour. This
project models the view's own logic with UIKit views and Core Animation layers
replaced by plain records:

- `keyframes.dfy`, module `RippleKeyframes`: the record of a keyframe animation
  (key path, values, key times, calculation mode, duration, infinite repeat,
  autoreverse) and the generator inside `startAnimating`. `ScaleKeyframes` and
  `KeyTimes` are the two appending loops. Each is proved against a closed form:
  `ScaleAt(ring, k) = 0.2 * (((ring + k) mod 5) + 1)` and `k / count`.
  `Complement` is the opacity `map`. Lemmas show that the closed form follows
  the loop's wrap-then-append step rule, and give its bounds, its period and
  its values for the four rings. They also show that the key times run from 0
  to 1 in strictly increasing steps of 1/4.
- `ripples_indicator.dfy`, module `RipplesIndicator`: the class
  `RipplesActivityIndicator` has the fields `animating`, `storedColor`
  (`_color`), `hidesWhenStopped`, `hidden` (the layer's `isHidden`) and
  `circles`, a sequence of ring records. A ring record holds the frame, corner
  radius, border width, border colour and the layer's animations keyed as
  `layer.add(_:forKey:)` keys them. `CommonInit`, `SetColor` (the `color`
  setter), `StartAnimating`, `StopAnimating` and `LayoutSubviews` update this
  state in place with loops over the four rings (`for _ in 0...3` in
  `commonInit`, `for index in 0...3` in the others), as the source does. Each
  states the whole new state. `GetColor` and `IsAnimating` only read it.
  `Valid()` is the invariant the constructor establishes and the updating
  methods keep:
  - four rings that look alike;
  - bordered in the stored colour whenever one is stored;
  - carrying exactly their three ripple animations while animating, and none
    otherwise.

Numbers are exact reals. With IEEE doubles the running sample becomes
0.6000000000000001 at the third step, not 0.6. Still, 0.6000000000000001 + 0.2
rounds to 0.8 and 0.8 + 0.2 rounds to exactly 1.0, so the wrap test `> 1.0`
fires at the same positions as in exact arithmetic. The key times (multiples
of 0.25) are exact in doubles.

The bounds that `commonInit` and `layoutSubviews` read from the view are
parameters (`width`, `height`). `init(coder:)` is the same constructor over
the decoded bounds.

Two behaviours of the code are modelled exactly as written:
- Setting the colour to nil: the setter stores nil (line 32) and leaves the
  ring borders as they were. It does not keep the previous colour, and the
  getter then traps, because it force-unwraps (line 28). So `GetColor`
  requires a stored colour.
- `layoutSubviews` never recomputes the border width (lines 168-179). After a
  relayout the border stays one fifth of the side the rings were created with.

## Model

| member | source | states |
|---|---|---|
| `RippleKeyframes.ScaleAt` | activityindicators/Classes/GLSRipplesActivityIndicator.swift:85-105 | every scale sample of every ring lies in [0.2, 1.0] |
| `RippleKeyframes.ScaleSawtooth` | activityindicators/Classes/GLSRipplesActivityIndicator.swift:96-103 | the closed form obeys the loop's step rule: the next sample is the previous plus 0.2, wrapped to 0.2 when it passes 1.0 |
| `RippleKeyframes.ScalePeriodic` | activityindicators/Classes/GLSRipplesActivityIndicator.swift:94-104 | a ring's samples repeat with period five |
| `RippleKeyframes.ScaleReachesMaxThenWraps` | activityindicators/Classes/GLSRipplesActivityIndicator.swift:98-103 | a sample is 1.0 exactly at one position per period, the next one is 0.2, and otherwise the next one is 0.2 larger |
| `RippleKeyframes.ScaleKeyframes` | activityindicators/Classes/GLSRipplesActivityIndicator.swift:94-104 | from running minimum 0.2·(ring+1) with step 0.2, the loop yields count+1 samples, the k-th being 0.2·(((ring+k) mod 5)+1) |
| `RippleKeyframes.ScaleValuesStart` | activityindicators/Classes/GLSRipplesActivityIndicator.swift:85-105 | ring i's sequence starts at 0.2·(i+1) |
| `RippleKeyframes.FourRingScaleValues` | activityindicators/Classes/GLSRipplesActivityIndicator.swift:85-105 | with four rings the sequences are 0.2..1.0 rotated by the ring index |
| `RippleKeyframes.Complement` | activityindicators/Classes/GLSRipplesActivityIndicator.swift:108-111 | the opacity sequence has the same length and opacity[k] = 1 − scale[k] |
| `RippleKeyframes.ComplementInvolutive` | activityindicators/Classes/GLSRipplesActivityIndicator.swift:108-111 | complementing twice gives back the scale sequence |
| `RippleKeyframes.OpacityBounds` | activityindicators/Classes/GLSRipplesActivityIndicator.swift:106-111 | scale and opacity sequences have count+1 entries; scale in [0.2, 1.0], opacity in [0, 0.8], and each pair sums to 1 |
| `RippleKeyframes.KeyTimes` | activityindicators/Classes/GLSRipplesActivityIndicator.swift:112-118 | with step 1/count the loop yields count+1 key times, the k-th being k/count |
| `RippleKeyframes.EvenKeyTimesShape` | activityindicators/Classes/GLSRipplesActivityIndicator.swift:112-118 | the key times start at 0, end at 1, advance by 1/count and strictly increase |
| `RippleKeyframes.FourRingKeyTimes` | activityindicators/Classes/GLSRipplesActivityIndicator.swift:87-118 | with four rings the key times are 0, 0.25, 0.5, 0.75, 1.0 |
| `RipplesIndicator.InitialRing` | activityindicators/Classes/GLSRipplesActivityIndicator.swift:58-68 | a new ring is a min(w,h) square at the origin, corner radius half the side, border width one fifth of the side, gray border, no animations |
| `RipplesIndicator.RingAnimationsShape` | activityindicators/Classes/GLSRipplesActivityIndicator.swift:88-139 | ring i gets exactly three animations under the distinct keys animationX{i}, animationY{i}, animationAlpha{i}; each is paced, lasts 3.0, repeats forever, autoreverses and has key times 0..1; X and Y share five scale values in [0.2, 1.0]; opacity is their complement in [0, 0.8] |
| `RipplesIndicator.RipplesActivityIndicator.constructor` | activityindicators/Classes/GLSRipplesActivityIndicator.swift:13-51 | a new indicator is not animating, not hidden, does not hide when stopped, stores gray and has four initial rings; the invariant holds |
| `RipplesIndicator.RipplesActivityIndicator.CommonInit` | activityindicators/Classes/GLSRipplesActivityIndicator.swift:56-72 | appends four initial rings for the bounds and changes nothing else |
| `RipplesIndicator.RipplesActivityIndicator.GetColor` | activityindicators/Classes/GLSRipplesActivityIndicator.swift:26-29 | returns the stored colour, and may be called only while one is stored |
| `RipplesIndicator.RipplesActivityIndicator.SetColor` | activityindicators/Classes/GLSRipplesActivityIndicator.swift:30-40 | always stores the new value; a colour becomes every ring's border colour, nil leaves the rings unchanged; nothing else changes |
| `RipplesIndicator.RipplesActivityIndicator.IsAnimating` | activityindicators/Classes/GLSRipplesActivityIndicator.swift:164-166 | returns the animating flag |
| `RipplesIndicator.RipplesActivityIndicator.StartAnimating` | activityindicators/Classes/GLSRipplesActivityIndicator.swift:77-140 | no change when already animating; otherwise animating, unhidden, and each ring i gains RingAnimations(i) with its look unchanged; the invariant is kept |
| `RipplesIndicator.RipplesActivityIndicator.StopAnimating` | activityindicators/Classes/GLSRipplesActivityIndicator.swift:145-157 | no change when not animating; otherwise not animating, hidden exactly when hidesWhenStopped, every ring's animations removed and nothing else changed |
| `RipplesIndicator.RipplesActivityIndicator.LayoutSubviews` | activityindicators/Classes/GLSRipplesActivityIndicator.swift:168-179 | every ring becomes a min(w,h) square at the origin with half-side corners; border width, border colour, animations and flags keep their values |

## Left out

- Rendering and playback: interpolation of keyframes, paced timing and frame playback belong to Core Animation. Only the parameters handed to it are recorded.
- `addSubview`: the view hierarchy is not modelled. `circles` is the only list of rings, so appending to it stands for adding the subview.
- `NewKeyframeAnimation` is the stand-in for `CAKeyframeAnimation(keyPath:)` with the framework's defaults (no values, no key times, linear mode, zero duration, no repeat, no autoreverse). The source promises nothing about these defaults, and the start routine overwrites every one of them before adding the animation.
- `backgroundColor = .clear` on the view and on each ring: fill colours are not modelled.
- `super.init` and `super.layoutSubviews`: UIKit's own work.
- `init(coder:)`: NSCoder decoding is not modelled. The constructor takes the decoded bounds.
- Exact IEEE-754 values: the model uses exact reals. The wrap positions agree, as explained above.
- CGColor conversion: a colour is an opaque value, and gray is a distinguished constant.
- Aliasing of ring views: the source's rings are shared `UIView` references, and `circles` is an internal property other code could reassign. The model's rings are values owned by the indicator.
- `ScaleKeyframes`: its contract covers only the arguments the start routine passes (running minimum 0.2·(ring+1) for a ring below five, and step 0.2), not arbitrary starting values or steps.
- `KeyTimes`: requires at least one step. The start routine always passes four, and with zero the source would divide by zero.
