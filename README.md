# Portfolio page script — verified model

This project models the parts of the portfolio page's `script.js` that have
exact, statable behaviour, with every browser callback (observer entry,
interval tick, animation frame, timeout, pointer move) turned into an
explicit step method:

- **E-mail check and contact-form gate** (`email.dfy`, `contact_form.dfy`):
  the pattern `^[^\s@]+@[^\s@]+\.[^\s@]+$` as a predicate over splits of the
  string, proved equal to a character-level description (no white space,
  exactly one `@`, a non-empty part before it, a `.` with a character on each
  side after it); the submit handler's ordered checks (all fields present →
  e-mail matches → simulated send) and the submit button and pending sends.
- **Notifications** (`notifications.dfy`): showing a notification removes all
  existing ones and appends the new one, so at most one is ever attached; the
  delayed removal is a no-op once the element is gone; unknown types get the
  `info` background.
- **Stat counters** (`stat_counter.dfy`): digit extraction and `parseInt`, the
  start decision (`number > 0`) and unobserving, and the counter animation as a
  clamped accumulator over `real`.
- **Ripple** (`ripple.dfy`): each click's circle grows 0, 5, …, 100 and is
  removed after exactly 20 frames.
- **Breathing** (`breathing.dfy`): the oscillating scale in integer hundredths,
  kept within [95, 105], reversing exactly at the bounds, period 20 ticks.
- **Spider-web attributes** (`spider_web.dfy`): the normalised distance
  `min(d / maxD, 1)`, the affine attribute maps (line opacity, stroke width,
  reach; circle radius and opacity; spider, centre and spiral scale and
  opacity), and the cumulative drift of the circles' stored centres, updated
  in place over arrays. Cosine and sine are a parameter `trig` mapping an angle
  in degrees to a (cos, sin) pair.

The breathing direction flips when the scale reaches 1.05 or 0.95 (`>=` and
`<=` at script.js:613), so in exact arithmetic the scale never passes either bound. The stat
counters and notifications are modelled because their behaviour is exact.

## Model

| member | source | states |
|---|---|---|
| EmailValidation.EmailCharacterization | script.js:169-172 | `IsValidEmail`, the pattern as a predicate over its possible splits, matches exactly the strings with no `\s` character, exactly one `@`, a non-empty part before it, and after it a `.` that has at least one character on each side. |
| ContactForm.Check | script.js:143-151 | The verdict is "missing field" exactly when some field is null or empty, "invalid e-mail" exactly when all are filled and the address fails the pattern, "send" exactly when both checks pass. |
| ContactForm.ErrorMessage | script.js:144-149 | A rejected submission reports "Please fill in all fields" exactly for a missing field, and "Please enter a valid email address" for an invalid address. |
| ContactForm.MissingFieldIgnoresEmail | script.js:143-146 | A missing or empty name, subject or message gives the fill-in error whatever the e-mail value is. |
| ContactForm.BlankValuesAreFilled | script.js:143-151 | White-space-only values count as filled (no trimming): with them and a matching address the send starts. |
| ContactForm.Form.Submit | script.js:132-159 | A rejected submission shows one error notification and leaves the button and pending sends untouched; an accepted one sets the button to "Sending...", disables it and queues its original text. |
| ContactForm.Form.SendFinished | script.js:160-165 | The oldest pending send shows the success notification and restores the button text it saved, re-enabled. |
| Notifications.Background | script.js:200-206 | "success" and "error" get their gradients; every other type, and only those, gets the info gradient. |
| Notifications.MakeNotice | script.js:180-182 | The element carries the given id, text and type and the background of that type. |
| Notifications.Without | script.js:219-221 | After detaching id, exactly the notifications with a different id remain, none added. |
| Notifications.WithoutAbsent | script.js:219-221 | Detaching an element that is no longer attached changes nothing. |
| Notifications.NotificationArea.Show | script.js:175-208 | Afterwards exactly one notification is attached, the new one (fresh id, type defaulting to info); none of the previous ones survive. |
| Notifications.NotificationArea.RemoveLater | script.js:216-222 | The delayed removal detaches that notification if attached and otherwise leaves the list unchanged; at most one stays attached. |
| StatCounter.Digits | script.js:115 | The result is no longer than the text, and a character occurs in it exactly when it is an ASCII digit occurring in the text. |
| StatCounter.DigitsAppend | script.js:115 | Extraction distributes over concatenation, so the digits are kept in order and with their multiplicity. |
| StatCounter.DigitsOfDigitString | script.js:115 | A string made only of digits is kept whole. |
| StatCounter.DigitsOfPlain | script.js:115 | Text without digits yields the empty string. |
| StatCounter.StartTargetOfNumber | script.js:113-118 | A positive number written between digit-free text (such as "150+") starts a counter whose target is the value of that number. |
| StatCounter.DigitValue | script.js:115 | A digit's value is the position of the digit in "0123456789" (so at most 9, and 0 only for `0`). |
| StatCounter.ParseDigits | script.js:115 | Parsing the digit string gives NaN exactly when it is empty, and otherwise `DecimalValue`, its decimal value. |
| StatCounter.DecimalValuePositional | script.js:115 | `DecimalValue` is base-10 positional: one digit is worth its digit value, and the value of `a + b` is the value of `a` times 10 to the power of the length of `b`, plus the value of `b`. |
| StatCounter.StartTarget | script.js:113-117 | A start target, when there is one, is positive. |
| StatCounter.PositiveIffNonZeroDigit | script.js:115-117 | A digit string's value is positive exactly when it holds a digit other than 0. |
| StatCounter.StartsIffNonZeroDigit | script.js:113-120 | A counter starts exactly when the stat text contains a digit 1-9; an empty or all-zero digit string never starts one. |
| StatCounter.StatsObserver.OnEntry | script.js:110-123 | An intersecting entry with a positive number starts a counter with that target and unobserves the stat; any other entry changes nothing. |
| StatCounter.Advance | script.js:100-104 | The next value never exceeds the target, equals it exactly when current + increment reaches it, and never decreases. |
| StatCounter.ShownIsMonotone | script.js:100-105 | The displayed floor never decreases across a tick and never exceeds the target. |
| StatCounter.TicksToFinish | script.js:94-104 | With the default duration the accumulator after k ticks is k increments of target/125, and it equals the target exactly at tick 125. |
| StatCounter.Counter.constructor | script.js:94-97 | The increment is target / (duration / 16) and the accumulator starts at 0. |
| StatCounter.Counter.Tick | script.js:99-106 | One tick advances the clamped accumulator, shows its floor (never above the target, never below the last shown) and stops exactly when it shows the target. |
| RippleEffect.RippleSchedule | script.js:569-581 | Frame k writes radius 5k, never above 100; every frame before the 20th reschedules and the 20th does not. |
| RippleEffect.Ripple.constructor | script.js:553-566 | The circle sits at the click point relative to the graphic's box, with radius and `r` 0. |
| RippleEffect.Ripple.Frame | script.js:570-579 | A frame adds 5 to this ripple's own radius, writes it, and keeps the circle exactly while the radius is below 100. |
| RippleEffect.Ripple.Animate | script.js:569-581 | Running frames to completion takes exactly 20 frames, writes 5, 10, …, 100 and removes the circle. |
| Breathing.Tick | script.js:611-615 | The scale moves one step in the direction; the direction reverses when the new scale reaches a bound and is kept strictly inside. |
| Breathing.TickKeepsBounds | script.js:612-615 | A tick keeps the scale within [95, 105] and reverses direction exactly when 105 is reached going up or 95 going down. |
| Breathing.AlwaysInBounds | script.js:608-618 | Every state reached from the start is within bounds with a unit direction. |
| Breathing.Trajectory | script.js:608-615 | From the start the scale climbs to 105 in 5 ticks, falls to 95 in 10 more and returns to 100 in 5 more. |
| Breathing.Periodic | script.js:608-618 | The oscillation repeats every 20 ticks. |
| Breathing.Oscillator.constructor | script.js:608-609 | The oscillator starts at scale 1 (100) going up. |
| Breathing.Oscillator.OnTimer | script.js:611-618 | One interval tick is the Tick step and keeps the scale within [95, 105]. |
| SpiderWeb.NormalizedDistance | script.js:473 | For a non-negative distance the result is in [0, 1]; it is 1 exactly from the maximum distance on, and below it is the exact ratio. |
| SpiderWeb.PointerExtremes | script.js:466-473 | A pointer at the viewport centre gives distance 0 and one at the corner gives distance 1. |
| SpiderWeb.LineAt | script.js:482-499 | For a distance in [0, 1] a line's reach is in [200, 350], opacity in [0.2, 0.5], stroke width in [1, 3], taking 200/0.2/1 at distance 0 and 350/0.5/3 at distance 1; the end point is the centre plus (cos, sin) of its angle times the reach. |
| SpiderWeb.Drift | script.js:503-519 | Circle radius is in [3, 8] and opacity in [0.1, 0.5] (3/0.1 at distance 0, 8/0.5 at distance 1); at distance 1 the centre moves by 10 along the angle's (cos, sin); the centre moves in the direction of the circle's angle for a positive distance and not at all for distance 0. |
| SpiderWeb.SpiderAt | script.js:521-527 | The spider is translated by a tenth of the pointer offset from (380, 280) and scaled within [1, 1.3]: 1 at distance 0, 1.3 at distance 1. |
| SpiderWeb.CenterAt | script.js:534-540 | The centre glyph's scale is in [1, 1.5] and its opacity in [0.3, 0.7]: 1/0.3 at distance 0, 1.5/0.7 at distance 1. |
| SpiderWeb.SpiralAt | script.js:542-549 | A spiral line's scale is in [1, 1.2] and its opacity in [0.15, 0.35]: 1/0.15 at distance 0, 1.2/0.35 at distance 1. |
| SpiderWeb.AttributesAffine | script.js:484-546 | Every line, circle, spider, centre and spiral attribute is the linear interpolation, by the distance, of its values at distance 0 and distance 1. |
| SpiderWeb.AttributesMonotone | script.js:484-546 | Every line, spider, centre and spiral attribute grows with the distance. |
| SpiderWeb.DriftAccumulates | script.js:512-518 | After n identical calls each circle centre has moved n times its per-call step along its angle: the drift is cumulative. |
| SpiderWeb.ZeroDistanceKeepsCentres | script.js:512-518 | A call with distance 0 leaves every circle centre where it was. |
| SpiderWeb.Web.Update | script.js:480-550 | Every line, the spider and centre (when present) and every spiral get their attributes for the distance; each stored circle centre is moved from its previous position. |
| SpiderWeb.Web.Initialize | script.js:605 | The initial zero-distance call keeps every circle centre and puts the spider at (380, 280) with scale 1. |
| SpiderWeb.Web.OnPointerMove | script.js:462-477 | The pointer handler updates the scene with the normalised distance and the pointer's offset from the viewport centre. |

## Left out

- Event listeners, intersection observers, `setTimeout`, `setInterval` and `requestAnimationFrame` scheduling: each callback is a step method the caller invokes.
- Smooth scrolling, parallax, the navbar background, the hero fade-in, hover effects, lazy images, the `load` class, particles, keyframe generation, the theme toggle and injected style sheets: direct style mutations, `Math.random` or CSS text with nothing to state.
- Trigonometry: `Math.cos`/`Math.sin` are the `trig` parameter; `Math.sqrt` is replaced by the distances it yields, passed in with their defining equations; the spider's `atan2` rotation is not modelled.
- The notification's slide-in and slide-out transforms, its inline styles, and the text and attribute formatting (`'+'` after the counter, `px`/`deg` strings), and console logging.
- The form's `reset()`: the form fields are not part of the model state.
- `FormData.get` returning a file instead of a string is not modelled; fields are strings or absent.
- StatCounter.Counter.constructor: requires a positive duration; a zero duration (an infinite increment in JavaScript) is not modelled, and the only caller uses the default of 2000 ms.
- StatCounter.TicksToFinish: exact real arithmetic; in floating point the 125 increments may sum to slightly less than the target, so the interval may need one more tick.
- StatCounter.ParseDigits: exact integers; `parseInt` of a very long digit string gives a rounded or infinite float, which does not change the `> 0` decision.
- Breathing.Tick: exact hundredths; in floating point `0.01` steps can land just inside a bound and flip one tick late, overshooting by one step.
- SpiderWeb.DriftAccumulates: the scene, including every attribute map in SpiderWeb, uses exact real arithmetic; in floating point each call's addition to the stored `cx`/`cy` rounds, so after n calls a centre has moved by n rounded additions, not exactly n times the step (ten additions of 0.1 give 0.9999999999999999).
- SpiderWeb.NormalizedDistance: requires a positive maximum distance; a zero-size viewport (NaN or infinite ratio in JavaScript) is not modelled.
- Notifications.Background: type names inherited from JavaScript's object prototype (`toString`, `constructor`) are treated as unknown types here.
