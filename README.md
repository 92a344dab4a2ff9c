# Portfolio page logic in Dafny

The portfolio page's script (`js/script.js`) is mostly presentation. A few
parts of it are small, self-contained logic whose behaviour can be stated
exactly, and these are modelled and verified here:

- **JsText**: the ECMAScript `\s` character class and `String.prototype.trim`.
  Both strip the same set of code points (WhiteSpace plus LineTerminator).
- **Email**: `isValidEmail`, the anchored pattern `^[^\s@]+@[^\s@]+\.[^\s@]+$`.
  `IsValidEmail` is a direct check: no whitespace, a first `@` that is not at
  the start, no second `@`, and a `.` in the domain with a character on each
  side. It is proved equal to `MatchesPattern`, which reads the regular
  expression part by part. It is a shape check, not RFC 5322 syntax.
- **ContactForm**: the synchronous part of the contact form's submit handler.
  Each of the three fields is tested on its own, every failing field gets the
  red border, and the button enters its sending state only when all three
  pass. `Validate` gives the decision on the raw strings. `Form.Submit` is
  the handler over the page state it mutates.
- **TitleRotator**: `rotateTitles` as a class. The items' `active` flags are
  an array and the index of the next title is a field. `Run` is the startup
  tick followed by interval ticks.
- **MobileMenu**: the menu toggle, navigation-link, outside-click and in-page
  anchor handlers. Each one is a pure transition on `MenuState` and a method
  on the `Menu` class that mutates the same state.
- **ParticleField**: the background particles.
  - The particle count for a canvas.
  - Each particle's sampled attributes. The `Math.random()` values are an input.
  - The wrap-around lines of the per-frame update.
  - `initParticles` and `resizeCanvas`.
  - The nested loop of `connectParticles`: which pairs it visits and which of them get a line.

Dafny's `int`, `nat` and `real` are unbounded and exact. Canvas and window
sizes are integers, so the particle count `floor(width * height / 15000)` is
exact integer division. Positions, speeds, sizes and opacities are exact reals.

## Model

| member | source | states |
|---|---|---|
| JsText.TrimStartCuts | js/script.js:491 | trimming the start removes a whitespace prefix and keeps a suffix that is empty or starts with a non-whitespace character |
| JsText.TrimEndCuts | js/script.js:491 | trimming the end removes a whitespace suffix and keeps a prefix that is empty or ends with a non-whitespace character |
| JsText.TrimCuts | js/script.js:491 | `trim` keeps one slice `s[lo..hi]`; everything cut on either side is whitespace; the kept slice is empty or starts and ends with non-whitespace |
| JsText.Trim | js/script.js:491-501 | `.trim()` returns a string no longer than its input that is empty or starts and ends with a non-whitespace character |
| JsText.TrimEmptyIffAllWhitespace | js/script.js:491 | `!value.trim()` holds exactly when the value is made only of whitespace (the empty string included) |
| Email.IsValidEmail | js/script.js:596-599 | `isValidEmail` as a direct check; any string it accepts has at least five characters (`a@b.c`); `ValidIffMatchesPattern` characterises it fully |
| Email.ValidIffMatchesPattern | js/script.js:596-599 | `IsValidEmail` (no whitespace, exactly one `@`, not first, and a `.` after it with a character on each side) holds exactly when the string matches `^[^\s@]+@[^\s@]+\.[^\s@]+$` read part by part |
| Email.AssembledAddressIsValid | js/script.js:597 | any three `[^\s@]+` runs joined as `local@host.tld` are accepted |
| Email.AcceptsPlainAddress | js/script.js:596-599 | `user@example.com` is accepted |
| Email.RejectsMalformed | js/script.js:596-599 | `user@`, `user.example.com`, `@example.com` and ` a@b.com` are rejected |
| Email.ValidEmailIsNotBlank | js/script.js:496 | an address the pattern accepts is never blank after trimming, so the handler's separate blank test never rejects it |
| ContactForm.Validate | js/script.js:489-504 | the three tests as the handler writes them, on the raw values; the form is valid exactly when no field is marked; the name is marked exactly when it is all whitespace; the e-mail exactly when the untrimmed value fails the pattern; the message exactly when it is all whitespace |
| ContactForm.ValidIffAllFieldsPass | js/script.js:489-506 | the form passes exactly when the trimmed name, the trimmed e-mail and the trimmed message are non-empty and the e-mail matches |
| ContactForm.BlankFormMarksEveryField | js/script.js:489-504 | every failing field is marked, not only the first: an all-blank form marks all three |
| ContactForm.BlankNameFailsAlone | js/script.js:489-504 | a blank name with a good address and message marks the name and nothing else |
| ContactForm.LeadingSpaceFailsEmail | js/script.js:496 | the pattern sees the untrimmed value, so ` a@b.com` is marked although it is not blank |
| ContactForm.Form.Submit | js/script.js:489-513 | the inputs' values are unchanged; the handler goes on to send exactly when `Validate` accepts; each marked field gets `#ef4444` and the others keep their border; a rejected submit shows the error notice and leaves the button alone; an accepted one sets `sending` and `disabled` |
| TitleRotator.OnlyActive | js/script.js:341-346 | the flags after a tick that showed item `k`: item `k` is active and every other item is not |
| TitleRotator.Next | js/script.js:349 | the next index stays below `n` and wraps to 0 exactly after the last item |
| TitleRotator.IndexAfter | js/script.js:349 | the index after any number of ticks stays below `n` |
| TitleRotator.IndexAfterIsModular | js/script.js:336-355 | from index `k`, `t` ticks reach `(k + t) % n` |
| TitleRotator.FourItemsCycle | js/script.js:336-355 | with four items the ticks show 0, 1, 2, 3, 0 |
| TitleRotator.ShownOnTick | js/script.js:336-355 | a rotator as the page sets it up, after the startup tick and `k - 1` interval ticks (the `k`-th tick), has exactly item `(k - 1) % n` active |
| TitleRotator.Rotator.constructor | js/script.js:333-336 | the items keep the classes the page gave them and the index starts at 0 |
| TitleRotator.Rotator.Rotate | js/script.js:339-350 | after a tick exactly the item at the old index is active and the index is `(old + 1) % n`, so it stays in range |
| TitleRotator.Rotator.Run | js/script.js:353-355 | after the startup tick and `t` interval ticks the item shown is `IndexAfter(start, n, t)` and the index is one past it |
| TitleRotator.InitTitleRotator | js/script.js:332-336 | no rotator when there are no title items; otherwise a fresh one over the items at index 0 |
| MobileMenu.Toggled | js/script.js:610-627 | both classes flip; when the menu is now open the body overflow is `hidden` and the icon a cross, otherwise the overflow is `""` and the icon three bars |
| MobileMenu.LinkClicked | js/script.js:632-641 | a navigation link leaves the menu closed with the classes in step and the scroll unlocked |
| MobileMenu.DocumentClicked | js/script.js:645-656 | a click outside both the menu and the button closes the menu; a click inside either changes nothing |
| MobileMenu.AnchorClicked | js/script.js:812-826 | an anchor other than `#` whose target exists leaves the menu closed; a bare `#`, a missing target or an already closed menu leaves the state unchanged; the icon is not restyled; consistency is kept |
| MobileMenu.HandlersKeepConsistent | js/script.js:610-656 | every handler keeps the two `active` classes equal and the scroll lock in step with them |
| MobileMenu.ToggleFlips | js/script.js:610-627 | a toggle opens a closed menu and locks the scroll, and closes an open one and unlocks it |
| MobileMenu.ClosingIsIdempotent | js/script.js:632-656 | the link, outside-click and anchor handlers are idempotent |
| MobileMenu.ToggleTwiceRestores | js/script.js:610-627 | two toggles restore a consistent state whose icon is already drawn |
| MobileMenu.AnchorCloseKeepsCross | js/script.js:822-826 | closing an open menu through an anchor leaves the cross icon drawn |
| MobileMenu.ReplayKeepsConsistent | js/script.js:610-656 | any sequence of clicks from a consistent state ends in a consistent state |
| MobileMenu.Menu.OnToggleClick | js/script.js:610-627 | the page state afterwards is `Toggled` of the state before |
| MobileMenu.Menu.OnLinkClick | js/script.js:632-641 | the page state afterwards is `LinkClicked` of the state before |
| MobileMenu.Menu.OnDocumentClick | js/script.js:645-656 | the page state afterwards is `DocumentClicked` of the state before |
| MobileMenu.Menu.OnAnchorClick | js/script.js:812-826 | the page state afterwards is `AnchorClicked` of the state before, with the early return on `#` |
| ParticleField.ParticleCount | js/script.js:162 | the count is at most 100, gives every particle at least 15000 square pixels, and is either 100 or the largest such count, which is `min(floor(w*h/15000), 100)` |
| ParticleField.WrapCoordinate | js/script.js:132-135 | after the two wrap tests a coordinate lies in `[0, bound]` whatever it was, and one already inside is unchanged |
| ParticleField.WrapReentersOppositeEdge | js/script.js:132-135 | leaving past the far edge re-enters at 0 and leaving past 0 re-enters at the far edge, with no mirroring |
| ParticleField.Particle.constructor | js/script.js:118-125 | over exact reals: position scaled to the canvas and on it; size in `[0.5, 2.5)`; speeds in `[-0.25, 0.25)`; red and green in `155..254`; opacity in `[0.1, 0.6)` |
| ParticleField.Particle.AdvanceAndWrap | js/script.js:127-135 | the position is advanced by the speed and wrapped, and afterwards the particle is on the canvas |
| ParticleField.PairsMembership | js/script.js:173-174 | the nested loops visit `(a, b)` exactly when `0 <= a <= b < n`, self-pairs included |
| ParticleField.PairsVisitedOnce | js/script.js:173-174 | no pair is visited twice |
| ParticleField.PairsCount | js/script.js:173-174 | the loop body runs `n * (n + 1) / 2` times |
| ParticleField.ConnectionsMembership | js/script.js:175-179 | a pair gets a line exactly when it is visited and its particles are closer than 100 |
| ParticleField.LinesDrawn | js/script.js:170-190 | a line joins `a` and `b` exactly when `a <= b < n` and they are close; every particle gets a zero-length line to itself |
| ParticleField.Canvas.InitParticles | js/script.js:160-167 | the particles are replaced, not extended, by `ParticleCount(width, height)` fresh particles, pairwise distinct objects, the `i`-th built from the `i`-th draw, all on the canvas |
| ParticleField.Canvas.Resize | js/script.js:110-114 | the canvas takes the window's size and its particles are rebuilt for that size: `ParticleCount` fresh, pairwise distinct particles built from the draws, all on the canvas |
| ParticleField.Canvas.ConnectParticles | js/script.js:170-190 | the loops visit exactly `Pairs(n)` in order, and the lines drawn are the close pairs among them in the same order |

## Left out

- Mouse repulsion in `Particle.update` (js/script.js:138-147) is not modelled. It uses square roots and floating division, and it runs after the wrap lines, so it can push a particle off the canvas until the next frame.
- ParticleField.Particle.AdvanceAndWrap: the on-canvas property is proved for coordinates that are real numbers. In the page a coordinate can become NaN: before any mouse move the mouse is at (0, 0) (js/script.js:106), a particle wrapped to exactly (0, 0) has distance 0, and the repulsion computes 0/0. Every comparison with NaN is false, so the wrap lines never bring such a particle back, and it stays off the canvas until the next resize.
- ParticleField.LinesDrawn: the self-line of every particle assumes real coordinates; a particle with a NaN coordinate fails `distance < maxDistance` (js/script.js:179) and gets no line at all.
- ParticleField.Particle.constructor: the attribute formulas (js/script.js:119-124) are evaluated over exact reals. In IEEE-754 doubles `Math.random()` can return 1 - 2^-53, and for that draw `r * 2 + 0.5` rounds to 2.5, `r * 0.5 + 0.1` rounds to 0.6 and `Math.floor(r * 100 + 155)` is 255, so the upper bounds `size < 2.5`, `alpha < 0.6` and `red, green <= 254` hold over reals but not always in the page.
- The distance test `Math.sqrt(dx*dx + dy*dy) < 100` is modelled as `dx*dx + dy*dy < 10000` over exact reals. Floating-point rounding of the square root near the boundary is not modelled.
- Line opacity and stroke style in `connectParticles` (js/script.js:180-186) are not modelled. Neither are `draw`, `clearRect` and the rest of the canvas drawing.
- `Math.random()` is an input. Each particle takes a `Draw` of eight values in `[0, 1)`, and the n-th particle takes draw n.
- The hamburger icon's inline transforms and opacity are abstracted to `Unstyled`, `Bars` and `Cross`. The `spans` lookup is assumed to find the three bars.
- The model treats each handler on its own. It does not model the order in which one click reaches several listeners through DOM event bubbling.
- Each handler takes as inputs whether a click landed inside the menu or the toggle, and whether an anchor's target exists.
- The early returns when the canvas, the menu elements or the form elements are missing are not modelled. The title rotator's empty-list return is modelled.
- The contact form's success path after the simulated 1500 ms request (js/script.js:515-540) is not modelled. That covers the success notice, the form reset and the border reset. Timers are not modelled: `setTimeout`, `setInterval`, `requestAnimationFrame`, the 1000 ms and 3000 ms rotator delays, `debounce` and `beforeunload` cleanup.
- The `input` listener that recolours a field's border while typing (js/script.js:475-483) is not modelled.
- `showFormMessage` is only modelled as the notice it puts up. Its element construction and the 5-second removal are not modelled.
- Browser sanitisation of an `<input type="email">` value is not modelled. The model takes the value as the handler reads it.
- Not modelled: cursor easing, tilt transforms, GSAP and ScrollTrigger animations, video background, sound effects, and the smooth-scroll offset. They are floating-point presentation, an external library, media I/O or browser layout.
