# Medlocum landing page: the interactive logic, modelled in Dafny

The Medlocum site is a single scrolling marketing page. Most of it is layout and copy, but a few components contain small pieces of sequential logic. This project models those pieces and proves their properties:

- **Testimonial carousel** (`testimonials.dfy`). This is a class holding `current` (an index into the three testimonials) and the `autoplay` flag. `Next`, `Prev` and the dot click `GoTo` move the index with wrap-around and switch autoplay off. The interval `Tick` advances the index only while autoplay is on. An event-trace model (`Step`, `Run`) proves that the index always stays in range, that `next`/`prev` are inverse, that ticks advance by one modulo 3, and that once autoplay is off it stays off and ticks are ignored.
- **Hero typing effect** (`hero.dfy`). Each tick reveals one more character of "Healthcare Staffing" and stops at the full text. The visible text is always the prefix of the given length, and after 19 ticks the whole headline shows.
- **Staffing gauge** (`products.dfy`). The figure starts at 80. Each update adds a random step in {-2..2} and clamps the result to [70, 90]. The two `Math.random()` draws are parameters in [0, 1).
- **Dashboard chart** (`chart.dfy`). This covers the sample data, the two linear scales and their inverses, the line path as move/line commands, the area path closed to the baseline, and the radius and fill of the hovered point.
- **Magnetic button** (`magnetic.dfy`). The pointer offset is 0.4 × (pointer − centre). It resets on leave. Move and click are guarded by whether the element exists, and `onClick` is called exactly once per click.
- **Benefits section** (`benefits.dfy`, `color_classes.dfy`, `decimal.dfy`). This covers the six cards, the `getColorClass` lookup (`<kind>-<colour>-500`), the particle elements and their React keys `particle-<card>-<i>` (proved distinct by printing and parsing decimals), and which card shows particles on hover.
- **Shared pieces**. `pointer.dfy` holds the pointer normalisation `(client / size - 0.5) * 2`, which the hero, products and benefits sections each repeat. `particles.dfy` holds the click-burst particle angle and colour by index, used by the hero and the magnetic button.

Timers and pointer events become explicit method calls. Random draws become parameters. JavaScript numbers become `real`, so the model does no floating-point rounding.

## Model

| member | source | states |
|---|---|---|
| Testimonials.NextIndex | components/testimonials-section.tsx:34-35 | The result is a valid index: the next one, or 0 after the last. |
| Testimonials.PrevIndex | components/testimonials-section.tsx:39-40 | The result is a valid index: the previous one, or the last one before 0. |
| Testimonials.NextPrevInverse | components/testimonials-section.tsx:34-42 | Stepping forward then back, or back then forward, returns to the same index. |
| Testimonials.Step | components/testimonials-section.tsx:34-52 | Every event keeps the index valid. Next moves to `NextIndex`, prev to `PrevIndex`, a dot click to its own index, and all three turn autoplay off. A tick with autoplay on advances to `NextIndex` and keeps autoplay on. A tick with autoplay off changes nothing. Nothing turns autoplay back on. |
| Testimonials.Run | components/testimonials-section.tsx:34-52 | After any sequence of next/prev/dot/tick events the index is still valid, so `testimonials[current]` is defined. Autoplay can only have stayed on or gone off. |
| Testimonials.TicksIdleWhenManual | components/testimonials-section.tsx:44-45 | With autoplay off, any number of ticks leaves the state unchanged. |
| Testimonials.TicksAdvance | components/testimonials-section.tsx:44-52 | With autoplay on, k ticks move the index to (current + k) mod 3 and keep autoplay on. |
| Testimonials.ManualIsPermanent | components/testimonials-section.tsx:34-42 | If a sequence contains any next, prev or dot click, autoplay is off at its end. |
| Testimonials.NextThenPrev | components/testimonials-section.tsx:34-42 | Running [next, prev] or [prev, next] from any state restores `current`. |
| Testimonials.Carousel.constructor | components/testimonials-section.tsx:10-11 | The carousel starts at index 0 with autoplay on. |
| Testimonials.Carousel.Next | components/testimonials-section.tsx:34-37 | The new state is `Step` of the old state on a next click. |
| Testimonials.Carousel.Prev | components/testimonials-section.tsx:39-42 | The new state is `Step` of the old state on a prev click. |
| Testimonials.Carousel.GoTo | components/testimonials-section.tsx:111-117 | A click on dot `index` gives the new state `Step(old, DotClick(index))`. |
| Testimonials.Carousel.Tick | components/testimonials-section.tsx:44-52 | An interval firing gives the new state `Step(old, AutoplayTick)`. |
| Testimonials.Carousel.Shown | components/testimonials-section.tsx:87-91 | The rendered record is `testimonials[current]`, which is one of the three records. |
| Hero.NextTyping | components/hero-section.tsx:33-39 | A tick keeps the text a prefix of the headline whose length equals the index, and only extends it. The state is unchanged exactly when the index has reached the headline's length. |
| Hero.AfterTicks | components/hero-section.tsx:33-40 | Successive ticks from a consistent state keep the text a prefix of the headline that only grows. |
| Hero.TicksShowPrefix | components/hero-section.tsx:33-36 | From a consistent state, k ticks show the first min(index + k, 19) characters. |
| Hero.TypingCompletes | components/hero-section.tsx:18-38 | Starting from "" and 0, exactly 19 ticks show "Healthcare Staffing", and further ticks change nothing. |
| Hero.TypingEffect.constructor | components/hero-section.tsx:18-19 | The typing state starts as "" and 0. |
| Hero.TypingEffect.Tick | components/hero-section.tsx:33-39 | The new state is `NextTyping` of the old state. The interval is cleared exactly when the index was already complete. |
| Pointer.Normalize | components/hero-section.tsx:99-100 | 0 maps to -1, the size maps to 1 and half the size maps to 0. The result lies in [-1, 1] if and only if the coordinate lies in [0, size]. |
| Pointer.Denormalize | components/hero-section.tsx:99-100 | Every normalised value comes from exactly this client coordinate: normalising it gives the value back. |
| Pointer.NormalizeIncreasing | components/products-section.tsx:38-39 | Normalisation is strictly increasing in the pointer coordinate. |
| Pointer.MousePosition.constructor | components/products-section.tsx:29 | The mouse position starts at (0, 0). |
| Pointer.MousePosition.HandleMouseMove | components/benefits-section.tsx:21-30 | The mouse position becomes the normalised pointer on each axis, inside [-1, 1] for a pointer inside the viewport. |
| Particles.Color | components/hero-section.tsx:141 | Particle i is `#3b82f6` when i is even and `#8b5cf6` when i is odd. |
| Particles.ColorsAlternate | components/magnetic-button.tsx:83 | Neighbouring particles differ in colour, and the colours repeat every two particles. |
| Particles.Angle | components/magnetic-button.tsx:73 | Every particle angle lies in [0, 360), and particle 0 points at 0 degrees. |
| Particles.BurstAngle | components/hero-section.tsx:126-131 | In a burst of 12, particle i flies at 30·i degrees. |
| Particles.AnglesIncrease | components/magnetic-button.tsx:68-73 | Later particles have strictly larger angles, so no two particles share a direction. |
| Products.Clamp | components/products-section.tsx:109 | The result lies in [lo, hi]. It is the identity inside the range and the nearer bound outside it. |
| Products.ClampIdempotent | components/products-section.tsx:109 | Clamping twice equals clamping once. |
| Products.Delta | components/products-section.tsx:108 | The step lies in [-2, 2]. Its sign follows the first draw: non-negative when the draw is > 0.5, non-positive otherwise. |
| Products.EveryStepDrawable | components/products-section.tsx:108 | Every step in {-2..2} is produced by some pair of draws. |
| Products.Update | components/products-section.tsx:107-110 | After any update the figure is in [70, 90], whatever the previous value. From a value in range it moves by at most 2. |
| Products.Walk | components/products-section.tsx:104-111 | After one or more interval firings the figure is in [70, 90], whatever it started at. |
| Products.WalkDrift | components/products-section.tsx:104-111 | From a value in range, n updates stay in [70, 90] and drift by at most 2n. |
| Products.StaffingGauge.constructor | components/products-section.tsx:102 | The figure starts at 80. |
| Products.StaffingGauge.Tick | components/products-section.tsx:106-111 | The new figure is `Update` of the old one with the two draws. It stays in range and moves by at most 2. |
| Chart.SampleY | components/interactive-chart.tsx:19 | Each generated y is an integer in [30, 79]. |
| Chart.SampleData | components/interactive-chart.tsx:15-21 | The sample has 12 points, point i has x = i, and every y is an integer in [30, 79]. |
| Chart.XScale | components/interactive-chart.tsx:29 | x = 0 maps to the padding (20), and x = count − 1 maps to width − padding (280). x lies in [0, count − 1] if and only if the pixel lies inside the horizontal axis. |
| Chart.XUnscale | components/interactive-chart.tsx:29 | The inverse of `xScale`: scaling its result gives the pixel back. |
| Chart.XScaleIncreasing | components/interactive-chart.tsx:29 | `xScale` is strictly increasing. |
| Chart.XRoundTrip | components/interactive-chart.tsx:29 | Unscaling a scaled x gives the x back. |
| Chart.YScale | components/interactive-chart.tsx:30 | y = 0 maps to the baseline (130) and y = 100 to the padding (20). y lies in [0, 100] if and only if the pixel lies in [20, 130]. |
| Chart.YUnscale | components/interactive-chart.tsx:30 | The inverse of `yScale`: scaling its result gives the pixel back. |
| Chart.YScaleDecreasing | components/interactive-chart.tsx:30 | `yScale` is strictly decreasing, so larger values are drawn higher. |
| Chart.YRoundTrip | components/interactive-chart.tsx:30 | Unscaling a scaled y gives the y back. |
| Chart.Plot | components/interactive-chart.tsx:33 | Point i becomes an "M" command if and only if it is the first point, and an "L" command otherwise. Each command carries `(xScale(x), yScale(y))`. |
| Chart.LinePath | components/interactive-chart.tsx:33 | The line path has exactly one command per data point, in order. |
| Chart.PathRoundTrip | components/interactive-chart.tsx:33 | Unscaling each command of the line path recovers its data point, so the path determines the data. |
| Chart.SampleInRange | components/interactive-chart.tsx:17-19 | The sample data lies in the range the scales are built for. |
| Chart.LineInsideAxes | components/interactive-chart.tsx:45-53 | For data in range, every vertex of the line lies inside the drawn axes. |
| Chart.AreaPath | components/interactive-chart.tsx:69 | The area path is the line path, then a line to the baseline at the last point's x, then a line to the baseline at `xScale(0)`, then "Z". |
| Chart.AreaOutline | components/interactive-chart.tsx:67-69 | When the first point has x = 0, the area drops straight down from the last point and returns to straight below the first. For data in range, all area vertices lie inside the axes. |
| Chart.Radius | components/interactive-chart.tsx:88 | A point's radius is 1.5 × pointRadius if and only if it is the hovered point, and pointRadius otherwise. |
| Chart.Fill | components/interactive-chart.tsx:89 | A point is filled blue if and only if it is hovered, and white otherwise. |
| Chart.OneEnlarged | components/interactive-chart.tsx:88 | At most one point is enlarged at a time. |
| Chart.ChartHover.constructor | components/interactive-chart.tsx:14 | No point is hovered at first. |
| Chart.ChartHover.Enter | components/interactive-chart.tsx:93 | Entering point i makes it the hovered point. Only i is enlarged. |
| Chart.ChartHover.Leave | components/interactive-chart.tsx:94 | Leaving clears the hovered point. No point is enlarged. |
| Magnetic.Offset | components/magnetic-button.tsx:24-34 | The offset is 0 at the centre. Otherwise it points towards the pointer and is strictly shorter than the pointer's distance from the centre. |
| Magnetic.PointerFor | components/magnetic-button.tsx:24-36 | Every offset is produced by this pointer position: the offset is invertible. |
| Magnetic.OffsetLinear | components/magnetic-button.tsx:27-35 | Doubling the pointer's distance from the centre doubles the offset. |
| Magnetic.PullTowards | components/magnetic-button.tsx:21-36 | A pointer exactly at the element's centre gives the offset (0, 0). |
| Magnetic.MagneticButton.constructor | components/magnetic-button.tsx:14-16 | The position starts at (0, 0) and no `onClick` call has happened. |
| Magnetic.MagneticButton.HandleMouseMove | components/magnetic-button.tsx:18-37 | With no element, nothing changes. Otherwise the position becomes 0.4 × (pointer − centre) on each axis. |
| Magnetic.MagneticButton.HandleMouseLeave | components/magnetic-button.tsx:39-41 | The position is reset to (0, 0) from any state. |
| Magnetic.MagneticButton.HandleClick | components/magnetic-button.tsx:43-54 | With no element, there is no burst and no `onClick` call. Otherwise a burst starts at the centre and `onClick` is called exactly once if it was given. The position does not change. |
| ColorClasses.GetColorClass | components/benefits-section.tsx:94-104 | The lookup gives a class if and only if the colour is one of the six. For any other colour it gives `None`, which stands both for the throw and for the `undefined` that names inherited from `Object.prototype` produce. |
| ColorClasses.BlueIsConventional | components/benefits-section.tsx:96 | The blue entry is bg-/text-/border-blue-500. |
| ColorClasses.GreenIsConventional | components/benefits-section.tsx:97 | The green entry is bg-/text-/border-green-500. |
| ColorClasses.PurpleIsConventional | components/benefits-section.tsx:98 | The purple entry is bg-/text-/border-purple-500. |
| ColorClasses.IndigoIsConventional | components/benefits-section.tsx:99 | The indigo entry is bg-/text-/border-indigo-500. |
| ColorClasses.PinkIsConventional | components/benefits-section.tsx:100 | The pink entry is bg-/text-/border-pink-500. |
| ColorClasses.AmberIsConventional | components/benefits-section.tsx:101 | The amber entry is bg-/text-/border-amber-500. |
| ColorClasses.MapIsConventional | components/benefits-section.tsx:95-102 | Every key of `colorMap` maps to its `<kind>-<colour>-500` classes. |
| ColorClasses.ColorClassFormat | components/benefits-section.tsx:94-104 | For each of the six colours, `getColorClass(c, t)` is `t + "-" + c + "-500"`. |
| Benefits.Table | components/benefits-section.tsx:37-92 | The `benefits` array has six cards with three particles each. |
| Benefits.TableWellFormed | components/benefits-section.tsx:37-92 | There are six cards. Each has three particles and a colour that `colorMap` knows, so every lookup a card makes succeeds. |
| Benefits.ParticleKey | components/benefits-section.tsx:170 | The key of particle i of card `index` is the prefix `particle-<index>-` followed by the decimal digits of i. |
| Benefits.CreateParticles | components/benefits-section.tsx:167-180 | There is one element per emoji of the card, in order. Element i carries that emoji, `custom = i` and the key `particle-<index>-<i>`. |
| Benefits.ParticleKeyInjective | components/benefits-section.tsx:170 | Two particles of the same card with different indices get different keys. |
| Benefits.ParticleKeysDistinct | components/benefits-section.tsx:167-179 | The keys of a card's particles are pairwise distinct. |
| Benefits.RenderedParticles | components/benefits-section.tsx:355-358 | A card renders particles if and only if it is the hovered card, and the hovered card renders exactly `createParticles(index)`. |
| Benefits.CardHover.constructor | components/benefits-section.tsx:11 | No card is hovered at first. |
| Benefits.CardHover.Enter | components/benefits-section.tsx:230 | Entering card `index` makes it the hovered card. Only that card shows particles. |
| Benefits.CardHover.Leave | components/benefits-section.tsx:231 | Leaving clears the hovered card. No card shows particles. |
| Decimal.NatToString | components/benefits-section.tsx:170 | An interpolated index is a non-empty string of digits. |
| Decimal.ParseNatToString | components/benefits-section.tsx:170 | Reading the decimal text of n gives n back. |
| Decimal.NatToStringInjective | components/benefits-section.tsx:170 | Different indices print differently. |

## Left out

- **Scroll-linked transforms.** `useScroll` and `useTransform` in the hero and products sections belong to the animation library, whose interpolation and clamping are not part of this model. The same goes for spring and variant configurations.
- **Particle and ripple DOM effects.** Creating, styling and removing nodes is direct DOM manipulation with random sizes and trigonometric velocities. Only the angle and colour of each particle index, and the burst's centre, are modelled.
- **Event wiring.** Adding and removing listeners, and setting and clearing intervals, are not modelled. Each handler or interval firing is a method call. The in-view gating of the typing effect and of the gauge is not modelled: the tick methods stand for the firings that happen while the section is in view.
- **Carousel timing.** Re-creating the autoplay interval whenever `current` changes restarts its 5-second countdown. Only the order of ticks and commands is modelled, not the time between them.
- **Floating point.** Numbers are `real`, so there is no rounding. The path's number-to-text formatting and the spaces between commands are abstracted into `PathCommand` records.
- Pointer.Normalize: requires a positive viewport size. The code divides by `window.innerWidth` and `window.innerHeight` without a guard, so a zero size gives ±Infinity, or NaN for a coordinate of 0, which the model does not represent.
- Chart.XScale: requires at least two data points. With one point, the code divides 0 by 0. The sample data always has twelve.
- **Chart tooltip.** The tooltip on the hovered point is a rendering of the same hover condition as `Chart.Radius`.
- **Benefit cards.** The icon, the description texts and the animation variants of the cards are static content.
- **Other files.** Static sections, navbar, footer, cursor effects, floating elements and page metadata have no logic to verify.
