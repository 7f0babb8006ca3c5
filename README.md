# Akaladrom frontend core, modelled in Dafny

This project models the interactive core of the Akaladrom frontend, a React
site about the world of Akaladrom and its eight pillars. The model covers:

- **`useCardsCarousel`**, a circular coverflow carousel engine. It has
  wrap-around index arithmetic, one centred-index state cell moved by
  `next`, `prev`, `goTo` and the arrow keys, a pointer-drag accumulator that
  navigates once per threshold crossing, a responsive choice of how many
  side cards fit the viewport, the window of visible offsets and the 3D
  style of each offset. It is the class `UseCardsCarousel.Carousel` plus
  pure functions.
- **`CardsCarousel`**, the component that renders one card per offset of the
  window. A click on a side card centres it, and a click on the centred card
  reports it to `onSelect`. The navigation buttons and the stage's pointer
  events are wired to the carousel. It is the class `CardsCarouselView.View`.
- **`useCardsContainer`**, the map that records which pillars are visible.
  It has an initial value, a filter, and four updaters: toggle, set exactly,
  select all and clear all. It is the class `UseCardsContainer.Container`;
  the updaters' loops are methods proved against map functions.
- **`useCards`**, a selectable card: a boolean state behind a `disabled`
  guard, with `onChange` notifications and accessible button props. It is
  the class `UseCards.CardSelection`.
- **The pillar domain (`pillars.ts`)**: the canonical order, the metadata and
  the merged map, membership, case-insensitive normalisation, and the
  ordered subset lookup `getPillars`. It is the module `Pillars`.
- **`useInfoPilar`**: it resolves a pillar from a key or a numeric id, then
  reads that pillar's world-data tables.
- **`useTranslations`** and the **`setLanguage`** reducer: a translation
  lookup with an error fallback, in the language that the store holds.

Pixel and degree quantities are exact reals. Indices and offsets are
integers. JavaScript's truncating `%` is written out (`JsRem`), and `wrap`
is built from it as in the source. Browser inputs are method parameters:
the viewport width, key names and pointer `clientX`. Callbacks (`onChange`,
`onSelect`) are modelled as logs of the values they received.

## Model

| member | source | states |
|---|---|---|
| UseCardsCarousel.JsRem | Akaladrom-frontend/src/hooks/useCardsCarousel/useCardsCarousel.ts:151 | JavaScript's `%` by a positive divisor: the magnitude is below the divisor, the sign follows the dividend, and the result is congruent to the dividend |
| UseCardsCarousel.Wrap | Akaladrom-frontend/src/hooks/useCardsCarousel/useCardsCarousel.ts:149-152 | `wrap(i)` is 0 when `total <= 0`; otherwise it lies in `[0, total)` and is the residue of `i` modulo `total` |
| UseCardsCarousel.WrapPeriodic | Akaladrom-frontend/src/hooks/useCardsCarousel/useCardsCarousel.ts:149-152 | `wrap(i + total) == wrap(i)` |
| UseCardsCarousel.WrapIdempotent | Akaladrom-frontend/src/hooks/useCardsCarousel/useCardsCarousel.ts:149-152 | `wrap(wrap(i)) == wrap(i)` |
| UseCardsCarousel.WrapAddWrap | Akaladrom-frontend/src/hooks/useCardsCarousel/useCardsCarousel.ts:149-152 | wrapping an intermediate sum changes nothing: `wrap(wrap(a) + b) == wrap(a + b)` |
| UseCardsCarousel.WrapOfIndex | Akaladrom-frontend/src/hooks/useCardsCarousel/useCardsCarousel.ts:149-152 | a valid index wraps to itself |
| UseCardsCarousel.WrapCongruent | Akaladrom-frontend/src/hooks/useCardsCarousel/useCardsCarousel.ts:149-152 | `wrap(i)` differs from `i` by a multiple of `total` |
| UseCardsCarousel.NextPrevInverse | Akaladrom-frontend/src/hooks/useCardsCarousel/useCardsCarousel.ts:154-155 | `next` then `prev`, and `prev` then `next`, return to the starting index |
| UseCardsCarousel.AdvanceIsWrap | Akaladrom-frontend/src/hooks/useCardsCarousel/useCardsCarousel.ts:154 | `n` calls of `next` from a valid index reach `wrap(c + n)` |
| UseCardsCarousel.RetreatIsWrap | Akaladrom-frontend/src/hooks/useCardsCarousel/useCardsCarousel.ts:155 | `n` calls of `prev` from a valid index reach `wrap(c - n)` |
| UseCardsCarousel.FullTurn | Akaladrom-frontend/src/hooks/useCardsCarousel/useCardsCarousel.ts:154-155 | `total` calls of `next`, or of `prev`, return to the start |
| UseCardsCarousel.Usable | Akaladrom-frontend/src/hooks/useCardsCarousel/useCardsCarousel.ts:83-84 | the usable width is `max(0, viewportWidth - 112)`: non-negative, at least the viewport width minus 56 px on each side, and equal to one of the two |
| UseCardsCarousel.ResponsiveSidesPerSide | Akaladrom-frontend/src/hooks/useCardsCarousel/useCardsCarousel.ts:77-95 | the side count is in 0..4; a positive count fits; every larger count up to 4 does not fit |
| UseCardsCarousel.ResponsiveMonotone | Akaladrom-frontend/src/hooks/useCardsCarousel/useCardsCarousel.ts:77-95 | a wider viewport never gives fewer side cards |
| UseCardsCarousel.ResponsiveExample | Akaladrom-frontend/src/hooks/useCardsCarousel/useCardsCarousel.ts:77-95 | 1920 px gives 3 per side with 560/64 cards and 4 per side with the 420/32 defaults; a zero viewport gives 0 |
| UseCardsCarousel.LeftCount | Akaladrom-frontend/src/hooks/useCardsCarousel/useCardsCarousel.ts:134 | an explicit `sideCounts.left` wins; otherwise the automatic count is used |
| UseCardsCarousel.RightCount | Akaladrom-frontend/src/hooks/useCardsCarousel/useCardsCarousel.ts:135 | an explicit `sideCounts.right` wins; otherwise the automatic count is used |
| UseCardsCarousel.OffsetWindow | Akaladrom-frontend/src/hooks/useCardsCarousel/useCardsCarousel.ts:203-207 | the window has length `left + 1 + right` (a negative count adds nothing); entry `j` is `j - left`; it is strictly increasing; 0 appears exactly once, at position `left` |
| UseCardsCarousel.StyleForOffset | Akaladrom-frontend/src/hooks/useCardsCarousel/useCardsCarousel.ts:211-228 | `zIndex = 1000 - abs(k)`; scale in `[0.82, 1]`; opacity in `[0.25, 1]`; offset 0 is untransformed at full size and opacity; `maxWidth` is the card width |
| UseCardsCarousel.StyleMirror | Akaladrom-frontend/src/hooks/useCardsCarousel/useCardsCarousel.ts:211-228 | offsets `k` and `-k` have opposite lateral shift and tilt, and equal depth, scale, opacity and stacking |
| UseCardsCarousel.StyleFadesWithDistance | Akaladrom-frontend/src/hooks/useCardsCarousel/useCardsCarousel.ts:212-220 | a farther card stacks strictly lower and is never larger or more opaque |
| UseCardsCarousel.PointerDownStep | Akaladrom-frontend/src/hooks/useCardsCarousel/useCardsCarousel.ts:173-178 | pointer down starts a drag at `clientX ?? 0` with an empty accumulator |
| UseCardsCarousel.PointerUpStep | Akaladrom-frontend/src/hooks/useCardsCarousel/useCardsCarousel.ts:197-200 | pointer up ends the drag and empties the accumulator; the last x is kept |
| UseCardsCarousel.PointerMoveStep | Akaladrom-frontend/src/hooks/useCardsCarousel/useCardsCarousel.ts:180-195 | a move changes nothing unless dragging. Otherwise it adds `clientX - lastX` and records `clientX`. Above the threshold it asks for `prev`; below minus the threshold it asks for `next`. It navigates at most once, and zeroes the accumulator exactly when it navigates. The accumulator stays within the threshold |
| UseCardsCarousel.GestureWithinThreshold | Akaladrom-frontend/src/hooks/useCardsCarousel/useCardsCarousel.ts:173-195 | while every pointer position stays within the threshold of the start, no move navigates and the accumulator is the net displacement |
| UseCardsCarousel.GestureCrossing | Akaladrom-frontend/src/hooks/useCardsCarousel/useCardsCarousel.ts:180-195 | the first move beyond the threshold navigates exactly once (right: `prev`, left: `next`) and resets the accumulator |
| UseCardsCarousel.DragExample | Akaladrom-frontend/src/hooks/useCardsCarousel/useCardsCarousel.ts:187-190 | with 560/64 cards the threshold is 218.4 px; moves to 100 then 220 give one `prev` |
| UseCardsCarousel.DragThreshold | Akaladrom-frontend/src/hooks/useCardsCarousel/useCardsCarousel.ts:187 | the drag threshold, 35% of card width plus gap, is positive and less than one card step whenever that step is positive |
| UseCardsCarousel.CenterCongruence | Akaladrom-frontend/src/hooks/useCardsCarousel/useCardsCarousel.ts:230 | for a valid centre `c`, `wrap(i) == c` exactly when `i - c` is a multiple of `total` |
| UseCardsCarousel.Carousel.IndexAtOffset | Akaladrom-frontend/src/hooks/useCardsCarousel/useCardsCarousel.ts:209 | `indexAtOffset(k)` is a valid index congruent to `current + k`, and offset 0 is `current` |
| UseCardsCarousel.Carousel.IsCenterIndex | Akaladrom-frontend/src/hooks/useCardsCarousel/useCardsCarousel.ts:230 | `isCenterIndex(i)` holds exactly when `i` is congruent to `current`; with no items it always holds |
| UseCardsCarousel.Carousel.constructor | Akaladrom-frontend/src/hooks/useCardsCarousel/useCardsCarousel.ts:116-131 | mounting starts at index 0 with no drag; the geometry defaults are 420/32/120/14; the automatic side count comes from the viewport width |
| UseCardsCarousel.Carousel.Resize | Akaladrom-frontend/src/hooks/useCardsCarousel/useCardsCarousel.ts:138-147 | a resize recomputes the automatic count only when no `sideCounts` object was passed; the automatic sides stay symmetric |
| UseCardsCarousel.Carousel.Next | Akaladrom-frontend/src/hooks/useCardsCarousel/useCardsCarousel.ts:154 | `current` becomes `wrap(current + 1)`, a valid index |
| UseCardsCarousel.Carousel.Prev | Akaladrom-frontend/src/hooks/useCardsCarousel/useCardsCarousel.ts:155 | `current` becomes `wrap(current - 1)`, a valid index |
| UseCardsCarousel.Carousel.GoTo | Akaladrom-frontend/src/hooks/useCardsCarousel/useCardsCarousel.ts:156 | after `goTo(i)`: `current == wrap(i)`, `indexAtOffset(0) == wrap(i)` and `isCenterIndex(i)` |
| UseCardsCarousel.Carousel.OnKey | Akaladrom-frontend/src/hooks/useCardsCarousel/useCardsCarousel.ts:159-166 | ArrowRight is `next`, ArrowLeft is `prev`, and any other key changes nothing |
| UseCardsCarousel.Carousel.PointerDown | Akaladrom-frontend/src/hooks/useCardsCarousel/useCardsCarousel.ts:173-178 | the drag refs become the pointer-down step of `clientX ?? 0` |
| UseCardsCarousel.Carousel.PointerMove | Akaladrom-frontend/src/hooks/useCardsCarousel/useCardsCarousel.ts:180-195 | the drag refs follow the move step, and `current` takes the navigation that the step asks for |
| UseCardsCarousel.Carousel.PointerUp | Akaladrom-frontend/src/hooks/useCardsCarousel/useCardsCarousel.ts:197-200 | the drag refs follow the pointer-up step |
| CardsCarouselView.CardAt | Akaladrom-frontend/src/components/CardsCarousel/CardsCarousel.tsx:77-96 | the card at offset `k` shows item `wrap(current + k)`; it is centred exactly when that index is `current`; its style is the offset's style |
| CardsCarouselView.Render | Akaladrom-frontend/src/components/CardsCarousel/CardsCarousel.tsx:77-98 | one card per window offset, in window order |
| CardsCarouselView.OnlyZeroOffsetCentres | Akaladrom-frontend/src/components/CardsCarousel/CardsCarousel.tsx:78-80 | within less than one full turn, only offset 0 lands on the centre |
| CardsCarouselView.NearOffsetsDiffer | Akaladrom-frontend/src/components/CardsCarousel/CardsCarousel.tsx:78-79 | two offsets less than one full turn apart show different items |
| CardsCarouselView.RenderCentre | Akaladrom-frontend/src/components/CardsCarousel/CardsCarousel.tsx:77-80 | the card at position `left` is centred and shows `current` |
| CardsCarouselView.RenderWithinTurn | Akaladrom-frontend/src/components/CardsCarousel/CardsCarousel.tsx:77-95 | when `left + 1 + right <= total`, only the offset-0 card is centred and no item is shown twice |
| CardsCarouselView.RenderKeysDistinct | Akaladrom-frontend/src/components/CardsCarousel/CardsCarousel.tsx:77-83 | rendered offsets strictly ascend, so the React keys are distinct |
| CardsCarouselView.View.constructor | Akaladrom-frontend/src/components/CardsCarousel/CardsCarousel.tsx:40-57 | the carousel gets `total = items.length`, the geometry with the 420/32/120/14 defaults, the automatic side count for the viewport width, index 0 and no drag; `sideCounts` is passed through without a default |
| CardsCarouselView.View.ClickCard | Akaladrom-frontend/src/components/CardsCarousel/CardsCarousel.tsx:86-93 | a side card's index becomes `current` and nothing is reported; the centre card is reported to `onSelect` with its id and index, and `current` does not move |
| CardsCarouselView.View.ClickPrevButton | Akaladrom-frontend/src/components/CardsCarousel/CardsCarousel.tsx:61-66 | the left button is `prev` |
| CardsCarouselView.View.ClickNextButton | Akaladrom-frontend/src/components/CardsCarousel/CardsCarousel.tsx:102-107 | the right button is `next` |
| CardsCarouselView.View.StagePointerDown | Akaladrom-frontend/src/components/CardsCarousel/CardsCarousel.tsx:70 | stage pointer down is the carousel's pointer-down step |
| CardsCarouselView.View.StagePointerMove | Akaladrom-frontend/src/components/CardsCarousel/CardsCarousel.tsx:71 | stage pointer move is the carousel's move step and its navigation |
| CardsCarouselView.View.StagePointerEnd | Akaladrom-frontend/src/components/CardsCarousel/CardsCarousel.tsx:72-74 | pointer up, cancel and leave all end the drag and empty the accumulator |
| UseCardsContainer.InitialSelection | Akaladrom-frontend/src/hooks/useCardsContainer/useCardsContainer.ts:118-125 | the initial map has exactly the keys of `order`; each is set when `initialVisible` is absent or empty, and otherwise exactly when it is listed |
| UseCardsContainer.VisiblePillars | Akaladrom-frontend/src/hooks/useCardsContainer/useCardsContainer.ts:129-132 | a pillar is visible exactly when it is listed and its key is set; the result is no longer than the list |
| UseCardsContainer.VisibleConcat | Akaladrom-frontend/src/hooks/useCardsContainer/useCardsContainer.ts:129-132 | filtering a concatenation filters each part in turn, so the filter keeps the list's order |
| UseCardsContainer.VisibleDependsOnLookup | Akaladrom-frontend/src/hooks/useCardsContainer/useCardsContainer.ts:129-132 | only the selection of listed keys affects the filter |
| UseCardsContainer.VisibleAll | Akaladrom-frontend/src/hooks/useCardsContainer/useCardsContainer.ts:129-132 | when every listed key is set, the filter keeps the whole list in order |
| UseCardsContainer.VisibleNone | Akaladrom-frontend/src/hooks/useCardsContainer/useCardsContainer.ts:129-132 | when no listed key is set, the filter keeps nothing |
| UseCardsContainer.Toggled | Akaladrom-frontend/src/hooks/useCardsContainer/useCardsContainer.ts:134-136 | toggling negates the key (an absent key becomes set), adds it if missing, and leaves every other key unchanged |
| UseCardsContainer.ToggleTwice | Akaladrom-frontend/src/hooks/useCardsContainer/useCardsContainer.ts:134-136 | toggling twice restores every key's selection, and the map itself when the key was present |
| UseCardsContainer.AssignAll | Akaladrom-frontend/src/hooks/useCardsContainer/useCardsContainer.ts:147-161 | the copy-and-assign loop keeps the key set and gives every key the value |
| UseCardsContainer.AllSetIdempotent | Akaladrom-frontend/src/hooks/useCardsContainer/useCardsContainer.ts:147-161 | select all and clear all keep the key set, and a second application changes nothing |
| UseCardsContainer.SetVisibleUpdate | Akaladrom-frontend/src/hooks/useCardsContainer/useCardsContainer.ts:138-145 | the keys are the old keys plus the listed ones, and a key is set exactly when it is listed |
| UseCardsContainer.SetNoneIsClear | Akaladrom-frontend/src/hooks/useCardsContainer/useCardsContainer.ts:138-161 | `setVisiblePillars([])` gives the same map as `clearAll` |
| UseCardsContainer.SetVisibleIdempotent | Akaladrom-frontend/src/hooks/useCardsContainer/useCardsContainer.ts:138-145 | setting the same keys twice equals setting them once |
| UseCardsContainer.VisibleAfterSet | Akaladrom-frontend/src/hooks/useCardsContainer/useCardsContainer.ts:129-145 | after `setVisiblePillars(keys)`, the visible pillars are exactly the listed pillars whose key is in `keys` |
| UseCardsContainer.Container.Visible | Akaladrom-frontend/src/hooks/useCardsContainer/useCardsContainer.ts:129-132 | `visiblePillars` of the current map |
| UseCardsContainer.Container.constructor | Akaladrom-frontend/src/hooks/useCardsContainer/useCardsContainer.ts:112-127 | pillars, order and meta default to the domain tables; the map is the initial map and holds every ordered key |
| UseCardsContainer.Container.TogglePillar | Akaladrom-frontend/src/hooks/useCardsContainer/useCardsContainer.ts:134-136 | the map becomes the toggled map |
| UseCardsContainer.Container.SetVisiblePillars | Akaladrom-frontend/src/hooks/useCardsContainer/useCardsContainer.ts:138-145 | the map becomes: old keys cleared, listed keys set |
| UseCardsContainer.Container.SelectAll | Akaladrom-frontend/src/hooks/useCardsContainer/useCardsContainer.ts:147-153 | every existing key becomes set |
| UseCardsContainer.Container.ClearAll | Akaladrom-frontend/src/hooks/useCardsContainer/useCardsContainer.ts:155-161 | every existing key becomes cleared, and no pillar is visible |
| UseCards.DataSelected | Akaladrom-frontend/src/hooks/useCards/useCards.ts:171 | `data-selected` is `"true"` exactly when selected, and `"false"` otherwise |
| UseCards.CardSelection.constructor | Akaladrom-frontend/src/hooks/useCards/useCards.ts:109-114 | the initial selection is `initialSelected`, default false; `disabled` defaults to false; nothing is notified |
| UseCards.CardSelection.Notified | Akaladrom-frontend/src/hooks/useCards/useCards.ts:116-152 | `onChange?.(v)` appends `v` to the log when a callback is given, and otherwise does nothing |
| UseCards.CardSelection.SetSelected | Akaladrom-frontend/src/hooks/useCards/useCards.ts:116-122 | sets the value and notifies it, even when disabled or unchanged |
| UseCards.CardSelection.Toggle | Akaladrom-frontend/src/hooks/useCards/useCards.ts:124-134 | disabled: no change and no notification; otherwise it flips and notifies the new value once |
| UseCards.CardSelection.Select | Akaladrom-frontend/src/hooks/useCards/useCards.ts:136-143 | a no-op when disabled or already selected; otherwise it selects and notifies `true` |
| UseCards.CardSelection.Unselect | Akaladrom-frontend/src/hooks/useCards/useCards.ts:145-152 | a no-op when disabled or not selected; otherwise it unselects and notifies `false` |
| UseCards.CardSelection.Props | Akaladrom-frontend/src/hooks/useCards/useCards.ts:167-174 | role `button`, tab index 0, `aria-pressed` equals the selection, and `data-selected` is `"true"` exactly when pressed |
| UseCards.CardSelection.Click | Akaladrom-frontend/src/hooks/useCards/useCards.ts:155-156 | a click always toggles |
| UseCards.CardSelection.KeyDown | Akaladrom-frontend/src/hooks/useCards/useCards.ts:158-165 | exactly Space and Enter are prevented and toggle; other keys change nothing |
| Pillars.OrderIsCanonical | Akaladrom-frontend/src/domain/pillars.ts:7-50 | the order lists all 8 keys, each once, and distinct keys have distinct names |
| Pillars.Position | Akaladrom-frontend/src/domain/pillars.ts:41-50 | every key has a position in the order, and the order holds that key there |
| Pillars.FindByKey | Akaladrom-frontend/src/domain/pillars.ts:111 | `find` returns a listed entity with the key, or none exists |
| Pillars.Base | Akaladrom-frontend/src/domain/pillars.ts:111 | each key's base entity exists in `AK_PILLARS`, so the non-null assertion never fails |
| Pillars.BasePillarsShape | Akaladrom-frontend/src/domain/pillars.ts:92-101 | entry `i` of `AK_PILLARS` carries the `i`-th key, is named after it, and overrides neither colour nor emoji |
| Pillars.BaseFacts | Akaladrom-frontend/src/domain/pillars.ts:92-111 | the found base entity is the one at the key's position, named after the key, with no overrides |
| Pillars.Merge | Akaladrom-frontend/src/domain/pillars.ts:113-118 | the merged entry keeps key, name and description; its label comes from the metadata; colour and emoji come from the base when present, else from the metadata |
| Pillars.PillarsMap | Akaladrom-frontend/src/domain/pillars.ts:109-122 | `AK_PILLARS_MAP` has an entry for every key, and that entry is the merge of its base and metadata |
| Pillars.GetPillarMeta | Akaladrom-frontend/src/domain/pillars.ts:58-138 | the metadata is labelled with the key's own name, has a `#`-prefixed 9-character colour, and always has an emoji |
| Pillars.GetPillar | Akaladrom-frontend/src/domain/pillars.ts:148-150 | `getPillar(k)` has key `k` and name `k`, and takes label, colour and emoji from the metadata |
| Pillars.IsAkaladromPillar | Akaladrom-frontend/src/domain/pillars.ts:160-162 | true exactly when the string equals some key's name, case-sensitively |
| Pillars.OrderNamesMembership | Akaladrom-frontend/src/domain/pillars.ts:160-162 | membership in the list of ordered key names is the same as naming a key |
| Pillars.Lower | Akaladrom-frontend/src/domain/pillars.ts:177 | lower-casing keeps the length and maps each ASCII capital to its small letter |
| Pillars.LowerKeysDistinct | Akaladrom-frontend/src/domain/pillars.ts:177 | no two keys differ only in letter case |
| Pillars.FindLower | Akaladrom-frontend/src/domain/pillars.ts:177 | `find` by lower-cased name returns a listed key with that name, or no listed key has it |
| Pillars.NormalizePillar | Akaladrom-frontend/src/domain/pillars.ts:176-179 | a result has the value's lower-cased name and passes `isAkaladromPillar`; no result means no key matches up to case |
| Pillars.NormalizeCanonical | Akaladrom-frontend/src/domain/pillars.ts:176-179 | any letter-case spelling of a key normalises to that key, and every key normalises to itself |
| Pillars.NormalizeExample | Akaladrom-frontend/src/domain/pillars.ts:176-179 | `normalizePillar("pYrO")` is `Pyro` |
| Pillars.NormalizeUnknown | Akaladrom-frontend/src/domain/pillars.ts:176-179 | a string whose length matches no key's length normalises to null |
| Pillars.FilterKeys | Akaladrom-frontend/src/domain/pillars.ts:195-196 | the filter keeps exactly the ordered keys that are in the set, or all of them when there is no set |
| Pillars.FilterKeysOrdered | Akaladrom-frontend/src/domain/pillars.ts:195-196 | filtering an ascending key list keeps it ascending |
| Pillars.KeyFilter | Akaladrom-frontend/src/domain/pillars.ts:194 | the set exists exactly when keys are given, and it holds exactly the given keys |
| Pillars.GetPillars | Akaladrom-frontend/src/domain/pillars.ts:193-198 | each entry is `getPillar` of a requested key; every requested key appears; the keys strictly ascend in canonical order, so a repeated key appears once |
| Pillars.GetAllPillars | Akaladrom-frontend/src/domain/pillars.ts:193-198 | with no keys, `getPillars` returns all 8 entries in canonical order |
| Pillars.Views | Akaladrom-frontend/src/domain/pillars.ts:197 | mapping keys to entries keeps length and order, and each key's entry appears |
| Pillars.GetPillarsFacts | Akaladrom-frontend/src/domain/pillars.ts:194-196 | the selected keys are exactly the requested ones, in ascending order |
| UseInfoPilar.PillarToMainRace | Akaladrom-frontend/src/hooks/useInfoPilar/useInfoPilar.ts:74-94 | in the tables as written, the main race is the first of the pillar's peoples |
| UseInfoPilar.PillarToContinent | Akaladrom-frontend/src/hooks/useInfoPilar/useInfoPilar.ts:63-72 | no pillar lies in Grieta del Tercer Latido, and Tula Varnem holds exactly Elementis and Geo |
| UseInfoPilar.ContinentsShared | Akaladrom-frontend/src/hooks/useInfoPilar/useInfoPilar.ts:63-72 | two different pillars share a continent only when they are Elementis and Geo |
| UseInfoPilar.PillarToPeoples | Akaladrom-frontend/src/hooks/useInfoPilar/useInfoPilar.ts:74-83 | every pillar has one or two peoples, none listed twice |
| UseInfoPilar.PillarToClasses | Akaladrom-frontend/src/hooks/useInfoPilar/useInfoPilar.ts:96-105 | every pillar has two distinct classes |
| UseInfoPilar.ResolveKey | Akaladrom-frontend/src/hooks/useInfoPilar/useInfoPilar.ts:155-159 | `pillarKey` wins; otherwise an id in `[0, 8)` selects that entry of the order; otherwise the first key |
| UseInfoPilar.FindIndex | Akaladrom-frontend/src/hooks/useInfoPilar/useInfoPilar.ts:164 | `findIndex` gives the first position that holds the value, or -1 exactly when the value is absent |
| UseInfoPilar.InfoFor | Akaladrom-frontend/src/hooks/useInfoPilar/useInfoPilar.ts:151-178 | the key is the resolved key; the id is its position in `[0, 8)`; the colour is the key's metadata colour; continent, peoples, main race and classes are the key's table entries, and the main race is among the peoples |
| UseInfoPilar.IdRoundTrip | Akaladrom-frontend/src/hooks/useInfoPilar/useInfoPilar.ts:155-169 | a valid id comes back unchanged, and so does the position of its key |
| UseInfoPilar.KeyOverridesId | Akaladrom-frontend/src/hooks/useInfoPilar/useInfoPilar.ts:155-156 | with a key given, the id does not matter, and the returned id is the key's position |
| UseInfoPilar.FallbackToFirst | Akaladrom-frontend/src/hooks/useInfoPilar/useInfoPilar.ts:157-158 | a missing or out-of-range id resolves to Anemo with id 0 |
| UseInfoPilar.GeoExample | Akaladrom-frontend/src/hooks/useInfoPilar/useInfoPilar.ts:63-94 | id 4 is Geo, in Tula Varnem, with peoples Demonios and Orcos and main race Demonios |
| UseTranslations.T | Akaladrom-frontend/src/hooks/useTranslations/useTranslations.ts:73-81 | a known tag reads its entry in the selected language; an unknown tag reads the `errorLocalizedIdNotFound` entry; a text object reads its own field |
| UseTranslations.TagMatchesText | Akaladrom-frontend/src/hooks/useTranslations/useTranslations.ts:73-81 | looking up a known tag equals passing its entry as a text object |
| UseTranslations.UnknownTagIsError | Akaladrom-frontend/src/hooks/useTranslations/useTranslations.ts:77 | every unknown tag reads the same as the error tag itself |
| UseTranslations.TagReadsSomeEntry | Akaladrom-frontend/src/hooks/useTranslations/useTranslations.ts:74-77 | a tag always reads some table entry in the selected language, so `t` never fails |
| UseTranslations.LanguageSwitch | Akaladrom-frontend/src/hooks/useTranslations/__test__/useTranslations.spec.ts:47-63 | a fresh store answers in Spanish; after `setLanguage('en')` the same tag answers in English |
| SetLanguageReducer.AppState.constructor | Akaladrom-frontend/src/constants/AppSliceInitialState.ts:11 | the initial state selects Spanish |
| SetLanguageReducer.SetLanguage | Akaladrom-frontend/src/redux/reducers/setLanguage/setLanguage.ts:19-21 | the payload becomes the selected language; only the preferences object is written |
| SetLanguageReducer.LastWriteWins | Akaladrom-frontend/src/redux/reducers/setLanguage/setLanguage.ts:20 | after two dispatches, the second payload is selected whatever came before; with equal payloads this is idempotence |

## Left out

- React lifecycles are not modelled: `useState`, `useRef`, `useEffect`, `useMemo` and `useCallback`. The `resize` and `keydown` listener registration is not modelled either. Each handler is a method called directly, and a `Resize` call stands for one resize event.
- The window read of `innerWidth` and `setPointerCapture` are not modelled. The viewport width, key names and pointer `clientX` are parameters. `clientX` is `Option<real>`, so that `?? 0` is modelled.
- Pixel and degree arithmetic uses exact reals instead of IEEE doubles. No rounding, NaN or infinity is modelled.
- Non-integer ids and offsets are not modelled. The id of `useInfoPilar` is `Option<int>`, so a fractional or NaN id has no counterpart. In the source, a route such as `/pillar/2.5` reaches the hook as the number 2.5 (`InfoPilar.tsx`, lines 36-37). It passes the range check at `useInfoPilar.ts` line 157, so `AK_PILLARS_ORDER[2.5]` is undefined, and reading `meta.color` at lines 161 and 171 throws.
- The track height (`Math.max(320, cw * 0.6)` in `CardsCarousel.tsx`) is presentation and is not modelled.
- The CSS `transform` template string is not built. The style keeps its four numbers (`translateX`, `translateZ`, `rotateY`, `scale`).
- The items' `render(isCenter)` output is not modelled. Each rendered card instead carries the `center` flag that it would pass. The `preventDefault` on a side-card click is not modelled.
- `CardsCarouselView.View.constructor` requires at least one item. With an empty list, the source reads `items[0]` of an empty array during render and fails.
- `total` and the geometry are fixed per carousel instance. Re-rendering with new props, and the keyboard handler's capture of the first render's closures, are lifecycle effects.
- Several carousels sharing one global keyboard listener is not modelled.
- React state batching and stale closures are not modelled. `UseCards.CardSelection.Select` and `UseCards.CardSelection.Unselect` read the current selection, while the source reads the value from the last render, which can lag behind. This matters only when several updates fall inside one render.
- The `event` argument that `onChange` receives is dropped. The `onChange` and `onSelect` callbacks are logs of their other arguments.
- The translation table (`i18n/translations.ts`) is not part of this model. It is a map parameter that must hold the `errorLocalizedIdNotFound` entry. JavaScript prototype keys such as `"constructor"` are not modelled as present.
- The Redux store, the slice, `useSelector` and the dispatch path are not modelled. The reducer acts directly on an `AppState` object.
- `imageSrc` of `useInfoPilar` and `getPillarImage` are not modelled. Their URLs come from the bundler.
- The `AkaContinent` key `Náeryl` and the `AkaClass` key `Músico` are the constructors `Naeryl` and `Musico`. The keys themselves are not compared as strings anywhere in the model.
- `toLowerCase` lower-cases only ASCII letters. This is exact for the eight keys, which are ASCII, but other characters in an input are compared unchanged.
- `AK_PILLARS_MAP` is modelled as a map comprehension, which equals the result of the source's `reduce` because every key of the order is distinct.
- The `meta` value of `useCardsContainer` is kept and returned unchanged, since the hook never reads it.
- The code is modelled where its comments disagree with it:
  - the carousel defaults are 420 px and 32 px, not the documented 560 px and 64 px;
  - the side count reaches 4, not 2;
  - `CardsCarousel` passes `sideCounts` through without defaulting it to 4/3.
- Pillars.GetPillars: its contract states selection, membership and order for any key list. The exact list for the no-key case is stated separately in `Pillars.GetAllPillars`.
