# SecretChord layout engine in Dafny

This project models the layout engine of SecretChord, a Python library
that draws chord diagrams. In a chord diagram each entity gets an arch, a
span of the rim of a circle. Each flow between two entities gets a ribbon,
and the ends of the ribbon sit in sub-spans of the two arches. The model
covers how the library:

- adds up the flows into per-entity totals and a discovery order;
- splits the circle among the arches, with gaps between them, walking a
  cursor that wraps once it passes 360 degrees;
- shares each arch out among the ribbons registered on it;
- builds a ribbon's closed outline (vertices and curve codes);
- computes the small defaults of labels (radius, angle, text, alignment,
  rotation, word wrapping).

The library has three generations of this code, and each one is modelled
in its own module:

- `SecretChord/_elements.py` holds the current drawing elements (module
  `Elements`). Its helpers live in `Common`, `Scheduler` (the arch
  partition and cursor walk), `Paths` (the ribbon outline) and `Text`
  (word wrapping).
- `SecretChord/_base.py` holds the current `Track` (module `TrackBase`),
  with the flow totals and the arch layout in `Layout`. This track
  registers ribbons with `add_input_ribbon` and `add_output_ribbon` and
  creates them with `start_radius=`. Only the arch and ribbon classes of
  `SecretChord/test_elements.py` have that interface, so `TrackBase`
  builds the `TestElements` arches and ribbons, and the `Elements` labels.
  As written, `_base.py` imports the `_elements.py` classes instead, and
  its first ribbon construction fails with a TypeError (see "Left out").
- `SecretChord/test_elements.py` holds the earlier elements and track
  (module `TestElements`).
- `SecretChord/base.py` holds the first `ChordDiagram`. `Chord` models its
  arithmetic as functions and lemmas, and `ChordObjects` models its
  objects and their caches.

Objects whose fields the library updates in place are classes:

- arches and their ribbon registries;
- ribbons and their lazily built patches;
- labels;
- the tracks and the diagram with their caches.

Each method states its new state. Computations are functions, and loops
are methods proved against them.

A Python dictionary is a sequence of key/value pairs kept in insertion
order. Assigning a key that is already present keeps its place (`Put`),
and `d[k]` is a `Result` that is a KeyError when the key is absent
(`Lookup`). Exceptions are `Err` values: ValueError, KeyError,
AttributeError, IndexError and ZeroDivisionError. Angles and amounts are
reals. The drawing library's sampling of an arc into points is a
function parameter (`sampler`). Keyword options are maps from option
names to values, merged as `{**old, **new}`.

Where the code and the library's own description disagree, the model
follows the code. Adding a flow to a track, or setting its order, does
not discard elements generated before, and the model keeps them too.

## Model

| member | source | states |
|---|---|---|
| Common.CenterOr | SecretChord/_elements.py:44-46 | an unset centre reads as the origin (0, 0), a set one as itself |
| Common.MergeOptions | SecretChord/_elements.py:78 | `{**base, **extra}` has the keys of both, every key of `extra` takes its new value and every other key keeps its old one |
| Common.SumAppend | SecretChord/_elements.py:205-207 | Python's `sum` of a concatenation is the sum of the two parts |
| Common.SumNonNegative | SecretChord/_elements.py:207 | a sum of non-negative amounts is non-negative |
| Common.SumPrefixMonotone | SecretChord/_elements.py:227 | with non-negative terms a longer prefix never sums to less, so a cursor that adds widths only moves forward |
| Common.RealMod | SecretChord/_base.py:170-171 | Python's float `%` by a positive divisor: the result lies in `[0, m)` and differs from `x` by a whole number of `m` |
| Common.KeysOf | SecretChord/_elements.py:205-206 | the keys of an ordered dictionary are listed in insertion order, one per entry |
| Common.ValuesOf | SecretChord/_elements.py:205-206 | `list(d.values())` lists the values in insertion order, one per entry |
| Common.Get | SecretChord/_base.py:163 | a dictionary lookup finds nothing exactly when the key is absent, and what it finds is stored under that key |
| Common.Put | SecretChord/_elements.py:188 | `d[k] = v` keeps an existing key in its place (same keys, same length) and appends an absent key at the end |
| Common.PutDistinct | SecretChord/_elements.py:199 | `d[k] = v` never creates a second entry for a key |
| Common.GetPut | SecretChord/_elements.py:188 | after `d[k] = v`, `k` reads `v` and every other key reads what it read before |
| Common.Lookup | SecretChord/_base.py:203 | `d[k]` raises KeyError exactly when `k` is absent, and otherwise returns the value stored under `k` |
| Common.GetEntry | SecretChord/_base.py:209 | in a dictionary without repeated keys, an entry's key reads that entry's value |
| Common.PutKeys | SecretChord/_base.py:155 | the keys after `d[k] = v` are the old keys and `k`, nothing else |
| Common.PutEntries | SecretChord/_base.py:194 | every entry after `d[k] = v` is the new pair or an old entry |
| Common.MapValues | SecretChord/_base.py:196-198 | transforming every value keeps the keys, their order and their number |
| Common.MapValuesPut | SecretChord/_base.py:155 | transforming the values commutes with `d[k] = v` |
| Common.MapValuesKeys | SecretChord/_base.py:196-198 | transforming the values leaves the key list unchanged |
| Common.MapValuesReplace | SecretChord/_base.py:155 | `d[k] = v` on a present key replaces only the entry at `k`'s position |
| Common.IndexOf | SecretChord/base.py:281 | `list.index`: absent exactly when `x` is not in the list; otherwise the position of the first `x` |
| Common.IndexOfFirst | SecretChord/base.py:281 | a position holding `x` with no earlier `x` is the one `list.index` returns |
| Common.IndexOfAppend | SecretChord/base.py:281 | appending a different element does not move the first position of `x` |
| Common.KeyNotEarlier | SecretChord/base.py:298 | in a dictionary without repeated keys, no key occurs before its own entry |
| Common.NatText | SecretChord/_base.py:191 | `str(i)` of a natural number is a non-empty string of decimal digits |
| Common.NatTextInjective | SecretChord/_base.py:191 | different numbers have different decimal texts |
| Common.AfterLastDashOf | SecretChord/_base.py:208 | the text after the last '-' of `p + "-" + t` is `t` when `t` has no '-' |
| Common.KeyTextInjective | SecretChord/_base.py:191 | two ribbon keys `f"{d}-{i}"` are equal only when both the prefix and the index are equal, so every ribbon of the loop gets its own key |
| Scheduler.Scale | SecretChord/_elements.py:208 | each share stands to the angle as its amount stands to the total |
| Scheduler.SumTimes | SecretChord/_elements.py:208 | multiplying every term by `c` multiplies the sum by `c` |
| Scheduler.ScaleSum | SecretChord/_elements.py:208 | scaling every amount by `angle / total` scales their sum the same way |
| Scheduler.ScaleNonNegative | SecretChord/_elements.py:208 | with non-negative amounts, a positive total and a non-negative angle, no share is negative |
| Scheduler.GetOrder | SecretChord/_elements.py:201-210 | `get_order` raises ZeroDivisionError exactly when there are amounts and they add up to zero; otherwise it returns one share per origin and one per destination |
| Scheduler.OriginShares | SecretChord/_elements.py:205-209 | each origin share times the total of all amounts equals that origin's amount times the arch's angle |
| Scheduler.DestinationShares | SecretChord/_elements.py:205-210 | each destination share times the total of all amounts equals that destination's amount times the arch's angle |
| Scheduler.OriginShare | SecretChord/_elements.py:205-209 | the same for one given origin |
| Scheduler.DestinationShare | SecretChord/_elements.py:205-210 | the same for one given destination |
| Scheduler.ScaleFills | SecretChord/_elements.py:207-208 | the shares of a non-zero total add up to the whole angle |
| Scheduler.OrderFillsAngle | SecretChord/_elements.py:201-210 | the origin and destination shares of a non-empty arch together add up to the arch's angle |
| Scheduler.OrderNonNegative | SecretChord/_elements.py:201-210 | with non-negative amounts and a non-negative angle every share is non-negative |
| Scheduler.SlotAt | SecretChord/_elements.py:231-236 | the `k`-th slot of the cursor walk is exactly its width wide |
| Scheduler.SlotOf | SecretChord/_elements.py:231-238 | the walk fails with AttributeError exactly when the ribbon is not registered; otherwise it returns the slot at the ribbon's position |
| Scheduler.Walk | SecretChord/_elements.py:231-238 | the cursor loop with `pop(0)` returns the slot `SlotOf` describes |
| Scheduler.SlotsContiguous | SecretChord/_elements.py:233-235 | each slot ends where the next one starts |
| Scheduler.SlotsOrdered | SecretChord/_elements.py:231-236 | with non-negative widths an earlier slot ends no later than a later slot starts: slots never overlap |
| Scheduler.SlotWithinBlock | SecretChord/_elements.py:231-236 | with non-negative widths every slot lies within the block from the base to the base plus the sum of the widths |
| Scheduler.BlockEnds | SecretChord/_elements.py:231-236 | the first slot starts at the base and the last one ends at the base plus the sum of the widths |
| Scheduler.BlockSlot | SecretChord/_elements.py:221-238 | a slot in the leading block (from `start_angle`) or the trailing block (after the whole leading block) is an AttributeError exactly when the ribbon is not registered in that block |
| Scheduler.BlockSlotWithin | SecretChord/_elements.py:225-236 | a leading slot lies inside the leading block and a trailing slot inside the trailing block |
| Scheduler.BlocksInOrder | SecretChord/_elements.py:225-236 | every leading slot ends before any trailing slot starts |
| Scheduler.FirstLeadingSlot | SecretChord/_elements.py:221-233 | the first leading ribbon's slot starts at `start_angle` |
| Scheduler.LastTrailingSlot | SecretChord/_elements.py:225-236 | the last trailing ribbon's slot ends where both blocks together end |
| Scheduler.ArchSlot | SecretChord/_elements.py:212-238 | `get_angle` is a ZeroDivisionError when `get_order` divides by zero, and otherwise an AttributeError exactly when the ribbon is not registered in the requested direction |
| Scheduler.FindSlot | SecretChord/_elements.py:212-238 | the whole of `get_angle` (shares, then the cursor walk) returns what `ArchSlot` describes |
| Scheduler.WalkBlocks | SecretChord/_elements.py:221-238 | the walk over the leading block from `start_angle`, or over the trailing block after the whole leading block, returns the slot `BlockSlot` describes |
| Scheduler.ArchSlotBlocks | SecretChord/_elements.py:221-229 | once the shares are computed, the slot is the one in the leading or trailing block |
| Scheduler.ArchSlotWithin | SecretChord/_elements.py:212-238 | with non-negative amounts and angle, every slot lies on the arch, between `start_angle` and `start_angle + angle` |
| Scheduler.LeadingBeforeTrailing | SecretChord/_elements.py:225-236 | every leading slot ends before any trailing slot starts, so a self-loop gets two slots that do not overlap |
| Scheduler.FirstSlotAtStart | SecretChord/_elements.py:221-233 | the first leading ribbon's slot starts where the arch starts |
| Scheduler.LastSlotAtEnd | SecretChord/_elements.py:225-236 | the last trailing ribbon's slot ends where the arch ends: the slots fill the arch |
| Paths.EffectiveRadius | SecretChord/_elements.py:376 | the effective radius plus the margin plus the arch height is the ribbon radius |
| Paths.Curves | SecretChord/_elements.py:406-413 | `[Path.CURVE4] * n` is `n` copies of CURVE4 |
| Paths.ClosedRibbon | SecretChord/_elements.py:397-414 | the path has `len(start) + len(end) + 5` vertices and as many codes, MOVETO first and CURVE4 after, the start points, the bend point twice, the end points, the bend point twice, and a last vertex equal to the first |
| Paths.BuildPath | SecretChord/_elements.py:401-414 | the loops of `get_path` build exactly `ClosedRibbon`; an empty start list is an IndexError |
| Text.TrimStart | SecretChord/_elements.py:583 | `lstrip` removes exactly the leading whitespace: the result is a suffix not starting with whitespace, and everything removed is whitespace |
| Text.TrimEnd | SecretChord/_elements.py:583 | `rstrip` removes exactly the trailing whitespace |
| Text.Strip | SecretChord/_elements.py:583-587 | `strip` yields text that neither starts nor ends with whitespace |
| Text.StripTight | SecretChord/_elements.py:587 | text that already starts and ends with non-whitespace is its own strip |
| Text.StripSnocSpace | SecretChord/_elements.py:580-587 | a trailing space added by the loop disappears in the final strip |
| Text.SplitOn | SecretChord/_elements.py:575 | `split(" ")` gives at least one piece and no piece contains the separator |
| Text.JoinSplit | SecretChord/_elements.py:575 | joining the pieces of a split with the separator gives the text back |
| Text.SplitJoin | SecretChord/_elements.py:575 | splitting words joined by a separator none of them contains gives the words back |
| Text.WrapStep | SecretChord/_elements.py:579-585 | one turn of the loop appends the word and a space, and once the counter reaches `wrap_words` strips, ends the line and resets the counter |
| Text.WrapText | SecretChord/_elements.py:572-587 | the loop of `wrapped_text` yields `Wrapped`: the text itself when `wrap_words == 0`, otherwise the laid-out words stripped |
| Text.WrappedUnlimited | SecretChord/_elements.py:572-587 | with the default `np.inf` the text only loses its outer whitespace |
| Text.UnlimitedAcc | SecretChord/_elements.py:578-581 | without a limit the loop builds the words joined by spaces, plus one trailing space |
| Text.LaidEnds | SecretChord/_elements.py:587 | laid-out plain words start with the first word's first character and end with the last word's last character |
| Text.GridAcc | SecretChord/_elements.py:578-585 | with a whole-number limit `k`, the loop state after the words is their layout with a break after every `k`-th word, and the counter is the number of words modulo `k` |
| Text.GridFirst | SecretChord/_elements.py:578-585 | the loop state after the first word |
| Text.WrappedGrid | SecretChord/_elements.py:572-587 | space-separated plain words come out with a line break after every `k`-th word, single spaces elsewhere, and nothing before the first word or after the last |
| Elements.Arch.constructor | SecretChord/_elements.py:126-146 | a new arch keeps its radius, angles, height and options, has no centre set, is visible and has no ribbon registered |
| Elements.Arch.Angle | SecretChord/_elements.py:168-173 | `angle` is what takes `start_angle` to `end_angle` |
| Elements.Arch.Center | SecretChord/_elements.py:32-46 | the centre is (0, 0) until one is set |
| Elements.Arch.SetCenter | SecretChord/_elements.py:48-50 | setting the centre changes only the centre |
| Elements.Arch.Update | SecretChord/_elements.py:71-78 | `update` merges the options, new keys winning, and changes nothing else |
| Elements.Arch.Hide | SecretChord/_elements.py:52-56 | `hide` makes the arch invisible and changes nothing else |
| Elements.Arch.Show | SecretChord/_elements.py:58-62 | `show` makes the arch visible and changes nothing else |
| Elements.Arch.AddAsDestination | SecretChord/_elements.py:179-188 | registering a destination is `d[ribbon] = amount`: a new ribbon is appended, a registered one keeps its place and takes the new amount; origins are unchanged and no ribbon is registered twice |
| Elements.Arch.AddAsOrigin | SecretChord/_elements.py:190-199 | the same for an origin, leaving destinations unchanged |
| Elements.Arch.GetOrder | SecretChord/_elements.py:201-210 | `get_order` divides by zero exactly when ribbons are registered and their amounts add up to zero; otherwise one share per origin and one per destination |
| Elements.Arch.AngleOf | SecretChord/_elements.py:212-238 | `get_angle` passes a division by zero on, and otherwise raises AttributeError exactly when the ribbon is not registered in the requested direction |
| Elements.Arch.GetAngle | SecretChord/_elements.py:212-238 | the cursor walk of `get_angle` returns what `AngleOf` describes |
| Elements.ArchSlotsOnArch | SecretChord/_elements.py:212-238 | with non-negative amounts every ribbon's slot lies between `start_angle` and `end_angle` |
| Elements.DestinationsBeforeOrigins | SecretChord/_elements.py:222-236 | every destination slot ends before any origin slot starts, so a self-loop gets two disjoint slots |
| Elements.FirstDestinationAtStart | SecretChord/_elements.py:221-233 | the first destination's slot starts at `start_angle` |
| Elements.LastOriginAtEnd | SecretChord/_elements.py:221-236 | the last origin's slot ends at `end_angle`: the slots fill the arch |
| Elements.Ribbon.constructor | SecretChord/_elements.py:317-341 | a new ribbon keeps its arches, radii, margins and options, has no patch, no bend centre and no centre |
| Elements.Ribbon.OriginRadius | SecretChord/_elements.py:346-354 | `origin_radius` falls back to the origin arch's radius when it was not given |
| Elements.Ribbon.DestinationRadius | SecretChord/_elements.py:360-368 | `destination_radius` falls back to the destination arch's radius when it was not given |
| Elements.Ribbon.Center | SecretChord/_elements.py:32-46 | the centre is (0, 0) until one is set |
| Elements.Ribbon.Bend | SecretChord/_elements.py:398-400 | the bend point is `bend_center`, or the centre when that is `None` |
| Elements.Ribbon.SetCenter | SecretChord/_elements.py:48-50 | setting the centre changes only the centre |
| Elements.Ribbon.Update | SecretChord/_elements.py:71-78 | `update` merges the options and changes nothing else |
| Elements.Ribbon.GetPath | SecretChord/_elements.py:397-414 | `get_path` builds the closed outline through the bend point (`ClosedRibbon`), or an IndexError for an empty start list |
| Elements.Ribbon.PatchPath | SecretChord/_elements.py:421-432 | the outline fails with the origin arch's error first, then the destination arch's, and succeeds only when the ribbon is registered as an origin on one and a destination on the other |
| Elements.Ribbon.Patch | SecretChord/_elements.py:416-434 | `patch` is built once from `PatchPath` and returned unchanged afterwards; a failure leaves no patch |
| Elements.FoldRotation | SecretChord/_elements.py:561-565 | above 90 and up to 270 degrees the rotation is the angle less 180, elsewhere the angle itself |
| Elements.Abs | SecretChord/_elements.py:561-564 | `abs` is non-negative and equal to `x` or `-x` |
| Elements.RotationUpright | SecretChord/_elements.py:556-565 | for an angle on the circle the folded rotation never turns the text upside down |
| Elements.LabelRotation | SecretChord/_elements.py:556-565 | no rotation exactly when `rotate` is off; an explicitly set angle wins; otherwise the folded angle |
| Elements.ArchLabel.constructor | SecretChord/_elements.py:473-497 | a new label has the defaults: rotate on, no arrow, arrow style "->", factors 1.2, rotation mode "anchor", no word limit, label gap 0.02 |
| Elements.ArchLabel.Radius | SecretChord/_elements.py:499-507 | the radius is the arch's radius plus `label_gap` unless set |
| Elements.ArchLabel.Angle | SecretChord/_elements.py:513-521 | the angle is the middle of the arch unless set |
| Elements.ArchLabel.Text | SecretChord/_elements.py:527-538 | the text is the arch key unless set |
| Elements.ArchLabel.Center | SecretChord/_elements.py:32-46 | the centre is (0, 0) until one is set |
| Elements.ArchLabel.Ha | SecretChord/_elements.py:544-549 | unless set, the alignment is "left" exactly right of the centre, "right" exactly left of it, "center" exactly on it |
| Elements.ArchLabel.Va | SecretChord/_elements.py:551-554 | the vertical alignment is "center" unless set |
| Elements.ArchLabel.Rotation | SecretChord/_elements.py:556-565 | none when `rotate` is off, the set angle when there is one, otherwise the folded label angle |
| Elements.ArchLabel.WrappedText | SecretChord/_elements.py:572-587 | `wrapped_text` wraps the label's text after every `wrap_words` words |
| Elements.ArchLabel.Update | SecretChord/_elements.py:71-78 | `update` merges the options; it may change only the options, so every other field, the arch snapshot included, stays |
| Elements.ArchLabel.GetConnectionStyle | SecretChord/_elements.py:589-593 | "angle3" exactly at 0 and 180 degrees; otherwise the angled style carries the label's angle |
| Layout.AddAmount | SecretChord/_base.py:67 | `amounts[k] += x` on a `defaultdict(int)`: a missing key starts at 0 and is appended to the keys, a present key keeps its place |
| Layout.AddAmountValid | SecretChord/_base.py:67-68 | `amounts[k] += x` keeps every key listed once |
| Layout.DiscoverFromEmpty | SecretChord/_base.py:69-72 | discovering entities from an empty order gives the order in which the flows first mention them |
| Layout.AppendFlow | SecretChord/_base.py:65-72 | one more `add_flow` takes the totals and the entity order one step further |
| Layout.TotalsKeys | SecretChord/_base.py:65-72 | the totals list each entity once, in the order the flows first mention it |
| Layout.TotalsAgree | SecretChord/_base.py:65-68 | an entity has a total exactly when a flow mentions it, and that total is the sum of its incident amounts, a self-loop counting twice |
| Layout.AddFlowAmount | SecretChord/_base.py:67-68 | one `add_flow` adds the flow's amount to `k`'s total once per end at `k`, creating the entry when needed |
| Layout.UnmentionedZero | SecretChord/_base.py:67-68 | an entity no flow mentions has a total of 0 |
| Layout.MentionsEnds | SecretChord/_base.py:65-68 | both ends of every flow are mentioned |
| Layout.FlowEndsLaidOut | SecretChord/_base.py:174-176 | both ends of every flow are in the layout order, so `all_arc[d[0]]` and `all_arc[d[1]]` never fail |
| Layout.RegistriesStep | SecretChord/_base.py:174-194 | one more flow adds its ribbon, with its amount, to its source's and its destination's registry only |
| Layout.RegisteredAreDrawn | SecretChord/_base.py:174-194 | only ribbons drawn for the flows are registered on an arch |
| Layout.DrawnAreRegistered | SecretChord/_base.py:192-193 | the ribbon of every flow is registered, with the flow's amount, at its source and at its destination |
| Layout.RegisteredTotal | SecretChord/_base.py:174-194 | the amounts registered on an arch in both directions add up to that entity's total |
| Layout.SumValuesAppend | SecretChord/_base.py:174-194 | the amounts of two registries appended add up to the sum of each |
| Layout.Filter | SecretChord/_base.py:80 | `[x for x in order if x in keys]` holds exactly the entries of `order` that are keys |
| Layout.Extend | SecretChord/_base.py:81-83 | appending the missing keys yields everything in `tmp` or in `keys` |
| Layout.OrderCovers | SecretChord/_base.py:78-84 | the `order` property holds every entity with a total and nothing else |
| Layout.FilterDistinct | SecretChord/_base.py:80 | filtering an order without repeats gives no repeats |
| Layout.AppendNewDistinct | SecretChord/_base.py:69-72 | appending only absent entities keeps the order without repeats |
| Layout.ExtendDistinct | SecretChord/_base.py:81-83 | appending only missing keys keeps the list without repeats |
| Layout.OrderDistinct | SecretChord/_base.py:78-84 | an order without repeats gives a layout order without repeats, so no entity gets two arches |
| Layout.FilterAll | SecretChord/_base.py:80 | filtering an order whose entries are all keys changes nothing |
| Layout.ExtendAll | SecretChord/_base.py:81-83 | when every key is already listed nothing is appended |
| Layout.DiscoveredLayoutOrder | SecretChord/_base.py:65-84 | while the order is never set, the layout order is the order in which the flows first mention each entity |
| Layout.BuildOrder | SecretChord/_base.py:78-84 | the loops of the `order` property build `LayoutOrder` |
| Layout.GatherAmounts | SecretChord/_base.py:122-126 | the loop reads the total of every entity of the layout order, a missing one reading 0 |
| Layout.ArcWidths | SecretChord/_base.py:127-137 | too large a gap (`gap * count >= max_angle`) is a ValueError raised before the division; otherwise the widths divide by zero exactly when there are totals adding up to zero, and there is one width per total |
| Layout.ArcWidthsShare | SecretChord/_base.py:136-137 | each width times the sum of the totals is its total times what the gaps leave of `max_angle` |
| Layout.ArcWidthsFill | SecretChord/_base.py:128-137 | the widths and the gaps together take up exactly `max_angle` |
| Layout.ArcWidthsNonNegative | SecretChord/_base.py:136-137 | with non-negative totals no arch has a negative width |
| Layout.Wrap360 | SecretChord/_base.py:170-171 | the cursor is left alone below 360 and brought into `[0, 360)` by whole turns once it reaches 360 |
| Layout.Turn | SecretChord/_base.py:170-171 | the wrapping takes off a whole number of turns |
| Layout.Unwrapped | SecretChord/_base.py:139-169 | without wrapping, arch `i` would start at `rotation` plus the widths and gaps before it |
| Layout.CursorUnwrapped | SecretChord/_base.py:139-171 | up to whole turns the cursor is `rotation` plus the widths and gaps of the earlier arches: the wrapping loses nothing but full circles |
| Layout.CursorInCircle | SecretChord/_base.py:139-171 | starting inside the circle with no negative width or gap, every arch starts in `[0, 360)` |
| Layout.ArchAt | SecretChord/_base.py:152-153 | each arch ends its width after it starts, at the track's radius |
| Layout.ArchLayoutNext | SecretChord/_base.py:146-171 | one more round of the arch loop stores the next entity with the arch from the cursor over its width |
| Layout.ArchLayoutKeys | SecretChord/_base.py:146-155 | after `n` rounds the arch dictionary has a key for exactly the first `n` entities |
| Layout.ArchLayoutDistinct | SecretChord/_base.py:146-171 | with each entity once, the arch dictionary lists entity `j` at position `j` with arch `j` |
| TestElements.Arch.constructor | SecretChord/test_elements.py:56-69 | a new arch keeps its radius, angles, height and options, is visible and has empty input and output registries |
| TestElements.Arch.Angle | SecretChord/test_elements.py:88-90 | `angle` is what takes `start_angle` to `end_angle` |
| TestElements.Arch.Center | SecretChord/test_elements.py:26-30 | the centre is (0, 0) until one is set |
| TestElements.Arch.SetCenter | SecretChord/_base.py:154 | the centre assignment of the `_base.py` arch loop, given a setter here (see "Left out"), changes only the centre |
| TestElements.Arch.Update | SecretChord/test_elements.py:42-43 | `update` merges the options, new keys winning, and changes nothing else |
| TestElements.Arch.Hide | SecretChord/test_elements.py:32-33 | `hide` makes the arch invisible and changes nothing else |
| TestElements.Arch.Show | SecretChord/test_elements.py:35-36 | `show` makes the arch visible and changes nothing else |
| TestElements.Arch.AddInputRibbon | SecretChord/test_elements.py:96-97 | `_input[ribbon] = amount`: a new ribbon is appended, a registered one keeps its place and takes the new amount; outputs unchanged, no ribbon twice |
| TestElements.Arch.AddOutputRibbon | SecretChord/test_elements.py:99-100 | the same for the outputs, inputs unchanged |
| TestElements.Arch.GetOrder | SecretChord/test_elements.py:102-107 | `get_order` divides by zero exactly when ribbons are registered and their amounts add up to zero; otherwise one share per input and one per output |
| TestElements.Arch.AngleOf | SecretChord/test_elements.py:109-127 | `get_angle` passes a division by zero on, and otherwise raises AttributeError exactly when the ribbon is not registered in the requested direction |
| TestElements.Arch.GetAngle | SecretChord/test_elements.py:109-127 | the cursor walk over the registry returns exactly the slot or the error `AngleOf` describes |
| TestElements.ArchSlotsOnArch | SecretChord/test_elements.py:109-127 | with non-negative amounts every ribbon's slot lies between `start_angle` and `end_angle` |
| TestElements.InputsBeforeOutputs | SecretChord/test_elements.py:111-125 | every input slot ends before any output slot starts |
| TestElements.FirstInputAtStart | SecretChord/test_elements.py:110-122 | the first input's slot starts at `start_angle` |
| TestElements.LastOutputAtEnd | SecretChord/test_elements.py:110-125 | the last output's slot ends at `end_angle`: the slots fill the arch |
| TestElements.Ribbon.constructor | SecretChord/test_elements.py:131-143 | a new ribbon keeps its arches, radii, margins and options and has no patch |
| TestElements.Ribbon.StartRadius | SecretChord/test_elements.py:145-149 | `start_radius` falls back to the start arch's radius |
| TestElements.Ribbon.EndRadius | SecretChord/test_elements.py:155-159 | `end_radius` falls back to the end arch's radius |
| TestElements.Ribbon.Center | SecretChord/test_elements.py:26-30 | the centre is (0, 0) until one is set |
| TestElements.Ribbon.SetCenter | SecretChord/_base.py:189 | the centre assignment of the `_base.py` ribbon loop, given a setter here (see "Left out"), changes only the centre |
| TestElements.Ribbon.Update | SecretChord/test_elements.py:42-43 | `update` merges the options and changes nothing else |
| TestElements.Ribbon.GetPath | SecretChord/test_elements.py:187-202 | the static `get_path` builds the closed outline with both bend points at (0, 0) |
| TestElements.Ribbon.PatchPath | SecretChord/test_elements.py:204-216 | the outline looks the ribbon up as an input of its start arch, then as an output of its end arch, and fails with the first error met |
| TestElements.Ribbon.Patch | SecretChord/test_elements.py:204-218 | `patch` is built once from `PatchPath` and returned unchanged afterwards |
| TestElements.RegisteredNoDirectionError | SecretChord/test_elements.py:207-208 | a ribbon registered as an input of its start arch and an output of its end arch never meets the "wrong direction" error |
| TestElements.HalfTurn | SecretChord/test_elements.py:285-289 | from 90 up to, but not including, 270 degrees the rotation is the angle less 180, elsewhere the angle itself |
| TestElements.HalfTurnUpright | SecretChord/test_elements.py:280-289 | for a label angle in [0, 360) the rotation lies in [-90, 90) or [270, 360): the text reads left to right, never upside down |
| TestElements.ArchLabel.constructor | SecretChord/test_elements.py:222-241 | a new label has the defaults: rotate on, no arrow, arrow style "->", factors 1.2, rotation mode "anchor" |
| TestElements.ArchLabel.Radius | SecretChord/test_elements.py:243-247 | the radius is 1.02 times the arch's radius unless set |
| TestElements.ArchLabel.Angle | SecretChord/test_elements.py:253-258 | the angle is the middle of the arch unless set |
| TestElements.ArchLabel.Text | SecretChord/test_elements.py:264-268 | the text is the arch key unless set |
| TestElements.ArchLabel.Ha | SecretChord/test_elements.py:270-273 | unless set, the alignment follows the sign of `x`: "left" exactly for positive, "right" exactly for negative, "center" exactly for zero |
| TestElements.ArchLabel.Va | SecretChord/test_elements.py:275-278 | the vertical alignment is "center" unless set |
| TestElements.ArchLabel.Rotation | SecretChord/test_elements.py:280-289 | no rotation exactly when `rotate` is off, the set angle when there is one, otherwise the turned label angle |
| TestElements.ArchLabel.Update | SecretChord/test_elements.py:42-43 | `update` merges the options; it may change only the options, so every other field stays |
| TestElements.ArchLabel.GetConnectionStyle | SecretChord/test_elements.py:296-298 | always the angled style, bent to the given angle |
| TestElements.PutNewValue | SecretChord/test_elements.py:456 | storing a new arch keeps every arch under one entity |
| TestElements.NewArchAndLabel | SecretChord/test_elements.py:454-461 | one round of the arch loop creates an arch from the cursor over its width, unregistered and with the track's style, and a label for it with the track's settings |
| TestElements.LaidOutStep | SecretChord/test_elements.py:456 | storing arch `i` under its entity extends the laid-out geometry by one round |
| TestElements.StoreStep | SecretChord/test_elements.py:456-462 | storing an arch and its label under the same entity keeps one entry per entity, no arch under two entities, and each label on its entity's arch |
| TestElements.Advance | SecretChord/test_elements.py:463-465 | `current += amount[i] + gap`, wrapped once past 360, moves the cursor from arch `i` to arch `i + 1` |
| TestElements.FreshStep | SecretChord/test_elements.py:456-462 | storing a new unregistered arch and its label keeps the new objects in the state the arch loop leaves them |
| TestElements.ArchRound | SecretChord/test_elements.py:451-465 | one round of the arch loop extends what the loop has built by entity `i` and moves the cursor on; the arch is new and unregistered, the label new and set for its entity |
| TestElements.NoArchesYet | SecretChord/test_elements.py:444-447 | before the first round nothing is laid out and the cursor is at `rotation` |
| TestElements.BuildArches | SecretChord/test_elements.py:444-465 | the arch loop lays out one new arch per entity from the cursor, each with a new label set with the track's arrow, rotation and label options, and leaves every arch unregistered |
| TestElements.RibbonsBuiltStep | SecretChord/test_elements.py:482-485 | the key `f"{d}-{len(all_ribbons)}"` of flow `j` is new, so storing its ribbon appends it |
| TestElements.SameArch | SecretChord/test_elements.py:468-469 | with one entity per arch, an arch is an entity's exactly when it is stored under that entity |
| TestElements.RegisterOutput | SecretChord/test_elements.py:483 | `a2.add_output_ribbon(rb, d[2])` adds the flow to the outputs of its destination's arch only |
| TestElements.RegisterInput | SecretChord/test_elements.py:484 | `a1.add_input_ribbon(rb, d[2])` adds the flow to the inputs of its source's arch only |
| TestElements.RegisterFlow | SecretChord/test_elements.py:483-484 | both arches of the flow's ends take its ribbon; every other arch's registries stay as they were |
| TestElements.StoreRibbon | SecretChord/test_elements.py:482-485 | the new ribbon of flow `j` is registered at both ends and appended under its key |
| TestElements.RibbonRound | SecretChord/test_elements.py:467-485 | one round of the ribbon loop builds the ribbon between the arches of the flow's ends, registers it and stores it |
| TestElements.RegisterRibbons | SecretChord/test_elements.py:467-485 | the ribbon loop builds one new ribbon per flow, in flow order, registered at both of its ends |
| TestElements.GeneratedIntro | SecretChord/test_elements.py:444-489 | the arch loop and the ribbon loop together, with the labels as the arch loop set them, give what `generate_elements` promises |
| TestElements.ReadyForRibbons | SecretChord/test_elements.py:468-469 | every flow end has an arch, so `all_arc[d[0]]` and `all_arc[d[1]]` never fail |
| TestElements.NothingRegistered | SecretChord/test_elements.py:456 | new arches have empty registries |
| TestElements.Generate | SecretChord/test_elements.py:427-489 | `generate_elements` fails exactly when the widths do (ValueError for too large a gap, ZeroDivisionError for zero totals); otherwise it lays out new arches, ribbons and labels, each label on its entity's arch with the track's arrow, rotation and label options |
| TestElements.LaidOutKeyHasTotal | SecretChord/test_elements.py:430-432 | every entity that gets an arch has a total |
| TestElements.LaidOutArchTotals | SecretChord/test_elements.py:467-485 | the amounts registered on each arch, as inputs and outputs, add up to its entity's total |
| TestElements.LaidOutRibbon | SecretChord/test_elements.py:467-485 | the ribbon of flow `n` is stored under its key, joins the arches of its ends, is registered there with its amount and never meets the "wrong direction" error |
| TestElements.LaidOutGeometry | SecretChord/test_elements.py:451-465 | with each entity once, arch `j` is entity `j`'s, from the cursor of round `j` over its width |
| TestElements.LaidOutAngles | SecretChord/test_elements.py:428-465 | arch `j` belongs to entity `j` of the layout order and covers width `j`, the share of that entity's own total |
| TestElements.AddedOrder | SecretChord/test_elements.py:371-390 | a track that only had flows added lays its arches out in the order the flows first mention them, each once |
| TestElements.Track.constructor | SecretChord/test_elements.py:341-369 | a new track has no flows, no order, no elements and the default settings |
| TestElements.Track.AddFlow | SecretChord/test_elements.py:371-378 | `add_flow` appends the flow, adds its amount to both ends' totals and appends each end not yet in the order |
| TestElements.Track.AddData | SecretChord/test_elements.py:380-382 | `add_data` is `add_flow` of every flow in turn |
| TestElements.Track.Order | SecretChord/test_elements.py:384-390 | the `order` property holds exactly the entities with a total, each once when the order has no repeats |
| TestElements.Track.SetOrder | SecretChord/test_elements.py:392-394 | the `order` setter replaces the order |
| TestElements.Track.ArchDict | SecretChord/test_elements.py:396-401 | the `arch` property raises ValueError exactly before the first generation |
| TestElements.Track.RibbonDict | SecretChord/test_elements.py:403-408 | the `ribbons` property raises ValueError exactly before the first generation |
| TestElements.Track.LabelDict | SecretChord/test_elements.py:410-415 | the `arch_labels` property raises ValueError exactly before the first generation |
| TestElements.Track.GenerateElements | SecretChord/test_elements.py:427-489 | on success the three dictionaries hold the arches, ribbons and labels laid out from the current flows, order and settings, labels set with the label settings; on an error nothing changes |
| TestElements.Track.GetArch | SecretChord/test_elements.py:491-494 | generates only when nothing was generated, failing as `generate_elements` does and otherwise leaving its elements, then looks the entity up, a KeyError when it has no arch |
| TestElements.Track.GetRibbon | SecretChord/test_elements.py:496-500 | the same for the ribbon stored under `f"{entry}-{index}"`, generating first in the same way |
| TestElements.Track.GetArchLabel | SecretChord/test_elements.py:502-505 | the same for an entity's label, generating first in the same way |
| TestElements.Track.UpdateArch | SecretChord/test_elements.py:507-508 | the arch options are merged, new keys winning |
| TestElements.Track.UpdateRibbons | SecretChord/test_elements.py:510-511 | the ribbon options are merged, new keys winning |
| TestElements.Track.UpdateArchLabels | SecretChord/test_elements.py:513-514 | the label options are merged, new keys winning |
| TrackBase.MappedText | SecretChord/_base.py:163-164 | an entity has a mapped text exactly when it is a key of `_arch_label_mapping`, and then it is the mapped value |
| TrackBase.NewArchAndLabel | SecretChord/_base.py:150-167 | one round of the arch loop creates an arch from the cursor over its width, centred, unregistered and with the track's style, and a label with the track's arrow, rotation, wrapping, gap, centre, options and mapped text |
| TrackBase.LabelsLaidOutStep | SecretChord/_base.py:157-168 | storing label `i` under its entity extends the laid-out label geometry by one round, in step with the arches |
| TrackBase.FreshStep | SecretChord/_base.py:152-168 | storing a new unregistered arch and its ready label keeps the new objects in the state the arch loop leaves them |
| TrackBase.BuiltStep | SecretChord/_base.py:155-171 | storing the arch of the slot at the cursor and its label under entity `i`, with the cursor moved on, is round `i + 1` built |
| TrackBase.ArchRound | SecretChord/_base.py:146-171 | one round of the arch loop extends what the loop has built by entity `i` and moves the cursor on; the arch is new and unregistered, the label new and ready for its entity |
| TrackBase.NoArchesYet | SecretChord/_base.py:139-142 | before the first round nothing is laid out and the cursor is at `rotation` |
| TrackBase.BuildArches | SecretChord/_base.py:139-171 | the arch loop lays out one new centred arch per entity from the cursor, each with a new label ready for its entity, and leaves every arch unregistered |
| TrackBase.LabelOfRound | SecretChord/_base.py:157-168 | with each entity once, label `j` is entity `j`'s, on the arch of round `j`, with the track's wrapping and gap, and carries the mapped text exactly when the entity is mapped |
| TrackBase.NewRibbon | SecretChord/_base.py:183-189 | the ribbon of a flow joins the two arches, takes its radii from them, has the track's margins and ribbon options and the track's centre |
| TrackBase.RibbonRound | SecretChord/_base.py:174-194 | one round of the ribbon loop builds the ribbon between the arches of the flow's ends, registers it as an output of the destination arch and an input of the source arch, and appends it under its key |
| TrackBase.RegisterRibbons | SecretChord/_base.py:174-194 | the ribbon loop builds one new ribbon per flow, in flow order, registered at both of its ends |
| TrackBase.GeneratedIntro | SecretChord/_base.py:139-198 | the arch loop and the ribbon loop together, with the labels as the arch loop left them, give what `generate_elements` promises |
| TrackBase.Generate | SecretChord/_base.py:121-198 | `generate_elements` fails exactly when the widths over `max_angle` do (ValueError for too large a gap, ZeroDivisionError for zero totals); otherwise it lays out new arches, ribbons and labels, each label on its entity's arch with the track's label settings and the mapped text |
| TrackBase.GeneratedLabel | SecretChord/_base.py:157-168 | with each entity once, label `j` of a generation belongs to entity `j`, keeps the geometry of arch `j` and carries the mapped text when entity `j` is mapped, no text otherwise |
| TrackBase.Track.constructor | SecretChord/_base.py:21-55 | a new track has no flows, no order, no elements, no label mapping and the default settings (gap 5, `max_angle` 360, margins 0.05, label gap 0.02) |
| TrackBase.Track.SetRadius | SecretChord/_base.py:61-63 | the `radius` setter changes only the radius |
| TrackBase.Track.AddFlow | SecretChord/_base.py:65-72 | `add_flow` appends the flow, adds its amount to both ends' totals and appends each end not yet in the order |
| TrackBase.Track.AddData | SecretChord/_base.py:74-76 | `add_data` is `add_flow` of every flow in turn |
| TrackBase.Track.Order | SecretChord/_base.py:78-84 | the `order` property holds exactly the entities with a total, each once when the order has no repeats |
| TrackBase.Track.SetOrder | SecretChord/_base.py:86-88 | the `order` setter replaces the order |
| TrackBase.Track.ArchDict | SecretChord/_base.py:90-95 | the `arch` property raises ValueError exactly before the first generation |
| TrackBase.Track.RibbonDict | SecretChord/_base.py:97-102 | the `ribbons` property raises ValueError exactly before the first generation |
| TrackBase.Track.LabelDict | SecretChord/_base.py:104-109 | the `arch_labels` property raises ValueError exactly before the first generation |
| TrackBase.Track.GenerateElements | SecretChord/_base.py:121-198 | on success the three dictionaries hold the arches, ribbons and labels laid out from the current flows, order, settings and label mapping, labels ready under that mapping; on an error nothing changes |
| TrackBase.Track.GetArch | SecretChord/_base.py:200-203 | generates only when nothing was generated, failing as `generate_elements` does and otherwise leaving its elements, then looks the entity up, a KeyError when it has no arch |
| TrackBase.Track.GetRibbon | SecretChord/_base.py:205-209 | the same for the ribbon stored under `f"{data_entry}-{index}"`, generating first in the same way |
| TrackBase.Track.GetArchLabel | SecretChord/_base.py:211-214 | the same for an entity's label, generating first in the same way |
| TrackBase.Track.UpdateArch | SecretChord/_base.py:216-217 | the arch options are merged, new keys winning |
| TrackBase.Track.UpdateRibbons | SecretChord/_base.py:219-220 | the ribbon options are merged, new keys winning |
| TrackBase.Track.UpdateArchLabels | SecretChord/_base.py:222-223 | the label options are merged, new keys winning |
| TrackBase.Track.MapArchLabels | SecretChord/_base.py:225-226 | the mapping replaces the previous one; `GenerateElements` lays out the next labels under the current mapping |
| Chord.AppendTo | SecretChord/base.py:222-223 | `k[key].append(x)` on a `defaultdict(list)` adds `key` at the end of the keys exactly when it is new |
| Chord.AppendToGet | SecretChord/base.py:222-223 | appending to the list of `key` appends `x` to that list and leaves every other list as it was |
| Chord.SumsOf | SecretChord/base.py:225 | the sums dictionary has the keys of the lists, in their order |
| Chord.LengthsOf | SecretChord/base.py:224 | the lengths dictionary has the keys of the lists, in their order |
| Chord.IncidentsKeys | SecretChord/base.py:220-223 | the lists are keyed by the entities in the order the flows first mention them |
| Chord.Ends | SecretChord/base.py:222-223 | one flow adds its amount to the list of `k` once per end at `k` |
| Chord.IncidentsLast | SecretChord/base.py:221-223 | one more flow adds its ends to the lists and creates a list only for an end not met before |
| Chord.IncidentsMention | SecretChord/base.py:220-223 | `k` has a list exactly when some flow mentions it |
| Chord.IncidentsAgree | SecretChord/base.py:220-225 | the list of `k` adds up to the total amount of the flows at `k`, a flow from `k` to itself counting twice |
| Chord.IncidentsCount | SecretChord/base.py:220-224 | the list of `k` holds one amount per flow end at `k` |
| Chord.GetSumsOf | SecretChord/base.py:224-225 | looking a key up after summing or counting every list gives that list's sum or length, and nothing for a key without a list |
| Chord.AmountsAgree | SecretChord/base.py:219-225 | `amount[k]` is the total of `k` and `no_of_ribbons[k]` the number of flow ends at `k`, for exactly the entities the flows mention, in the order they are first met |
| Chord.IncidentsDistinct | SecretChord/base.py:220-223 | no entity has two lists |
| Chord.AmountsDistinct | SecretChord/base.py:224-225 | `amount` and `no_of_ribbons` have one entry per entity and are empty exactly when there is no flow |
| Chord.AmountsKeys | SecretChord/base.py:288-293 | both ends of every flow have an entry in `amount` and `no_of_ribbons`, so the lookups of `ribbons` never fail |
| Chord.GenerateAmount | SecretChord/base.py:219-225 | the loop of `_generate_amount` computes exactly `Amounts` and `Counts` |
| Chord.StartsUpTo | SecretChord/base.py:247-250 | `agl_start` holds one entry per arch placed so far |
| Chord.EndsUpTo | SecretChord/base.py:247-250 | `agl_end` holds one entry per arch placed so far |
| Chord.PlacedAt | SecretChord/base.py:247-251 | entry `i` of the placed arches is keyed by the `i`-th entity, starts at the cursor before it and ends its share of 360 degrees further on |
| Chord.ArchKeys | SecretChord/base.py:243-253 | `arch_start` and `arch_end` have the keys of `amount`, in its order |
| Chord.ArchesInTurn | SecretChord/base.py:246-251 | arch `i` spans `v * 360 / total` degrees and the next one starts `gap * 360 / total` degrees after it ends |
| Chord.Widths | SecretChord/base.py:249 | one width per arch |
| Chord.WidthsSum | SecretChord/base.py:242-249 | the arches together take the amounts' share of the circle |
| Chord.AngleCursorPassed | SecretChord/base.py:245-251 | the cursor before arch `i` has passed the first `i` arches and the gap after each |
| Chord.CircleCloses | SecretChord/base.py:241-246 | with `total = gap * n + sum`, the arches and the gaps after them add up to 360 degrees |
| Chord.CursorGoesRound | SecretChord/base.py:245-251 | after the last arch and its gap the cursor stands a full turn on |
| Chord.AnglesGoRound | SecretChord/base.py:239-253 | the first arch starts at `starting_angle` and the gap after the last ends at `starting_angle + 360`: the arches go round exactly once, never wrapped below 360 |
| Chord.LayOutAngles | SecretChord/base.py:240-253 | the loop of `_generate_angles` divides by zero exactly when the total is zero, and otherwise computes `ArchStarts` and `ArchEnds` |
| Chord.Slot | SecretChord/base.py:179-184 | the slot `get_angles` takes is `fraction` of the arch's available angle wide |
| Chord.SlotPastEnd | SecretChord/base.py:179-184 | on an arch of positive angle, a slot ends past the arch's end exactly when `used + fraction > 1`, and at its end exactly when it is 1 |
| Chord.PartOf | SecretChord/base.py:179-184 | the `i`-th ribbon's part of a fresh arch is its fraction wide |
| Chord.Gaps | SecretChord/base.py:81-82 | gaps of non-negative width take a non-negative share, of positive width a positive one |
| Chord.GapsTimes | SecretChord/base.py:81-82 | `k` ribbon gaps take `gap * k` of the arch |
| Chord.UsedAfterSum | SecretChord/base.py:81-82 | after `update` for each fraction the cursor has moved on by all the fractions and one ribbon gap per fraction |
| Chord.PartsApart | SecretChord/base.py:179-184 | the first part starts at the beginning of the arch and each next part starts one ribbon gap after the previous ends |
| Chord.LastPartEnd | SecretChord/base.py:179-184 | the last part ends the sum of the fractions plus one gap fewer than the parts along the arch |
| Chord.WrittenFraction | SecretChord/base.py:292-297 | as written, the fraction divides by zero exactly when the inflated total is zero, and otherwise is `x` over `total + gaps * total` |
| Chord.Fraction | SecretChord/base.py:292-297 | corrected: the fraction divides by zero exactly when the total is zero, and otherwise is `x / total` of what the gaps leave of the arch |
| Chord.FractionErrorsAsWritten | SecretChord/base.py:292-297 | with gaps of non-negative share, the correction fails on exactly the inputs the code as written fails on |
| Chord.WrittenShares | SecretChord/base.py:296-297 | as written, share `i` is the fraction of amount `i` |
| Chord.Shares | SecretChord/base.py:296-297 | corrected, share `i` is the fraction of amount `i` |
| Chord.SharesFill | SecretChord/base.py:292-297 | corrected shares and their gaps add up to the whole arch |
| Chord.WrittenSharesOverfill | SecretChord/base.py:292-297 | the shares as written and their gaps add up to `1 / (1 + gaps) + gaps`, more than the whole arch as soon as the gaps take a positive share |
| Chord.GapShareTimes | SecretChord/base.py:292-293 | the gaps' share of an arch with `count` flow ends is `ribbon_gap * (count - 1)` |
| Chord.HandedTimes | SecretChord/base.py:187-188 | a flow whose ends at `k` take their amount times `c` hands out at `k` its amounts there times `c` |
| Chord.ConsumedTimes | SecretChord/base.py:187-188 | when every flow takes its amount times `c` of arch `k`, the arch hands out its list of amounts times `c`, in drawing order |
| Chord.SharesTimes | SecretChord/base.py:296-297 | the corrected shares are the amounts times one factor |
| Chord.WrittenSharesTimes | SecretChord/base.py:296-297 | the shares as written are the amounts times one factor |
| Chord.ConsumedShares | SecretChord/base.py:287-297 | flows taking corrected fractions hand out arch `k`'s list of amounts as corrected shares |
| Chord.ConsumedWritten | SecretChord/base.py:287-297 | flows taking fractions as written hand out arch `k`'s list of amounts as written shares |
| Chord.ListFilled | SecretChord/base.py:290-297 | with corrected shares the last ribbon on an arch ends exactly at the arch's end |
| Chord.ListOverfilled | SecretChord/base.py:290-297 | with shares as written the last ribbon on an arch with two or more flow ends ends past the arch's end |
| Chord.ArchFilled | SecretChord/base.py:287-297 | flows taking the corrected fractions of arch `k` fill it exactly: the last slot ends at the arch's end |
| Chord.WrittenArchOverflows | SecretChord/base.py:287-297 | flows taking the fractions as written run past the end of arch `k` as soon as two flow ends share it |
| Chord.OverflowExample | SecretChord/base.py:290-297 | two flows of 1 out of `a`: each takes `1 / 2.1` of arch `a` and the second ends `2 / 2.1 + 0.05` along it, past its end |
| ChordObjects.Arch.constructor | SecretChord/base.py:51-58 | a new arch keeps its angles and options, has ribbon gap 0.05, its cursor at 0, no radius or width of its own and no wedge |
| ChordObjects.Arch.Radius | SecretChord/base.py:23-27 | the radius is 2 unless set |
| ChordObjects.Arch.Width | SecretChord/base.py:39-43 | the width is 0.3 unless set |
| ChordObjects.Arch.AvailableAngle | SecretChord/base.py:67-69 | `available_angle` is what takes `start` to `end` |
| ChordObjects.Arch.Angle | SecretChord/base.py:71-72 | `angle(fraction)` reaches the point dividing the arch in proportion `fraction` |
| ChordObjects.Arch.WedgeOf | SecretChord/base.py:74-79 | `wedge` raises AttributeError exactly before `draw`, otherwise gives the drawn wedge |
| ChordObjects.Arch.Update | SecretChord/base.py:81-82 | `update(used)` moves the cursor on by `used` and one ribbon gap |
| ChordObjects.Arch.Draw | SecretChord/base.py:84-88 | `draw` keeps the wedge of the whole arch at its radius and width, after which `wedge` succeeds |
| ChordObjects.Ribbon.constructor | SecretChord/base.py:92-105 | a new ribbon keeps its slot angles, end gaps and options, with no radius, band or path of its own |
| ChordObjects.Ribbon.Radius | SecretChord/base.py:23-27 | the radius is 2 unless set |
| ChordObjects.Ribbon.Band | SecretChord/base.py:107-111 | `gap`, the band the ends are sampled in, is 0.2 unless set |
| ChordObjects.Ribbon.PointsArc | SecretChord/base.py:124-126 | `get_points` samples the wedge from `start` to `end` whose outer edge lies `gap` plus the band inside the ribbon's radius, as wide as the band |
| ChordObjects.Ribbon.PathOf | SecretChord/base.py:117-122 | `path` raises AttributeError exactly before `draw`, otherwise gives the drawn outline |
| ChordObjects.Ribbon.Draw | SecretChord/base.py:146-165 | `draw` keeps the closed outline through (0, 0) of the sampled start and end slots; with no start point it fails with IndexError and keeps nothing |
| ChordObjects.Flow.constructor | SecretChord/base.py:169-177 | a new flow keeps its arches, fractions, radius and options |
| ChordObjects.Flow.GetAngles | SecretChord/base.py:179-184 | the slot starts where the arch's cursor stands and is `used` of the arch wide; the cursor then moves past it and one ribbon gap |
| ChordObjects.Flow.Draw | SecretChord/base.py:186-193 | the slot on the first arch, then on the second (after the first when both are the same arch), and a new ribbon between them with the flow's radius and the arches' widths as end gaps |
| ChordObjects.LookupGet | SecretChord/base.py:288-293 | a dictionary lookup succeeds exactly when the key is present, and gives its value |
| ChordObjects.LookupAt | SecretChord/base.py:288-289 | in a dictionary without repeated keys, the key of an entry finds that entry |
| ChordObjects.SameKeysLookup | SecretChord/base.py:271-273 | a dictionary with the keys of `amount` in the same order finds at the `i`-th entity its own `i`-th entry |
| ChordObjects.ArchPlaced | SecretChord/base.py:271-275 | placing the arch of the `i`-th entity from its start to its end extends the placed arches by one |
| ChordObjects.FlowEnds | SecretChord/base.py:288-295 | for every record both ends have an arch with the standard ribbon gap, a total and a count, so the lookups of `ribbons` succeed |
| ChordObjects.FlowPlacedAt | SecretChord/base.py:298-300 | storing the flow of the next record under its key extends the placed flows by one |
| ChordObjects.PlacedNoZeroEnd | SecretChord/base.py:294-297 | once every flow is placed, no end had a zero total to divide by |
| ChordObjects.FractionsOf | SecretChord/base.py:299-300 | the fractions each stored flow takes of its source and of its destination |
| ChordObjects.FlowsFillArch | SecretChord/base.py:283-302 | drawing the flows `ribbons` builds (with the corrected fraction) fills every arch with a nonzero total exactly: the last slot ends where the arch ends |
| ChordObjects.ChordDiagram.constructor | SecretChord/base.py:197-207 | a new diagram keeps its records, has no gap, radius or caches of its own and starts at angle 0 |
| ChordObjects.ChordDiagram.Gap | SecretChord/base.py:209-213 | the gap is 0.1 unless set |
| ChordObjects.ChordDiagram.SetGap | SecretChord/base.py:215-217 | the setter replaces the gap and keeps every cache valid |
| ChordObjects.ChordDiagram.GenerateAmount | SecretChord/base.py:219-225 | `_generate_amount` caches exactly the totals and counts of the records |
| ChordObjects.ChordDiagram.Amount | SecretChord/base.py:227-231 | `amount` gives every entity's total, computed once |
| ChordObjects.ChordDiagram.NoOfRibbons | SecretChord/base.py:233-237 | `no_of_ribbons` gives every entity's number of flow ends, computed once |
| ChordObjects.ChordDiagram.GenerateAngles | SecretChord/base.py:239-253 | `_generate_angles` lays the arches out once; it divides by zero exactly when the total is zero, and otherwise caches `ArchStarts` and `ArchEnds` of the totals |
| ChordObjects.ChordDiagram.StoreAngles | SecretChord/base.py:252-253 | keeping the angles laid out with the current gap and starting angle keeps the caches valid |
| ChordObjects.ChordDiagram.ArchStart | SecretChord/base.py:255-259 | `arch_start` gives the cached starts, or lays them out, failing exactly when the total is zero |
| ChordObjects.ChordDiagram.ArchEnd | SecretChord/base.py:261-265 | `arch_end` gives the cached ends, or lays them out, failing exactly when the total is zero |
| ChordObjects.ChordDiagram.Arches | SecretChord/base.py:267-277 | `arch` is built once; it fails exactly when there is an entity, no angles are kept and the total is zero |
| ChordObjects.ChordDiagram.BuildArches | SecretChord/base.py:270-276 | the loop of `arch` places one new arch per entity, in the order of the totals, from its start to its end, with the diagram's radius |
| ChordObjects.ChordDiagram.NewArch | SecretChord/base.py:272-274 | `Arch(start, end)` with the diagram's radius is a new arch with the default settings |
| ChordObjects.ChordDiagram.StoreArches | SecretChord/base.py:276 | keeping the placed arches keeps the caches valid |
| ChordObjects.ChordDiagram.GetKey | SecretChord/base.py:279-281 | `get_key` raises ValueError exactly for a record not among the data, and otherwise uses the position of the record's first occurrence |
| ChordObjects.ChordDiagram.GetKeyOfRibbon | SecretChord/base.py:279-298 | `get_key` of record `i` is the key `ribbons` stores its flow under exactly when no earlier record is the same triple |
| ChordObjects.ChordDiagram.Ribbons | SecretChord/base.py:283-302 | `ribbons` is built once; it fails exactly when there are records and either the arches' angles divide by zero or some flow end has a zero total |
| ChordObjects.ChordDiagram.PlaceRibbons | SecretChord/base.py:285-301 | the first `ribbons` with records: the arches, then one flow per record at the corrected shares, failing on the same conditions |
| ChordObjects.ChordDiagram.BuildFlows | SecretChord/base.py:286-300 | the loop of `ribbons` fails exactly when some record has an end with a zero total, and otherwise places one flow per record at the corrected shares |
| ChordObjects.ChordDiagram.PlaceFlow | SecretChord/base.py:288-300 | one turn of the loop fails exactly when the record has an end with a zero total, and otherwise gives a new flow between its ends' arches, taking the corrected share of each |
| ChordObjects.ChordDiagram.StoreRibbons | SecretChord/base.py:301 | keeping the placed flows keeps the caches valid |

## Left out

- Colours: `Palette().cycle()` comes from an external colour library. The option maps of generated arches, ribbons and labels therefore leave out `fc`, `color` and `arch_label_colored`, and the `arch_colors` property is not modelled.
- Arc sampling: matplotlib's `Wedge.get_path().iter_segments()` is not modelled. Each `get_points` is the caller-supplied `sampler` applied to the wedge it would sample, and only the effective-radius arithmetic is stated.
- Drawing: the `draw` methods and the Wedge, PathPatch and Annotation objects are rendering. A drawn wedge or patch is kept as a value (the wedge geometry, or the outline and options). `hide_ribbons` and `hide_arch_labels` only affect drawing.
- Label placement: `ArchLabel.get_xy`, `get_arrow_props`, `_regular`, `_with_arrow` and `annotation` use cosine and sine over floats. `Ha` takes the abscissa as a parameter.
- Floating point: angles and amounts are exact reals, and `% 360` is the real remainder. The error-free results hold for exact arithmetic, not for IEEE rounding.
- `SecretChord/objects.py`, `SecretChord/__init__.py`, `main.py` and `setup.py` are not part of this model: a plotting demo, a styling facade over an `Assembler` class that is not part of this model, a random demo and packaging.
- `__repr__` methods and the `wedge` cache of the `_elements.py` arch are not modelled. Only their formatting or drawing depends on them.
- ChordObjects.ChordDiagram.constructor: reassigning `data` or `radius` after construction is not modelled; both are fixed at construction. The flows kept by `ribbons` carry the radius of their construction.
- ChordObjects.ChordDiagram.Ribbons: uses the corrected fraction of the Findings below, not the fraction as written, and does not state that the flows are new objects (`BuildFlows` and `PlaceFlow` do).
- ChordObjects.ChordDiagram.Arches: the freshness and radius of the arches are stated on `BuildArches`, not on `Arches`.
- ChordObjects.ChordDiagram.Ribbons: reads the angles and arches once before the ribbon loop, and the totals from the cache. The code reads the same values through its cached properties on every round.
- TestElements.RibbonRound: states the ends, key and registration of each new ribbon, but not its margins and options after the ribbon loop. `TestElements.NewArchAndLabel` and `TrackBase.NewRibbon` state the options of each new object.
- TrackBase.RibbonRound: the same as `TestElements.RibbonRound`.
- TestElements.Track.GenerateElements: the three caches `_arch`, `_ribbons` and `_arch_labels` are one optional field. The code only ever sets the three together, in `generate_elements`.
- TrackBase.Track.GenerateElements: the same single cache field.
- TestElements.Arch.SetCenter: the `center` of `SecretChord/test_elements.py` is a read-only property (lines 26-30), so `a.center = self.center` at `SecretChord/_base.py:154` would raise an AttributeError on those arches. The model gives them a setter so that `TrackBase` can run its arch loop.
- TestElements.Ribbon.SetCenter: the same for `rb.center = self.center` at `SecretChord/_base.py:189`.
- TrackBase.Generate: `SecretChord/_base.py` imports the `_elements.py` classes, whose `Ribbon` takes `origin_radius=` and not `start_radius=`, so the ribbon construction at `SecretChord/_base.py:183-187` raises a TypeError as written, once the first flow is reached. The model follows the arch and ribbon interface of `SecretChord/test_elements.py`, which that code calls.
- ChordObjects.ChordDiagram.PlaceFlow: uses the corrected fraction of the Findings below, not `d[2] / s_total` as written at `SecretChord/base.py:294-297`. `Chord.WrittenArchOverflows` models the fraction as written.
- ChordObjects.ChordDiagram.BuildFlows: the same corrected fraction as `PlaceFlow`.
- ChordObjects.ChordDiagram.PlaceRibbons: the same corrected fraction as `PlaceFlow`.
- Elements.ArchLabel.constructor: keeps its arch's geometry (radius, start and end angles, height) as a value taken at construction. The geometry fields are constants in `Elements.Arch`, `TestElements.Arch` and `ChordObjects.Arch` (whose `ribbonGap` is one as well), so reassigning an arch's `radius`, `start_angle`, `end_angle` or `height` (or `start` and `end` in `SecretChord/base.py`) after construction, and a label seeing that change, are not modelled.
- ChordObjects.ChordDiagram.GetKey: a key is the record and its index, not the text `f"{d[0]}-{d[1]}-{d[2]}-{i}"`. Amounts are reals, so `3` and `3.0` are the same amount here. In the code they format differently: with flows `[("a", "b", 3)]`, `get_key(("a", "b", 3.0))` gives `"a-b-3.0-0"`, which is not the stored key `"a-b-3-0"`.

## Findings

| source | as written | input that shows it | evidently intended | confidence | as-written member | corrected member |
|---|---|---|---|---|---|---|
| SecretChord/base.py:290-297 | each flow takes `d[2] / (amount + ribbon_gap * (count - 1) * amount)` of an arch, so the shares add up to `1 / (1 + g)` and, with the gaps `g = ribbon_gap * (count - 1)` between them, to `1 / (1 + g) + g > 1`: the last ribbon on an arch with two or more flow ends runs past the arch's end | flows `[("a", "b", 1), ("a", "c", 1)]`: each takes `1 / 2.1` of arch `a`, and the second ends `2 / 2.1 + 0.05` along it | shares of `d[2] * (1 - g) / amount`, so that the shares and the gaps fill the arch exactly | not executed | Chord.WrittenArchOverflows | Chord.ArchFilled |
