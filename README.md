# ScalePlayer musical-time and editor core, in Dafny

ScalePlayer is an iOS app for writing and practising musical scales. This project models its
core:

- **Grid positions.** `ScaleNotePosition` is an exact mixed-radix time value `bar.beat.subbeat.cent`
  (4 beats per bar, 4 subbeats per beat, 240 cents per subbeat). The model covers its `+`, `-`
  and `<`, its bar test, `beats()`, `description`, hashing, and the note-value reading that the
  grid uses to style lines.
- **Notes.** `ScaleNote` and the test helper `ScaleBuilder`, which strings notes together behind
  a cursor.
- **The scale edit grid.** The zoom levels and line styles. How a paint stroke becomes a note
  (`noteForGesture`) and the preview note drawn when the stroke begins. The pinch's zoom step.
  The loop that lays out the measure ruler.
- **The view models.**
  - The scale editor: note list, playback flag, name, save and cancel.
  - The routine editor: an ordered list of scale links, with move, remove and append, plus name
    and save.
  - The scale search picker: page query, selection set and hand-over.
  - The perform screen: transposition direction, auto-repeat, and stepping through a routine.

The modules follow the source files:
`Positions` and `PositionText` (ScaleNotePosition.swift), `Notes` (ScaleNote.swift),
`Builder` (ScaleBuilder.swift), `EditGrid` (ScaleEditView+Types.swift), `EditView`
(ScaleEditView.swift), `ScaleEdit`, `RoutineEdit`, `ScaleSearch` and `PerformScale` (the view
models). `Wrappers` holds `Option`, and `Collections` holds the no-repetition predicate the
routine and search lists share.

Integers are unbounded. Swift's truncating `/` is written out as `Positions.TruncDiv`.

Objects whose fields the source updates in place are Dafny classes. These are the builder, the
measure grid and the four view models. The MIDI player, the Core Data context, the data stores
and the responders are outside the model:

- each call made on them is recorded in a sequence field (`playerCommands`, `completions`,
  `contextSaves`, `queries`, `handedOver`);
- each answer they give is a parameter. A fetch that may throw is an `Option`, the duplicate-name
  check is a `bool`, and the note-name lookup is a function.

Scales are values (`ScaleEdit.StoredScale`) in the scale editor and the perform screen. The
routine editor and the search picker take the scale type as a parameter `S`. A routine's
scale link (`RoutineEdit.RoutineScale`) is an object compared by identity, as a Core Data object
is.

`Description` (`"\(bar).\(beat)…"`) is paired with a parser,
`ParseDescription`, which exists only to state that a description determines its position.

## Model

| member | source | states |
|---|---|---|
| Positions.TruncDiv | ScalePlayer/Source/Model/Scale/ScaleNotePosition.swift:22-30 | Swift's `/` on `Int`: the quotient rounds toward zero for either sign of the dividend |
| Positions.Add | ScalePlayer/Source/Model/Scale/ScaleNotePosition.swift:19-36 | `+` preserves the total value in cents. Every field below the bar ends up smaller than its radix in magnitude. Non-negative operands give a normalized, non-negative result |
| Positions.BorrowAsWritten | ScalePlayer/Source/Model/Scale/ScaleNotePosition.swift:46-52 | one borrow step of `-` as written: no borrow for a non-negative difference, and a correct one-unit borrow within one radix. Two or more units are borrowed at or beyond one radix |
| Positions.Sub | ScalePlayer/Source/Model/Scale/ScaleNotePosition.swift:44-79 | `-` as written never has a negative bar, and gives `zero` whenever the left operand is `<` the right |
| Positions.BorrowIntended | ScalePlayer/Source/Model/Scale/ScaleNotePosition.swift:46-70 | the intended borrow: it takes exactly as many units as bring the field into range, and keeps the value |
| Positions.SubIntended | ScalePlayer/Source/Model/Scale/ScaleNotePosition.swift:44-79 | corrected `-`: on normalized operands the result is normalized and is the exact difference in cents, saturating at zero |
| Positions.Beats | ScalePlayer/Source/Model/Scale/ScaleNotePosition.swift:184-188 | `beats()` is the value in whole subbeats, read in beats; the cents are dropped |
| Positions.NoteValueOf | ScalePlayer/Source/Model/Scale/ScaleNotePosition.swift:213-230 | `noteValue`, with each note type characterised by an if-and-only-if, in the source's order of checks. A length never reads as a double whole or a sixteenth |
| Positions.NoteDuration | ScalePlayer/Source/Model/Scale/ScaleNotePosition.swift:232-253 | `noteDuration` is normalized and non-negative, and reads back as its own note type, except that a double whole reads as whole and a sixteenth as nothing |
| Positions.NoteDurationFillsTwoBars | ScalePlayer/Source/Model/Scale/ScaleNotePosition.swift:232-253 | the note lengths halve step by step: `NotesPerTwoBars(t)` notes of type `t` fill exactly two bars |
| Positions.AddCommutes | ScalePlayer/Source/Model/Scale/ScaleNotePosition.swift:19-36 | `a + b == b + a` |
| Positions.AddZeroIdentity | ScalePlayer/Source/Model/Scale/ScaleNotePosition.swift:19-36 | `p + .zero == p` exactly when every field of `p` is within its radix, so it holds for normalized `p` |
| Positions.NormalizedUnique | ScalePlayer/Source/Model/Scale/ScaleNotePosition.swift:110-122 | two normalized positions with the same total value are equal |
| Positions.AddAssociative | ScalePlayer/Source/Model/Scale/ScaleNotePosition.swift:19-36 | `+` is associative on non-negative positions |
| Positions.Less | ScalePlayer/Source/Model/Scale/ScaleNotePosition.swift:89-106 | `<` compares bar, then beat, then subbeat, then cent. Its meaning is given by LessTrichotomy, LessTransitive and LessMatchesCents: on normalized positions it is the order of total values |
| Positions.LessTrichotomy | ScalePlayer/Source/Model/Scale/ScaleNotePosition.swift:89-106 | `<` is irreflexive and asymmetric, and total up to structural equality |
| Positions.LessTransitive | ScalePlayer/Source/Model/Scale/ScaleNotePosition.swift:89-106 | `<` is transitive |
| Positions.LessMatchesCents | ScalePlayer/Source/Model/Scale/ScaleNotePosition.swift:89-106 | on normalized positions, `<` is the order of total values |
| Positions.SubSelf | ScalePlayer/Source/Model/Scale/ScaleNotePosition.swift:44-79 | `p - p == .zero` for every `p` |
| Positions.SubZero | ScalePlayer/Source/Model/Scale/ScaleNotePosition.swift:44-79 | `p - .zero == p` for non-negative `p` |
| Positions.SubAgreesWhenSingleBorrow | ScalePlayer/Source/Model/Scale/ScaleNotePosition.swift:44-79 | on normalized operands, whenever no field borrows more than one unit (`SingleBorrows`: the subbeat and beat differences, less the borrow from below, stay above minus the radix), `-` as written equals the intended subtraction and so is exact |
| Positions.SubTwoUnitBeatBorrow | ScalePlayer/Source/Model/Scale/ScaleNotePosition.swift:44-79 | with equal cents, a beat difference of −3 plus a subbeat borrow makes the beat field borrow two units: the result has beat −4 and a bar two below the difference, or is zero when that bar is negative |
| Positions.SingleBorrowAgrees | ScalePlayer/Source/Model/Scale/ScaleNotePosition.swift:44-79 | for the source's radices (240 and 4), one borrow step as written equals the intended step whenever the deficit is smaller than the radix |
| Positions.SubMultiUnitBorrow | ScalePlayer/Source/Model/Scale/ScaleNotePosition.swift:55-61 | `1 - 0.0.3.1` as written is `0.2.-4.239`, a negative subbeat; the intended result is `0.3.0.239` |
| Positions.SubFloorsPositiveDifference | ScalePlayer/Source/Model/Scale/ScaleNotePosition.swift:64-75 | `1 - 0.3.1` as written is `zero`, although `0.3.1 < 1`; the intended result is three subbeats |
| Positions.BeatsIgnoreCent | ScalePlayer/Source/Model/Scale/ScaleNotePosition.swift:184-188 | `beats()` does not depend on the cent field |
| Positions.IsBarPosition | ScalePlayer/Source/Model/Scale/ScaleNotePosition.swift:123-126 | `isBarPosition`: beat, subbeat and cent are zero. BarPositionIsWholeBars shows that, on normalized positions, this means a whole number of bars |
| Positions.BarPositionIsWholeBars | ScalePlayer/Source/Model/Scale/ScaleNotePosition.swift:124-127 | a normalized position is a bar position exactly when its value is a whole number of bars |
| Positions.ModOfWholeBars | ScalePlayer/Source/Model/Scale/ScaleNotePosition.swift:124-127 | a whole number of bars plus a part bar leaves that part as its remainder |
| Positions.HashFeed | ScalePlayer/Source/Model/Scale/ScaleNotePosition.swift:203-208 | the four fields in the order `hash(into:)` combines them. HashFeedInjective shows that equal feeds mean equal positions and the converse |
| Positions.HashFeedInjective | ScalePlayer/Source/Model/Scale/ScaleNotePosition.swift:203-208 | the values `hash(into:)` feeds agree with structural equality, in both directions |
| Positions.AdditionExamples | ScalePlayer/Source/Model/Scale/ScaleNotePosition.swift:19-36 | 240 cents carry into a subbeat, `0.3.3.239 + 1 cent` is bar 1, and `0.4.0.0 + zero` normalizes to `1` although the two differ structurally |
| Positions.SubtractionExamples | ScalePlayer/Source/Model/Scale/ScaleNotePosition.swift:44-79 | `2.3.3.123 - 1.4.2.232 == 0.3.0.131`, and the reverse subtraction saturates at `zero` |
| PositionText.DigitChar | ScalePlayer/Source/Model/Scale/ScaleNotePosition.swift:191-201 | the digit character stands for its value |
| PositionText.NatToDecimal | ScalePlayer/Source/Model/Scale/ScaleNotePosition.swift:191-201 | a decimal numeral is non-empty and all digits |
| PositionText.IntToText | ScalePlayer/Source/Model/Scale/ScaleNotePosition.swift:191-201 | Swift's integer interpolation never produces the `.` separator |
| PositionText.ShownFields | ScalePlayer/Source/Model/Scale/ScaleNotePosition.swift:191-201 | `description` shows between one and four fields |
| PositionText.Texts | ScalePlayer/Source/Model/Scale/ScaleNotePosition.swift:191-201 | each shown field is interpolated on its own |
| PositionText.Split | ScalePlayer/Source/Model/Scale/ScaleNotePosition.swift:191-201 | splitting at `.` gives at least one part |
| PositionText.ParseFields | ScalePlayer/Source/Model/Scale/ScaleNotePosition.swift:191-201 | a successful parse gives one number per part |
| PositionText.DecimalRoundTrip | ScalePlayer/Source/Model/Scale/ScaleNotePosition.swift:191-201 | reading a decimal numeral back gives the number |
| PositionText.IntTextRoundTrip | ScalePlayer/Source/Model/Scale/ScaleNotePosition.swift:191-201 | an interpolated integer, negative ones included, parses back to itself |
| PositionText.NegativeTextRoundTrip | ScalePlayer/Source/Model/Scale/ScaleNotePosition.swift:191-201 | a minus sign before the digits of `n` parses back to `-n` |
| PositionText.SplitPlain | ScalePlayer/Source/Model/Scale/ScaleNotePosition.swift:191-201 | text without `.` is a single part |
| PositionText.SplitJoin | ScalePlayer/Source/Model/Scale/ScaleNotePosition.swift:191-201 | splitting `a.b` gives `a` and then the parts of `b` |
| PositionText.SplitOfJoin | ScalePlayer/Source/Model/Scale/ScaleNotePosition.swift:191-201 | joining dot-free parts with `.` and splitting again gives the parts back |
| PositionText.ParseFieldsOfTexts | ScalePlayer/Source/Model/Scale/ScaleNotePosition.swift:191-201 | the interpolated fields parse back to the fields |
| PositionText.Description | ScalePlayer/Source/Model/Scale/ScaleNotePosition.swift:191-201 | `description`: the shown fields in decimal, joined by dots. DescriptionRoundTrip shows it parses back to the position, and DescriptionInjective that it tells positions apart |
| PositionText.DescriptionRoundTrip | ScalePlayer/Source/Model/Scale/ScaleNotePosition.swift:191-201 | `description` loses nothing: parsing it gives back the position, for every position, negative and out-of-range fields included |
| PositionText.DescriptionInjective | ScalePlayer/Source/Model/Scale/ScaleNotePosition.swift:191-201 | different positions have different descriptions |
| PositionText.DescriptionExamples | ScalePlayer/Source/Model/Scale/ScaleNotePosition.swift:191-201 | trailing zero fields are dropped: `1`, `1.2`, `0.3.1` |
| PositionText.BorrowResultDescription | ScalePlayer/Source/Model/Scale/ScaleNotePosition.swift:191-201 | a position with a cent shows all four fields, a negative one with its minus sign: `0.2.-4.239` |
| Notes.EndPosition | ScalePlayer/Source/Model/Scale/ScaleNote.swift:39-42 | a note ends `duration` after its start, counted in cents |
| Notes.EndPositionInBeats | ScalePlayer/Source/Model/Scale/ScaleNote.swift:39-42 | `endPositionInBeats()` is the start plus the length in beats when neither has cents, and is never before the start for non-negative fields |
| Notes.EndNotBeforeStart | ScalePlayer/Source/Model/Scale/ScaleNote.swift:39-42 | adding a non-negative length never moves the position back in beats |
| Notes.NoteHashFeed | ScalePlayer/Source/Model/Scale/ScaleNote.swift:44-49 | the note number, velocity, position and duration in the order `hash(into:)` combines them. NoteHashFeedInjective shows it agrees with equality in both directions |
| Notes.NoteHashFeedInjective | ScalePlayer/Source/Model/Scale/ScaleNote.swift:44-49 | the note's hash feed agrees with structural equality, in both directions |
| Notes.EndExample | ScalePlayer/Source/Model/Scale/ScaleNote.swift:39-42 | a two-beat note on beat 1 ends on beat 3, at 3.0 beats |
| Builder.AdvancedCents | ScalePlayer/Source/Audio/ScaleBuilder.swift:17-33 | the cursor's value is the sum of every length it advanced by |
| Builder.AdvancedMonotone | ScalePlayer/Source/Audio/ScaleBuilder.swift:17-33 | with non-negative lengths, the cursor never moves back |
| Builder.ScaleBuilder.constructor | ScalePlayer/Source/Audio/ScaleBuilder.swift:12-15 | the builder starts at zero with a one-beat length and no notes |
| Builder.ScaleBuilder.Rest | ScalePlayer/Source/Audio/ScaleBuilder.swift:17-20 | `rest()` advances the cursor by the current length, adds no note and keeps every note's placement |
| Builder.ScaleBuilder.Play | ScalePlayer/Source/Audio/ScaleBuilder.swift:22-33 | `play(_:)` appends a velocity-60 note of the current length at the cursor, then advances the cursor |
| Builder.ScaleBuilder.Duration | ScalePlayer/Source/Audio/ScaleBuilder.swift:35-38 | `duration(beat:subbeat:)` sets the length of later notes and rests |
| Builder.NotesInSequence | ScalePlayer/Source/Audio/ScaleBuilder.swift:17-33 | in any valid builder that was never given a negative length (the constructor sets `lengthsNonNegative`, `rest` and `play` keep it, `duration` clears it on a negative length), each note ends no later than any later note starts |
| Builder.ThreeNoteFixture | ScalePlayer/Source/Audio/ScaleBuilder.swift:22-33 | three `play` calls give one-beat notes on beats 0, 1 and 2, which `NotesInSequence` shows do not overlap |
| Builder.RestFixture | ScalePlayer/Source/Audio/ScaleBuilder.swift:17-38 | a two-beat rest after a one-beat note puts the next note on beat 3, after the first one ends |
| EditGrid.ZoomNoteValue | ScalePlayer/Source/Scales/Edit/ScaleEditView+Types.swift:131-141 | a zoom level's note type is never a double whole, and its length reads back as that type, except for sixteenths |
| EditGrid.ZoomedIn | ScalePlayer/Source/Scales/Edit/ScaleEditView+Types.swift:144-154 | zooming in is undefined only at sixty-fourth notes, and doubles the raw value |
| EditGrid.ZoomedOut | ScalePlayer/Source/Scales/Edit/ScaleEditView+Types.swift:157-167 | zooming out is undefined only at whole notes, and halves the raw value |
| EditGrid.RenderingMeasureTexts | ScalePlayer/Source/Scales/Edit/ScaleEditView+Types.swift:170-198 | the labelled note types are a non-empty prefix of whole, half, quarter, eighth, sixteenth |
| EditGrid.RawValue | ScalePlayer/Source/Scales/Edit/ScaleEditView+Types.swift:114-128 | the enum's raw values 1 to 64. RawValueInjective shows they tell the levels apart, and ZoomStepFillsBar that this many notes of the level's type fill a bar |
| EditGrid.RawValueInjective | ScalePlayer/Source/Scales/Edit/ScaleEditView+Types.swift:114-128 | distinct zoom levels have distinct raw values |
| EditGrid.ZoomStepFillsBar | ScalePlayer/Source/Scales/Edit/ScaleEditView+Types.swift:114-141 | `rawValue` notes of a level's note type fill exactly one bar |
| EditGrid.ZoomRoundTrip | ScalePlayer/Source/Scales/Edit/ScaleEditView+Types.swift:144-167 | zooming in and out undo each other wherever they are defined, in both orders |
| EditGrid.RenderingTextsGrow | ScalePlayer/Source/Scales/Edit/ScaleEditView+Types.swift:170-198 | zooming in never removes a ruler label: each level's list is a prefix of the next level's |
| EditGrid.LineFor | ScalePlayer/Source/Scales/Edit/ScaleEditView+Types.swift:72-80 | the inner switch of `GridLine(from:)`, from note type to line style, with no style for other types. GridLineFrom states the resulting styles per position |
| EditGrid.GridLineFrom | ScalePlayer/Source/Scales/Edit/ScaleEditView+Types.swift:69-85 | `GridLine(from:)` fails exactly where `noteValue` does. It gives the bar style exactly at bar positions and the half style exactly at beat 2, and never the default or the sixteenth style |
| EditView.WithoutCent | ScalePlayer/Source/Scales/Edit/ScaleEditView.swift:234-235 | zeroing the cent keeps `beats()`, keeps normalization, and never moves a normalized position later |
| EditView.Sorted2 | ScalePlayer/Source/Scales/Edit/ScaleEditView.swift:228-234 | `positions.sort()` on two positions returns them in order, as a permutation of the pair |
| EditView.WithoutCentMonotone | ScalePlayer/Source/Scales/Edit/ScaleEditView.swift:234-235 | zeroing the cents keeps two ordered positions in order |
| EditView.NoteForGesture | ScalePlayer/Source/Scales/Edit/ScaleEditView.swift:225-250 | the stroke's note has velocity 90 and starts at the earlier of the two cent-zeroed ends. Its length is never zero and never has a negative bar |
| EditView.BeganPreviewNote | ScalePlayer/Source/Scales/Edit/ScaleEditView.swift:404-421 | the preview note has the row's pitch and velocity 90, starts at the touched position with its cent zeroed, keeping its beats, and lasts one subbeat |
| EditView.PreviewIsTap | ScalePlayer/Source/Scales/Edit/ScaleEditView.swift:225-250 | a stroke that ends where it began draws exactly the preview note |
| EditView.GestureCoversStroke | ScalePlayer/Source/Scales/Edit/ScaleEditView.swift:225-250 | on normalized positions, for every stroke that is not a `MisdrawnStroke`, the note ends at the later cent-zeroed end, or one subbeat after the start for a tap. Single-borrow strokes such as 0.0.3 → 1 are included |
| EditView.GestureMissesStroke | ScalePlayer/Source/Scales/Edit/ScaleEditView.swift:225-250 | the converse: for a `MisdrawnStroke` (sorted ends with a beat difference of −3, a subbeat borrow, and not the one-bar stroke from subbeat 3 to subbeat 0) the note does not end where the stroke does |
| EditView.StrokeEnd | ScalePlayer/Source/Scales/Edit/ScaleEditView.swift:239-246 | with an exact, normalized difference as its length, the stroke note ends at the later end, or one subbeat after the start when the ends coincide |
| EditView.GestureQuirkExample | ScalePlayer/Source/Scales/Edit/ScaleEditView.swift:239-243 | dragging from `0.3.1` to `1` spans three subbeats, yet as written it draws a one-subbeat note |
| EditView.NoteForGestureIntended | ScalePlayer/Source/Scales/Edit/ScaleEditView.swift:225-250 | `noteForGesture` with the intended subtraction keeps every guarantee of the as-written version |
| EditView.GestureCoversStrokeIntended | ScalePlayer/Source/Scales/Edit/ScaleEditView.swift:225-250 | with the intended subtraction every stroke over normalized positions is covered, with no borrow restriction |
| EditView.GestureIntendedExample | ScalePlayer/Source/Scales/Edit/ScaleEditView.swift:239-243 | with the intended subtraction, the `0.3.1` to `1` stroke draws the three-subbeat note |
| EditView.Repeated | ScalePlayer/Source/Scales/Edit/ScaleEditView.swift:688-725 | the ruler loop's `linePosition`: zero, then the step added once per pass. RepeatedCents and RepeatedNormalized state its value and form |
| EditView.LinePosition | ScalePlayer/Source/Scales/Edit/ScaleEditView.swift:688-725 | the position of the `k`-th measure line, `k` note lengths of the zoom level from zero. LinePositionCents states its value in cents and that it is normalized |
| EditView.RepeatedCents | ScalePlayer/Source/Scales/Edit/ScaleEditView.swift:685-726 | after `k` steps the position is worth `k` steps in cents |
| EditView.RepeatedNormalized | ScalePlayer/Source/Scales/Edit/ScaleEditView.swift:685-726 | non-negative steps keep the line position normalized and non-negative |
| EditView.LinePositionCents | ScalePlayer/Source/Scales/Edit/ScaleEditView.swift:685-726 | the `k`-th measure line lies `k` note lengths from the start, normalized and non-negative |
| EditView.LinesIncrease | ScalePlayer/Source/Scales/Edit/ScaleEditView.swift:685-726 | measure lines run strictly left to right |
| EditView.WholeBarSteps | ScalePlayer/Source/Scales/Edit/ScaleEditView.swift:685-726 | `k` steps of a bar's `n`-th part make whole bars exactly when `n` divides `k` |
| EditView.LineIsBar | ScalePlayer/Source/Scales/Edit/ScaleEditView.swift:685-726 | exactly every `rawValue`-th measure line falls on a bar |
| EditView.LastLineClosesTheBars | ScalePlayer/Source/Scales/Edit/ScaleEditView.swift:685-726 | the last of the `barCount * rawValue + 1` lines is bar line `barCount` |
| EditView.MeasureLineAt | ScalePlayer/Source/Scales/Edit/ScaleEditView.swift:689-713 | a measure line sits at its position. It is styled default exactly where no note value is read, and as a bar exactly at bar positions. It carries a label exactly when its note value is among the zoom level's rendering texts |
| EditView.BeatTextReadsBack | ScalePlayer/Source/Scales/Edit/ScaleEditView.swift:710-713 | a ruler label (`"\(linePosition)"`) reads back as its line's position |
| EditView.BarLinesLabelled | ScalePlayer/Source/Scales/Edit/ScaleEditView.swift:700-713 | at every zoom level every bar line has the bar style and is labelled with its bar number |
| EditView.RulerPrefixExtend | ScalePlayer/Source/Scales/Edit/ScaleEditView.swift:689-724 | one pass of the measure loop extends the ruler by the line at the current position and its vertical line |
| EditView.BuildRuler | ScalePlayer/Source/Scales/Edit/ScaleEditView.swift:685-726 | the loop makes `lineCount + 1` lines. Line `k` is the measure line at the `k`-th line position, and vertical line `k` has its style |
| EditView.MeasureGrid.constructor | ScalePlayer/Source/Scales/Edit/ScaleEditView.swift:31 | the grid opens at quarter notes |
| EditView.MeasureGrid.ZoomIn | ScalePlayer/Source/Scales/Edit/ScaleEditView.swift:464-469 | a pinch in zooms in one level and asks for a redraw, except at thirty-second notes, which stay |
| EditView.MeasureGrid.ZoomOut | ScalePlayer/Source/Scales/Edit/ScaleEditView.swift:470-476 | a pinch out zooms out one level and asks for a redraw, except at whole notes, which stay |
| EditView.MeasureGrid.ResetMeasureViewsIfNeeded | ScalePlayer/Source/Scales/Edit/ScaleEditView.swift:665-730 | without a pending redraw nothing changes. Otherwise the ruler is rebuilt with `barCount * rawValue + 1` lines, each as `MeasureLineAt` says, with matching vertical lines |
| EditView.DefaultRulerFixture | ScalePlayer/Source/Scales/Edit/ScaleEditView.swift:685-726 | eight bars at quarter-note zoom give 33 lines, the last being bar line `8`, labelled "8" |
| ScaleEdit.RemoveAll | ScalePlayer/Source/Scales/Edit/ScaleEditViewModel.swift:133-137 | `removeAll { $0 == note }` leaves no copy of the note and keeps every other note with its count |
| ScaleEdit.RemoveAllAbsent | ScalePlayer/Source/Scales/Edit/ScaleEditViewModel.swift:133-137 | removing an absent note changes nothing |
| ScaleEdit.RemoveAllConcat | ScalePlayer/Source/Scales/Edit/ScaleEditViewModel.swift:133-137 | removal works piecewise on a concatenation, so order is kept |
| ScaleEdit.RemoveAllIdempotent | ScalePlayer/Source/Scales/Edit/ScaleEditViewModel.swift:133-137 | removing twice is removing once |
| ScaleEdit.Ends | ScalePlayer/Source/Scales/Edit/ScaleEditViewModel.swift:69-70 | `notes.map { $0.position + $0.duration }`, index by index |
| ScaleEdit.MinPosition | ScalePlayer/Source/Scales/Edit/ScaleEditViewModel.swift:71-72 | the first element after the ascending sort is a least element of the list |
| ScaleEdit.MaxPosition | ScalePlayer/Source/Scales/Edit/ScaleEditViewModel.swift:68-73 | a greatest element of the list |
| ScaleEdit.LastBarOf | ScalePlayer/Source/Scales/Edit/ScaleEditViewModel.swift:68-73 | `lastBar` as written: 0 without notes, otherwise the bar of an end position that no other end precedes |
| ScaleEdit.LastBarIntended | ScalePlayer/Source/Scales/Edit/ScaleEditViewModel.swift:68-73 | corrected `lastBar`: 0 without notes, otherwise the bar of an end position that no other end follows |
| ScaleEdit.LastBarIntendedBounds | ScalePlayer/Source/Scales/Edit/ScaleEditViewModel.swift:68-73 | with normalized ends, no note ends in a bar after the corrected `lastBar` |
| ScaleEdit.LastBarTakesEarliestEnd | ScalePlayer/Source/Scales/Edit/ScaleEditViewModel.swift:68-73 | notes ending in bars 1 and 3: as written `lastBar` is 1, and the corrected one is 3 |
| ScaleEdit.ScaleEditViewModel.constructor | ScalePlayer/Source/Scales/Edit/ScaleEditViewModel.swift:84-95 | a stored scale supplies the name, title and notes. A new one opens with an empty name, the title "<new scale>", no notes and eight bars |
| ScaleEdit.ScaleEditViewModel.LastBar | ScalePlayer/Source/Scales/Edit/ScaleEditViewModel.swift:68-73 | the view model's `lastBar` is the as-written rule applied to its notes |
| ScaleEdit.ScaleEditViewModel.SetName | ScalePlayer/Source/Scales/Edit/ScaleEditViewModel.swift:50-54 | setting `name` sets `title` too, and nothing else |
| ScaleEdit.ScaleEditViewModel.TogglePlay | ScalePlayer/Source/Scales/Edit/ScaleEditViewModel.swift:106-114 | the flag flips, and the player is stopped if it was playing and otherwise plays the notes |
| ScaleEdit.ScaleEditViewModel.ClearSequence | ScalePlayer/Source/Scales/Edit/ScaleEditViewModel.swift:117-119 | the note list empties and nothing else changes |
| ScaleEdit.ScaleEditViewModel.AddNote | ScalePlayer/Source/Scales/Edit/ScaleEditViewModel.swift:121-123 | the note is appended and nothing else changes |
| ScaleEdit.ScaleEditViewModel.AddMeasure | ScalePlayer/Source/Scales/Edit/ScaleEditViewModel.swift:125-127 | one more bar, at least eight throughout |
| ScaleEdit.ScaleEditViewModel.RemoveNote | ScalePlayer/Source/Scales/Edit/ScaleEditViewModel.swift:133-137 | the notes become `RemoveAll` of the old notes |
| ScaleEdit.ScaleEditViewModel.EditingCompleted | ScalePlayer/Source/Scales/Edit/ScaleEditViewModel.swift:193-198 | the session always ends, and the responder hears of the scale only if it was updated |
| ScaleEdit.ScaleEditViewModel.Save | ScalePlayer/Source/Scales/Edit/ScaleEditViewModel.swift:139-154 | without a name nothing changes. Otherwise the scale (created if absent) takes the name and notes, the context is saved once, and the responder gets it as the session ends |
| ScaleEdit.ScaleEditViewModel.Cancel | ScalePlayer/Source/Scales/Edit/ScaleEditViewModel.swift:156-158 | `cancel` is `editingCompleted` |
| ScaleEdit.ScaleEditViewModel.UpdateName | ScalePlayer/Source/Scales/Edit/ScaleEditViewModel.swift:176-191 | a duplicate name is ignored. Otherwise the name and title change, and only an existing scale, with a non-empty name, is renamed and saved |
| ScaleEdit.ScaleEditViewModel.NoteUpdated | ScalePlayer/Source/Scales/Edit/ScaleEditViewModel.swift:213-219 | the playing note is the indexed note, or none for a negative index |
| ScaleEdit.ScaleEditViewModel.PlaybackStopped | ScalePlayer/Source/Scales/Edit/ScaleEditViewModel.swift:225-229 | a completed pass clears the playing note; an interrupted one keeps it |
| ScaleEdit.EditSessionFixture | ScalePlayer/Source/Scales/Edit/ScaleEditViewModel.swift:106-137 | drawing two notes and erasing the first leaves the second, and toggling play twice ends stopped |
| RoutineEdit.RoutineScale.constructor | ScalePlayer/Source/Routines/Edit/RoutineEditViewModel.swift:133-135 | a new link points at its scale |
| RoutineEdit.ScalesOf | ScalePlayer/Source/Routines/Edit/RoutineEditViewModel.swift:131-138 | the scales behind a list of links, index by index |
| RoutineEdit.RemovedAt | ScalePlayer/Source/Routines/Edit/RoutineEditViewModel.swift:65-67 | `remove(at: i)` drops exactly element `i`: the elements before keep their places and those after shift down by one |
| RoutineEdit.InsertedAt | ScalePlayer/Source/Routines/Edit/RoutineEditViewModel.swift:62 | `insert(x, at: i)` puts `x` at `i` and shifts the elements from `i` up by one |
| RoutineEdit.RemovedAtMultiset | ScalePlayer/Source/Routines/Edit/RoutineEditViewModel.swift:65-67 | a removal drops exactly one occurrence of the removed element |
| RoutineEdit.Moved | ScalePlayer/Source/Routines/Edit/RoutineEditViewModel.swift:59-63 | `remove(at: source)` followed by `insert(_:at: destination)`. MovedPermutation and MovedElements state what this does to the list, and MoveBack that it can be undone |
| RoutineEdit.MovedPermutation | ScalePlayer/Source/Routines/Edit/RoutineEditViewModel.swift:59-63 | a move keeps the length and the multiset of elements, and puts the moved element at the destination |
| RoutineEdit.MovedElements | ScalePlayer/Source/Routines/Edit/RoutineEditViewModel.swift:59-63 | where each element ends up: the elements between source and destination shift one place towards the source, and the rest stay |
| RoutineEdit.MoveBack | ScalePlayer/Source/Routines/Edit/RoutineEditViewModel.swift:59-63 | moving back from the destination to the source restores the list |
| RoutineEdit.MoveAndRemoveExamples | ScalePlayerTests/RoutineEditViewModelTests.swift:105-117 | moving 0 to 2 in `[a,b,c]` gives `[b,c,a]`, and removing 1 gives `[a,c]` |
| RoutineEdit.MovedDistinct | ScalePlayer/Source/Routines/Edit/RoutineEditViewModel.swift:59-63 | a move keeps a list free of repetitions |
| RoutineEdit.RemovedDistinct | ScalePlayer/Source/Routines/Edit/RoutineEditViewModel.swift:65-67 | a removal keeps a list free of repetitions |
| RoutineEdit.RoutineEditViewModel.constructor | ScalePlayer/Source/Routines/Edit/RoutineEditViewModel.swift:45-57 | a stored routine supplies the name, title and links. A new one opens with an empty name, the title "<New Routine>" and no links |
| RoutineEdit.RoutineEditViewModel.MoveScale | ScalePlayer/Source/Routines/Edit/RoutineEditViewModel.swift:59-63 | the links become the moved list, still without repetitions, and nothing else changes |
| RoutineEdit.RoutineEditViewModel.RemoveScale | ScalePlayer/Source/Routines/Edit/RoutineEditViewModel.swift:65-67 | the links lose exactly the indexed one, and nothing else changes |
| RoutineEdit.RoutineEditViewModel.UpdateName | ScalePlayer/Source/Routines/Edit/RoutineEditViewModel.swift:83-90 | the name and title always change. Only an existing routine, with a non-empty name, is renamed and saved, and marked updated |
| RoutineEdit.RoutineEditViewModel.EditingCompleted | ScalePlayer/Source/Routines/Edit/RoutineEditViewModel.swift:100-105 | the session always ends, and the responder hears of the routine only if it was updated |
| RoutineEdit.RoutineEditViewModel.Save | ScalePlayer/Source/Routines/Edit/RoutineEditViewModel.swift:109-121 | without a name nothing is saved and the session stays open. Otherwise a routine with the name and links is saved once and handed over, and the session ends. The model's own routine changes only if one existed, and the updated flag is left alone |
| RoutineEdit.RoutineEditViewModel.Cancel | ScalePlayer/Source/Routines/Edit/RoutineEditViewModel.swift:123-125 | `cancel` is `editingCompleted` |
| RoutineEdit.RoutineEditViewModel.ScalesSelected | ScalePlayer/Source/Routines/Edit/RoutineEditViewModel.swift:131-138 | one new link per chosen scale is appended after the existing links, in the order given, and the list stays free of repetitions |
| RoutineEdit.EditListFixture | ScalePlayerTests/RoutineEditViewModelTests.swift:85-117 | three selected scales, then removing index 1, give `[a,c]`; moving 0 to 2 gives `[b,c,a]` |
| RoutineEdit.NewRoutineNameFixture | ScalePlayerTests/RoutineEditViewModelTests.swift:34-57 | naming a new routine saves nothing. `save` then saves once, hands over a routine with that name and ends the session |
| Collections.TwiceCounted | ScalePlayer/Source/Routines/Edit/RoutineEditViewModel.swift:116 | an element at two indices is counted at least twice |
| Collections.DistinctCount | ScalePlayer/Source/Routines/Edit/RoutineEditViewModel.swift:116 | without repetitions every element is counted at most once |
| Collections.DistinctPermutation | ScalePlayer/Source/Routines/Edit/RoutineEditViewModel.swift:116 | a rearrangement of a list without repetitions has none either |
| Collections.DistinctAppend | ScalePlayer/Source/Routines/Edit/RoutineEditViewModel.swift:137 | appending an element not yet present keeps a list without repetitions |
| ScaleSearch.PageQuery | ScalePlayer/Source/Routines/Edit/ScaleSearchViewModel.swift:47-57 | `loadPage` searches by text exactly when the search text is non-empty, with that text, and otherwise fetches all |
| ScaleSearch.Toggled | ScalePlayer/Source/Routines/Edit/ScaleSearchViewModel.swift:63-67 | the toggled scale is selected exactly when it was not, and no other scale's selection changes |
| ScaleSearch.ToggleTwice | ScalePlayer/Source/Routines/Edit/ScaleSearchViewModel.swift:63-67 | toggling the same scale twice restores the selection |
| ScaleSearch.ArrayOf | ScalePlayer/Source/Routines/Edit/ScaleSearchViewModel.swift:70 | `Array(selectedScales)` holds each element of the set exactly once, in some order |
| ScaleSearch.ScaleSearchViewModel.constructor | ScalePlayer/Source/Routines/Edit/ScaleSearchViewModel.swift:19-21 | empty search text, no scales and no selection |
| ScaleSearch.ScaleSearchViewModel.Count | ScalePlayer/Source/Routines/Edit/ScaleSearchViewModel.swift:43-45 | `count`, a plain definition: the number of scales on the page. `LoadPage` says when the page changes, and `ScaleAt` reads its rows below `Count()` |
| ScaleSearch.ScaleSearchViewModel.ScaleAt | ScalePlayer/Source/Routines/Edit/ScaleSearchViewModel.swift:59-61 | `scaleAt(row:)` is the scale on that row of the page |
| ScaleSearch.ScaleSearchViewModel.LoadPage | ScalePlayer/Source/Routines/Edit/ScaleSearchViewModel.swift:47-57 | the fetch chosen by `PageQuery` is issued. Its answer replaces the page, and a failed fetch keeps the old page and is reported once |
| ScaleSearch.ScaleSearchViewModel.ToggleScaleSelection | ScalePlayer/Source/Routines/Edit/ScaleSearchViewModel.swift:63-67 | the selection becomes `Toggled` of the old one, and nothing else changes |
| ScaleSearch.ScaleSearchViewModel.AddScales | ScalePlayer/Source/Routines/Edit/ScaleSearchViewModel.swift:69-71 | the responder gets exactly the selected scales, each once |
| ScaleSearch.SearchFixture | ScalePlayer/Source/Routines/Edit/ScaleSearchViewModel.swift:47-67 | typing text and then clearing it issues a text search and then a full fetch. A failed fetch keeps the page, and a double toggle leaves nothing selected |
| PerformScale.NextEnabled | ScalePlayer/Source/Scales/Perform/PerformScaleViewModel.swift:61-76 | the next button is enabled exactly when there is a routine, an index, and another scale after it |
| PerformScale.LastScaleDisablesNext | ScalePlayer/Source/Scales/Perform/PerformScaleViewModel.swift:61-76 | within a routine, the button is disabled exactly on the last scale |
| PerformScale.TranspositionAfter | ScalePlayer/Source/Scales/Perform/PerformScaleViewModel.swift:130-131 | `n` key changes move by `n` semitones up, or by `n` down |
| PerformScale.PerformScaleViewModel.constructor | ScalePlayer/Source/Scales/Perform/PerformScaleViewModel.swift:80-89 | a single scale plays without a routine, index or next button. The direction is up, auto-repeat is on, the transposition is 0, and the tempo is 120, forwarded to the player |
| PerformScale.PerformScaleViewModel.FromRoutine | ScalePlayer/Source/Scales/Perform/PerformScaleViewModel.swift:91-101 | a routine shows the next button and starts at its first scale, with that scale's tempo forwarded to the player. The button is enabled exactly when a second scale exists |
| PerformScale.PerformScaleViewModel.SetCurrentScaleIndex | ScalePlayer/Source/Scales/Perform/PerformScaleViewModel.swift:61-76 | the index's `didSet`: with a routine it selects the indexed scale and forwards its tempo, and the next button follows `NextEnabled` |
| PerformScale.PerformScaleViewModel.ToggleRepeat | ScalePlayer/Source/Scales/Perform/PerformScaleViewModel.swift:110-112 | auto-repeat flips, and nothing else changes |
| PerformScale.PerformScaleViewModel.TogglePlay | ScalePlayer/Source/Scales/Perform/PerformScaleViewModel.swift:114-128 | a playing player is stopped, and otherwise it plays the current scale's notes |
| PerformScale.PerformScaleViewModel.ToggleTransposeDirection | ScalePlayer/Source/Scales/Perform/PerformScaleViewModel.swift:122-124 | the direction is negated and stays `1` or `-1` |
| PerformScale.PerformScaleViewModel.ChangeKeyAndPlay | ScalePlayer/Source/Scales/Perform/PerformScaleViewModel.swift:130-138 | the transposition moves one step in the current direction, and one delayed play is scheduled |
| PerformScale.PerformScaleViewModel.Swipe | ScalePlayer/Source/Scales/Perform/PerformScaleViewModel.swift:140-146 | a swipe against the direction only turns it round. A swipe along it changes the key by that direction |
| PerformScale.PerformScaleViewModel.Stop | ScalePlayer/Source/Scales/Perform/PerformScaleViewModel.swift:148-151 | the player is told to stop |
| PerformScale.PerformScaleViewModel.Close | ScalePlayer/Source/Scales/Perform/PerformScaleViewModel.swift:153-155 | closing stops the player |
| PerformScale.PerformScaleViewModel.NoteUpdated | ScalePlayer/Source/Scales/Perform/PerformScaleViewModel.swift:157-167 | a non-negative index becomes the current note index, named by its pitch. A negative one clears the index and shows "-" |
| PerformScale.PerformScaleViewModel.NextScale | ScalePlayer/Source/Scales/Perform/PerformScaleViewModel.swift:169-174 | the index advances by one and selects that scale and its tempo. The button is enabled exactly when yet another scale follows |
| PerformScale.PerformScaleViewModel.TempoDidChange | ScalePlayer/Source/Scales/Perform/PerformScaleViewModel.swift:185-187 | the new tempo is kept and forwarded to the player |
| PerformScale.PerformScaleViewModel.PlaybackBegan | ScalePlayer/Source/Scales/Perform/PerformScaleViewModel.swift:191-193 | the screen shows playing |
| PerformScale.PerformScaleViewModel.PlaybackStopped | ScalePlayer/Source/Scales/Perform/PerformScaleViewModel.swift:195-201 | a completed pass with auto-repeat on changes the key and keeps playing. Otherwise playing stops and the key stays |
| PerformScale.PerformScaleViewModel.Beat | ScalePlayer/Source/Scales/Perform/PerformScaleViewModel.swift:203-205 | the current beat is the reported one |
| PerformScale.PerformScaleViewModel.RepeatPasses | ScalePlayer/Source/Scales/Perform/PerformScaleViewModel.swift:195-201 | `n` completed passes with auto-repeat on move the key `n` steps in the current direction and schedule `n` plays |
| PerformScale.SwipeFixture | ScalePlayer/Source/Scales/Perform/PerformScaleViewModel.swift:140-146 | from the start, a first swipe down turns the direction round and a second lowers the key by one |
| PerformScale.RoutineFixture | ScalePlayer/Source/Scales/Perform/PerformScaleViewModel.swift:169-174 | in a two-scale routine, `nextScale` selects the second scale and its tempo and disables the button |

## Left out

- The MIDI player (MidiPlayer.swift) is not part of this model. It covers track building, the
  audio callbacks, delegate fan-out and the `UInt8` transposition of note numbers. Its calls are
  recorded as commands, and its callbacks (`noteUpdated`, `beat`, `playbackBegan`,
  `playbackStopped`) are methods.
- Screen geometry is left out: converting touch points and pixel widths to grid positions and
  pitches, beat widths, and the pinch scale. `NoteForGesture` takes the two positions and the
  pitch already read off the grid. `ZoomIn` and `ZoomOut` model only the level step that follows
  a pinch past the width limits.
- Layer drawing is left out: line widths, colours, dash patterns and layer hierarchy, and the
  `GridLine` styles beyond their names. Because the styles are structs, `.half` and `.quarter`
  are equal by value in the source; the model keeps them apart as names.
- `Positions.Beats`: exact in `real`, while the source computes in `Float32`. Rounding is not
  modelled.
- Integer widths are left out. Swift's `Int` traps on overflow; the model's integers are
  unbounded, so arithmetic overflow is not modelled.
- Hashing is modelled as the sequence of values fed to `Hasher.combine`. The hash function
  itself is the standard library's.
- Persistence is left out: Core Data objects, JSON encoding of the note list, and the sorting
  of notes by `beats()` in `PracticeScale.notes`. The stored scale and routine are values, and
  the context's `save()` is a counter. The aliasing of a routine or scale object shared with the
  responder is not modelled.
- `ScaleEdit.ScaleEditViewModel.constructor`: a stored scale without a name is not modelled.
  The model's stored scales always have a name.
- `validateName` (both view models) and the data stores' duplicate check are not modelled. The
  scale editor's `updateName` receives the check's answer as a parameter.
- The name dialogs, the search dialog and the coordinators are left out (`presentNameAlert`,
  `openSearch`). An unnamed `save` does nothing in the model beyond what it does to the state.
- The scale editor's `tempo`, `tool`, `updateTool`, `currentBeat`/`beat(num:)`,
  `tempoDidChange`, `startSaving` and `timeSignature` are plain setters or logging and are not
  modelled.
- The Combine subscription and throttle that call `loadPage` on text changes are left out, as are
  the `asyncAfter` that plays one second after a key change (counted in `scheduledPlays`) and the
  `@PublishedOnMain` dispatch.
- `PerformScale.PerformScaleViewModel.NextScale` and `FromRoutine` require an in-range index.
  The source stops with a fatal error or an out-of-range exception there.
- `ScaleEdit.ScaleEditViewModel.NoteUpdated`, `PerformScale.PerformScaleViewModel.NoteUpdated`,
  `RoutineEdit.RoutineEditViewModel.MoveScale`, `RoutineEdit.RoutineEditViewModel.RemoveScale` and
  `ScaleSearch.ScaleSearchViewModel.ScaleAt` require an in-range index. The source's array
  subscript, `remove(at:)` or `insert(_:at:)` traps there; the trap itself is not modelled.
- `Positions.SingleBorrowAgrees` is stated only for the radices the source uses (240 cents and
  4 subbeats or beats), not for an arbitrary radix, which keeps its division linear.
- `PerformScale.PerformScaleViewModel.NoteUpdated`: the library's pitch naming is a parameter
  `keyName`.
- The transposition's `didSet`, which forwards the value to the player, is left out. The tempo's
  forwarding is modelled as `playerTempo`.
- `createTempoView`, `deinit` and the commented-out `next`/`previous` of `ScaleNotePosition` are
  left out.
- The `Keys` pitch ranges at lines 19-39 of ScaleEditView+Types.swift are left out; they come
  from the music theory library.
- `RoutineEdit.RoutineEditViewModel.constructor`: it requires a stored routine's links to have no
  repetitions, as the ordered set they come from guarantees. `NSOrderedSet(array:)` in `save` is
  then the identity.

## Findings

| source | as written | input that shows it | evidently intended | confidence | as-written member | corrected member |
|---|---|---|---|---|---|---|
| ScalePlayer/Source/Model/Scale/ScaleNotePosition.swift:48-70 | a negative field difference borrows `1 + (-diff)/radix` units but resets the field to `radix + diff * units`. This is right only for a one-unit borrow | `{1,0,0,0} - {0,3,1,0}` gives `zero`, while the difference is three subbeats. `{1,0,0,0} - {0,0,3,1}` gives a negative subbeat. A stroke from `0.3.1` to `1` draws a one-subbeat note | borrow as many units as bring the field into range, so that the difference is exact on normalized positions | high that the arithmetic is wrong, medium on the effect in use; not executed | Positions.SubFloorsPositiveDifference | Positions.SubIntended |
| ScalePlayer/Source/Scales/Edit/ScaleEditViewModel.swift:68-73 | `lastBar` sorts the end positions ascending and takes the first, which is the earliest end | notes ending in bars 1 and 3 give `lastBar == 1` | the last bar any note reaches (ScaleEditView.swift:89 describes it as the last bar by note positions and durations), that is, the latest end | medium; not executed | ScaleEdit.LastBarTakesEarliestEnd | ScaleEdit.LastBarIntendedBounds |
