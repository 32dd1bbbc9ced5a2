# complex-music, integer and note layer

A model in Dafny of the integer and note-level layer of the `complex-music` Kotlin library. The model covers:

- **Scale and pitch arithmetic** (`Integers.kt`): `wrapped` indexing with floor-style wraparound and octave shifts, `skipStep`, transposition, arithmetic modulo 12, modes, MIDI pitch numbers and names, and the pitch-range tests.
- **The `Cyc` pattern** (`Cyc.kt`): an endless cycle of integers whose counter is shared by every iterator it hands out.
- **Notes and chords** (`Notes.kt`): `Note`, the rest encoding (pitch above 2000), `MultiNote`, its duration and `normalizeDur`.
- **Note builders** (`NoteBuilder.kt`): a `NoteBuilder` zips pitch, duration and velocity iterators into notes. A `MultiNoteBuilder` zips several builders into chords. Both are single-pass.
- **Parts** (`Part.kt`): notes and chords stored by start tick, behind a tick cursor, and `concurrentNotes`.
- **The player** (`AbstractPlayer.kt`): a per-channel tick array and the note events it registers.
- **Chord assembly in the two example compositions** (`Complex1.kt`, `EdgeRock1.kt`):
  - Each point of a walk gives a scale degree and a duration.
  - The point's note is kept only when it is more than a semitone away from every note kept before.
  - Every non-empty result becomes one chord of the part.

Each modelled Kotlin file has its own module:

| Kotlin file | Dafny module |
|---|---|
| `Integers.kt` | `Integers` |
| `Cyc.kt` | `CycPattern` |
| `Notes.kt` | `Notes` |
| `NoteBuilder.kt` | `NoteBuilders` |
| `Part.kt` | `Parts` |
| `AbstractPlayer.kt` | `Players` |
| `Complex1.kt` | `Complex1` |
| `EdgeRock1.kt` | `EdgeRock1` |

Three modules have no Kotlin file of their own:

- `Iterators` models the `Iter` type (a Kotlin `Iterator<Int>`), either over a list or over a `Cyc`.
- `Chords` holds the chord assembly that `createNotes` and `PartA.toNotes` share, and the nested loops that add a block's chords to a part.
- `Wrappers` holds `Option`.

How the Kotlin state is represented:

- Stateful objects are classes with `modifies` clauses: `Cyc`, the iterators, the builders, `Part`, the player and `PartA`.
- Pure code is functions and lemmas.
- Kotlin `/` and `%` truncate toward zero. The model writes them out as `TruncDiv` and `TruncRem` wherever the source uses them on a possibly negative operand.

Every path in the table below is relative to the repository root.

## Model

| member | source | states |
|---|---|---|
| Integers.TruncRem | src/main/kotlin/org/metaetcher/music/integers/Integers.kt:64 | Kotlin's `%` for a positive divisor: `a == b*q + r` with `q` the truncated quotient, `\|r\| < b`, and `r` has the sign of `a` |
| Integers.FloorFromTrunc | src/main/kotlin/org/metaetcher/music/integers/Integers.kt:18-22 | wrapped's correction is exact: stepping the truncated quotient back by one and adding the size to the remainder, exactly when the remainder is negative, gives the floor quotient and the non-negative remainder |
| Integers.Wrapped | src/main/kotlin/org/metaetcher/music/integers/Integers.kt:17-25 | for every index into a non-empty collection, the element used is element `idx mod size`, so its index lies in `[0, size)`. The result is that element plus root, plus 12 per floor wrap in octave mode. An empty collection is excluded (division by zero) |
| Integers.WrappedShift | src/main/kotlin/org/metaetcher/music/integers/Integers.kt:17-25 | moving the index by k whole collections moves the result by 12k octave-aware, and leaves it unchanged otherwise |
| Integers.WrappedOctavePeriodic | src/main/kotlin/org/metaetcher/music/integers/Integers.kt:23 | `wrapped(idx + size, true) == wrapped(idx, true) + 12` for every idx |
| Integers.WrappedPeriodic | src/main/kotlin/org/metaetcher/music/integers/Integers.kt:24 | without octaves, wrapped is periodic with period `size` |
| Integers.WrappedInRange | src/main/kotlin/org/metaetcher/music/integers/Integers.kt:23-24 | for `0 <= idx < size` the result is `root + elementAt(idx)`, in either mode |
| Integers.SkipStep | src/main/kotlin/org/metaetcher/music/integers/Integers.kt:42-46 | one output per skip. A rest skip gives R and does not move the running total. Any other skip gives wrapped at the sum of the non-rest skips so far, or R when that sum is itself above 2000. An empty scale is accepted whenever no index reaches `wrapped` |
| Integers.EmptyScaleOnlyRests | src/main/kotlin/org/metaetcher/music/integers/Integers.kt:42-46 | on an empty collection skipStep stays clear of `wrapped` exactly when every skip is a rest; this is the condition under which `SkipStep` accepts an empty scale |
| Integers.Transpose | src/main/kotlin/org/metaetcher/music/integers/Integers.kt:72 | same length and order, t added to every element |
| Integers.TransposeByZero | src/main/kotlin/org/metaetcher/music/integers/Integers.kt:72 | transposing by 0 is the identity |
| Integers.TransposeCompose | src/main/kotlin/org/metaetcher/music/integers/Integers.kt:72 | transposing by a then b is transposing by a + b. Transposing back by -a restores the collection |
| Integers.TransposeKeepsRests | src/main/kotlin/org/metaetcher/music/integers/Integers.kt:72 | a rest (R) stays a rest under any transposition above -18000 |
| Integers.AddMod12 | src/main/kotlin/org/metaetcher/music/integers/Integers.kt:64 | congruent to `a + x` modulo 12. It lies in `[0, 12)` when `a + x >= 0` and in `(-12, 0]` otherwise |
| Integers.InvMod12 | src/main/kotlin/org/metaetcher/music/integers/Integers.kt:69 | in `[0, 12)`, and adding it to a gives a multiple of 12. For `0 <= a < 12` it is `(12 - a) % 12` |
| Integers.AddInvMod12 | src/main/kotlin/org/metaetcher/music/integers/Integers.kt:64-69 | `a.addMod12(a.invMod12()) == 0` for every integer a |
| Integers.AddMod12All | src/main/kotlin/org/metaetcher/music/integers/Integers.kt:58 | same length, each element `addMod12`-ed by x |
| Integers.TransposeToZero | src/main/kotlin/org/metaetcher/music/integers/Integers.kt:58 | same length and order, first element maps to 0, and each element becomes its interval above the first modulo 12. The result is in `[0, 12)` whenever the element is at most an octave below the first, and in `(-12, 0]` (Kotlin's truncating remainder) when it is further below, so `[60, 40]` gives `[0, -8]`. The empty list maps to the empty list |
| Integers.TransposeToZeroFarBelow | src/main/kotlin/org/metaetcher/music/integers/Integers.kt:58 | `[60, 40]` gives `[0, -8]`: 40 lies more than an octave below 60, and Kotlin's remainder of -8 by 12 stays negative |
| Integers.Mode | src/main/kotlin/org/metaetcher/music/integers/Integers.kt:79-80 | a mode has as many degrees as the collection |
| Integers.ModeOne | src/main/kotlin/org/metaetcher/music/integers/Integers.kt:79-80 | mode 1 is the collection itself, with or without octaves |
| Integers.ModeRotation | src/main/kotlin/org/metaetcher/music/integers/Integers.kt:79-80 | without octaves, mode m is the rotation of the collection starting at degree `(m - 1) mod size` |
| Integers.ModeOctaveUp | src/main/kotlin/org/metaetcher/music/integers/Integers.kt:79-80 | with octaves, mode `m + size` is mode m an octave up |
| Integers.ModesAll | src/main/kotlin/org/metaetcher/music/integers/Integers.kt:86-87 | one mode per element of the collection |
| Integers.ModesAllRotations | src/main/kotlin/org/metaetcher/music/integers/Integers.kt:86-87 | without octaves, the k-th entry of modesAll is the rotation starting at element k |
| Integers.MidiOctaveAndClass | src/main/kotlin/org/metaetcher/music/integers/Integers.kt:94-102 | `p == 12 * (midiOctave + 1) + midiPitchClass` for every p. The pitch class lies in `[0, 12)` exactly when p is non-negative or a multiple of 12 |
| Integers.IndexOfFirst | src/main/kotlin/org/metaetcher/music/integers/Integers.kt:97 | -1 when no character matches, otherwise the first matching position |
| Integers.IndexOf | src/main/kotlin/org/metaetcher/music/integers/Integers.kt:109-110 | -1 exactly when the name is absent, otherwise the first position holding it |
| Integers.DigitsValueOfNatToString | src/main/kotlin/org/metaetcher/music/integers/Integers.kt:98 | reading back the printed digits of a natural number gives the number |
| Integers.SharpNameClass | src/main/kotlin/org/metaetcher/music/integers/Integers.kt:108-110 | the string pitch class of the k-th sharp name is k |
| Integers.PrintedName | src/main/kotlin/org/metaetcher/music/integers/Integers.kt:105 | for `p >= 12` the printed name is the sharp name of the pitch class followed by the digits of a non-negative octave |
| Integers.ParseNameThenOctave | src/main/kotlin/org/metaetcher/music/integers/Integers.kt:112-117 | a digit-free name followed by the digits of n parses to `(n + 1) * 12 + class(name)` |
| Integers.SharpNameThenOctave | src/main/kotlin/org/metaetcher/music/integers/Integers.kt:112-117 | a sharp name followed by an octave number parses back to the pitch it names |
| Integers.MidiNameRoundTrip | src/main/kotlin/org/metaetcher/music/integers/Integers.kt:105-117 | `midiPitch(midiPitchNameAndOctave(p)) == p` for every `p >= 12` |
| Integers.MidiNameRoundTripFailsBelowTwelve | src/main/kotlin/org/metaetcher/music/integers/Integers.kt:112-117 | every `0 <= p < 12`, for instance 0 printed as "C-1", parses back to 23, not to p |
| Integers.LowPitchName | src/main/kotlin/org/metaetcher/music/integers/Integers.kt:105 | below 12 the printed name is the sharp name, a minus sign, then "1" |
| Integers.NameWithMinusHasNoClass | src/main/kotlin/org/metaetcher/music/integers/Integers.kt:108-110 | a sharp name with the minus sign still attached is not found among the names (class -1) |
| Integers.ParseSigned | src/main/kotlin/org/metaetcher/music/integers/Integers.kt:98 | a number read after a minus sign is never positive |
| Integers.ParseSignedOfIntToString | src/main/kotlin/org/metaetcher/music/integers/Integers.kt:96-99 | a printed integer, sign included, reads back as itself |
| Integers.SignedOctaveAfterName | src/main/kotlin/org/metaetcher/music/integers/Integers.kt:96-99 | with the octave search starting at a sign or a digit, a name followed by any printed octave yields that octave |
| Integers.ParseNameThenSignedOctave | src/main/kotlin/org/metaetcher/music/integers/Integers.kt:112-117 | with that search, a name followed by any printed octave i parses to `(i + 1) * 12 + class(name)` |
| Integers.MidiNameRoundTripCorrected | src/main/kotlin/org/metaetcher/music/integers/Integers.kt:112-117 | with that search, the round trip holds for every pitch with a printable class, 0 to 11 included |
| Integers.CorrectedAgreesWithoutMinus | src/main/kotlin/org/metaetcher/music/integers/Integers.kt:112-117 | on every name without a minus sign, the corrected parse and the parse as written agree |
| Integers.MiddleC | src/test/kotlin/org/metaetcher/music/tests/TestIntegers.kt:132-149 | 60 prints as "C4", 61 as "C#4", and "C4" parses to 60 |
| Integers.MaxOf | src/main/kotlin/org/metaetcher/music/integers/Integers.kt:120 | `maxOrNull()!!` of a non-empty collection: at least every element, and one of them |
| Integers.MinOf | src/main/kotlin/org/metaetcher/music/integers/Integers.kt:121 | the least element of a non-empty collection |
| Integers.ValidMidiPitchesMeaning | src/main/kotlin/org/metaetcher/music/integers/Integers.kt:119-121 | as written, the range test holds exactly when some element is at least 21 and every element is at most 128 |
| Integers.ValidMidiPitchesAcceptsLowPitch | src/main/kotlin/org/metaetcher/music/integers/Integers.kt:121 | as written, `[0, 60]` passes although 0 is below 21 |
| Integers.ValidMidiPitchesCorrectedMeaning | src/main/kotlin/org/metaetcher/music/integers/Integers.kt:119-121 | comparing the minimum against the low bound accepts exactly the collections whose every element lies in `[21, 128]` |
| Integers.MidiOctave | src/main/kotlin/org/metaetcher/music/integers/Integers.kt:94 | no contract of its own; `MidiOctaveAndClass` states that octave and pitch class recompose the pitch |
| Integers.MidiPitchClass | src/main/kotlin/org/metaetcher/music/integers/Integers.kt:102 | no contract of its own; `MidiOctaveAndClass` states its range `[0, 12)` for non-negative pitches and the recomposition |
| Integers.MidiPitchNameAndOctave | src/main/kotlin/org/metaetcher/music/integers/Integers.kt:105 | no contract of its own; `PrintedName`, `LowPitchName` and `MidiNameRoundTrip` state what it prints and that it parses back |
| Integers.StringMidiOctave | src/main/kotlin/org/metaetcher/music/integers/Integers.kt:96-99 | no contract of its own; `ParseNameThenOctave` states that it reads the digits after the name |
| Integers.StringMidiPitchClass | src/main/kotlin/org/metaetcher/music/integers/Integers.kt:108-110 | no contract of its own; `SharpNameClass` and `NameWithMinusHasNoClass` state which names have which class |
| Integers.StringMidiPitch | src/main/kotlin/org/metaetcher/music/integers/Integers.kt:112-117 | no contract of its own; `MidiNameRoundTrip` and `MidiNameRoundTripFailsBelowTwelve` state where it inverts the printed name and where it does not |
| Integers.BelowHighMidi | src/main/kotlin/org/metaetcher/music/integers/Integers.kt:120 | no contract of its own; `ValidMidiPitchesMeaning` states it as every element at most 128 |
| Integers.AboveLowMidi | src/main/kotlin/org/metaetcher/music/integers/Integers.kt:121 | no contract of its own; `ValidMidiPitchesMeaning` and `ValidMidiPitchesAcceptsLowPitch` state it as some element at least 21 |
| Integers.ValidMidiPitches | src/main/kotlin/org/metaetcher/music/integers/Integers.kt:119 | no contract of its own; `ValidMidiPitchesMeaning` states which collections pass |
| CycPattern.Cyc.constructor | src/main/kotlin/org/metaetcher/music/integers/Cyc.kt:8-12 | a new Cyc keeps its elements and root, with its counter at 0 |
| CycPattern.Cyc.Nth | src/main/kotlin/org/metaetcher/music/integers/Cyc.kt:15 | the value of draw n is `root + elements[n]` within the first round |
| CycPattern.Cyc.Iterator | src/main/kotlin/org/metaetcher/music/integers/Cyc.kt:13 | each call hands out a new iterator over this same Cyc |
| CycPattern.Cyc.Take | src/main/kotlin/org/metaetcher/music/integers/Cyc.kt:12-15 | take(n) gives n values, value k being draw `i + k` of the shared counter, and advances the counter by n |
| CycPattern.CycIterator.HasNext | src/main/kotlin/org/metaetcher/music/integers/Cyc.kt:14 | always true |
| CycPattern.CycIterator.Next | src/main/kotlin/org/metaetcher/music/integers/Cyc.kt:15 | returns the draw at the Cyc's shared counter and increments that counter by exactly one; elements and root are constants |
| CycPattern.NthPeriodic | src/main/kotlin/org/metaetcher/music/integers/Cyc.kt:15 | draws repeat with period `size` |
| CycPattern.NthInElements | src/main/kotlin/org/metaetcher/music/integers/Cyc.kt:15 | every value drawn is root plus one of the elements |
| CycPattern.TakeTenOfNine | src/test/kotlin/org/metaetcher/music/tests/TestIntegers.kt:43-47 | `Cyc(0..8).take(10)` is 0 to 8, then 0 |
| CycPattern.TakeTenWithRoot | src/test/kotlin/org/metaetcher/music/tests/TestIntegers.kt:49-53 | `Cyc(0, 1, 2, 3, root = 48).take(10)` cycles 48 to 51 |
| CycPattern.SharedCounter | src/test/kotlin/org/metaetcher/music/tests/TestIntegers.kt:55-64 | five draws (40 to 43, then 40 again), then a fresh iterator of the same Cyc goes on from where the first stopped (41) |
| Iterators.Shorter | src/main/kotlin/org/metaetcher/music/notes/NoteBuilder.kt:9 | the shorter of two source lengths: infinite only when both are, and no longer than either |
| Iterators.CycleOf | src/main/kotlin/org/metaetcher/music/integers/Cyc.kt:13-15 | the iterator of a new Cyc is endless and its k-th value is `root + elements[k mod size]` |
| Iterators.Constant | src/main/kotlin/org/metaetcher/music/notes/NoteBuilder.kt:12 | `Cyc(x).iterator()` gives x forever |
| Iterators.IntIter.OfList | src/main/kotlin/org/metaetcher/music/notes/NoteBuilder.kt:13 | the iterator of a list starts before its first element |
| Iterators.IntIter.OfCyc | src/main/kotlin/org/metaetcher/music/integers/Cyc.kt:13 | a Cyc's iterator starts at the Cyc's current counter |
| Iterators.IntIter.Remaining | src/main/kotlin/org/metaetcher/music/integers/Integers.kt:8 | a list iterator has finitely many values ahead and a Cyc's infinitely many; the k-th value ahead exists exactly when k is below that length |
| Iterators.IntIter.Next | src/main/kotlin/org/metaetcher/music/integers/Cyc.kt:15 | returns the value at the current draw count and advances the count by one |
| NoteBuilders.NoteBuilder.constructor | src/main/kotlin/org/metaetcher/music/notes/NoteBuilder.kt:12 | the builder stores its three sources |
| NoteBuilders.NoteBuilder.WithDefaultVelocity | src/main/kotlin/org/metaetcher/music/notes/NoteBuilder.kt:12-14 | without a velocity source, every note gets velocity 64 (`Cyc(64)`) |
| NoteBuilders.NoteBuilder.ConstantDuration | src/main/kotlin/org/metaetcher/music/notes/NoteBuilder.kt:15 | an `Int` duration becomes a source giving that duration to every note, with velocity 64 |
| NoteBuilders.NoteBuilder.ConstantDurationVelocity | src/main/kotlin/org/metaetcher/music/notes/NoteBuilder.kt:16 | `Int` duration and velocity become constant sources |
| NoteBuilders.NoteBuilder.ConstantVelocity | src/main/kotlin/org/metaetcher/music/notes/NoteBuilder.kt:17 | an `Int` velocity becomes a constant source |
| NoteBuilders.NoteBuilder.HasNext | src/main/kotlin/org/metaetcher/music/notes/NoteBuilder.kt:20 | true exactly when all three sources have a next value |
| NoteBuilders.NoteBuilder.Next | src/main/kotlin/org/metaetcher/music/notes/NoteBuilder.kt:21 | the note is `Note(p_k, d_k, v_k)` at the sources' current positions, and each source advances by one |
| NoteBuilders.NoteBuilder.Take | src/main/kotlin/org/metaetcher/music/notes/NoteBuilder.kt:9-22 | take(n) gives `min(n, shortest source remaining)` notes, the k-th from the k-th values ahead, and leaves every source advanced by that many |
| NoteBuilders.NoteBuilder.RemainingMeansWithin | src/main/kotlin/org/metaetcher/music/notes/NoteBuilder.kt:9 | the k-th note ahead exists exactly when all three sources have a k-th value ahead, so the builder is as long as its shortest source |
| NoteBuilders.MultiNoteBuilder.constructor | src/main/kotlin/org/metaetcher/music/notes/NoteBuilder.kt:29-32 | the builders' iterators are stored once |
| NoteBuilders.MultiNoteBuilder.EndlessHasNext | src/main/kotlin/org/metaetcher/music/notes/NoteBuilder.kt:34 | when every builder is endless there is always a next chord |
| NoteBuilders.MultiNoteBuilder.NextOf | src/main/kotlin/org/metaetcher/music/notes/NoteBuilder.kt:35 | drawing from builder j advances builder j alone by one |
| NoteBuilders.MultiNoteBuilder.Next | src/main/kotlin/org/metaetcher/music/notes/NoteBuilder.kt:35 | the chord has one note per builder, the i-th being builder i's next note, and every builder advances by one |
| NoteBuilders.MultiNoteBuilder.Take | src/main/kotlin/org/metaetcher/music/notes/NoteBuilder.kt:33-36 | at most n chords, fewer only when some builder ran out. Chord k's i-th note is builder i's k-th note ahead |
| NoteBuilders.FourNotesOfTwoPitches | src/test/kotlin/org/metaetcher/music/tests/TestNoteBuilder.kt:25-35 | `NoteBuilder(Cyc(40, 44), 200).take(4)` alternates 40 and 44 at duration 200, velocity 64 |
| NoteBuilders.ThreeNotesOfThreeCycles | src/test/kotlin/org/metaetcher/music/tests/TestNoteBuilder.kt:52-66 | three cycles run side by side |
| NoteBuilders.FiniteListStops | src/main/kotlin/org/metaetcher/music/notes/NoteBuilder.kt:9 | a builder over a three-element list gives three notes when five are asked for |
| NoteBuilders.TakeContinues | src/test/kotlin/org/metaetcher/music/tests/TestNoteBuilder.kt:68-81 | a second take goes on from where the first stopped |
| NoteBuilders.TakeContinuesWithDurations | src/test/kotlin/org/metaetcher/music/tests/TestNoteBuilder.kt:68-81 | with cycling durations the second note differs in duration from the constant-duration builder's |
| NoteBuilders.CycleBuilder | src/main/kotlin/org/metaetcher/music/notes/NoteBuilder.kt:16 | a builder over fresh Cycs is endless and its k-th note takes the k-th value of each cycle |
| NoteBuilders.FourChordsOfTwoBuilders | src/test/kotlin/org/metaetcher/music/tests/TestNoteBuilder.kt:11-24 | the four chords of the test, each with one note per builder |
| Notes.Rest | src/main/kotlin/org/metaetcher/music/notes/Notes.kt:13-17 | `rest(d)` has pitch 20000, duration d, velocity 64, and is a rest |
| Notes.RestTransposed | src/main/kotlin/org/metaetcher/music/notes/Notes.kt:21-24 | R transposed by any `t > -18000` is still a rest |
| Notes.Chord | src/main/kotlin/org/metaetcher/music/notes/Notes.kt:35 | one note per pitch, in order, each with the given duration and velocity |
| Notes.ChordDefaultVelocity | src/main/kotlin/org/metaetcher/music/notes/Notes.kt:36 | as above, with velocity 64 |
| Notes.MaxDuration | src/main/kotlin/org/metaetcher/music/notes/Notes.kt:39 | at least every note's duration and equal to one of them; defined only for a non-empty chord |
| Notes.MaxDurationUniform | src/main/kotlin/org/metaetcher/music/notes/Notes.kt:39 | a chord whose notes share one duration has that duration |
| Notes.IsRest | src/main/kotlin/org/metaetcher/music/notes/Notes.kt:10 | no contract of its own; `Notes.Rest` and `Integers.TransposeKeepsRests` state which notes and pitches are rests |
| Notes.Duration | src/main/kotlin/org/metaetcher/music/notes/Notes.kt:39 | no contract of its own; `Notes.MaxDuration` and `Notes.NormalizeDurKeepsDuration` state its value |
| Notes.NormalizeDur | src/main/kotlin/org/metaetcher/music/notes/Notes.kt:40-42 | keeps note count, order, pitches and velocities, and gives every note the chord's duration |
| Notes.NormalizeDurKeepsDuration | src/main/kotlin/org/metaetcher/music/notes/Notes.kt:39-42 | normalizing does not change the chord's duration |
| Notes.NormalizeDurIdempotent | src/main/kotlin/org/metaetcher/music/notes/Notes.kt:40-42 | normalizing twice is normalizing once |
| Notes.StartTickBeforeEnd | src/main/kotlin/org/metaetcher/music/midi/Part.kt:28 | with positive durations, every note of a line ends no later than the line |
| Notes.StartTickIncreasing | src/main/kotlin/org/metaetcher/music/midi/Part.kt:28 | with positive durations, a later note starts no earlier than an earlier note ends |
| Parts.PlaceNotesKeys | src/main/kotlin/org/metaetcher/music/midi/Part.kt:26-29 | adding a line adds exactly its notes' start ticks to the keys |
| Parts.PlaceNotesKeepsOthers | src/main/kotlin/org/metaetcher/music/midi/Part.kt:28 | an entry at a tick where no added note starts is kept |
| Parts.PlaceNotesAt | src/main/kotlin/org/metaetcher/music/midi/Part.kt:28 | note j is stored at its start tick unless a later note of the line starts at the same tick and replaces it |
| Parts.PlaceNotesAllKept | src/main/kotlin/org/metaetcher/music/midi/Part.kt:26-29 | with positive durations every note of the line is stored at its own start tick |
| Parts.Sounding | src/main/kotlin/org/metaetcher/music/midi/Part.kt:42-44 | exactly the entries whose note started at or before the tick and has not ended, with their notes |
| Parts.SoundingOnLine | src/main/kotlin/org/metaetcher/music/midi/Part.kt:42-44 | on a line of positive-duration notes, the notes sounding inside note j are note j alone |
| Parts.Part.ConcurrentNotes | src/main/kotlin/org/metaetcher/music/midi/Part.kt:42-44 | no contract of its own; it is `Sounding` on the part's notes, whose contract and `SoundingOnLine` state which notes sound |
| Parts.PlaceChordsConcat | src/main/kotlin/org/metaetcher/music/midi/Part.kt:33-39 | adding two runs of chords one after the other is adding their concatenation |
| Parts.Part.constructor | src/main/kotlin/org/metaetcher/music/midi/Part.kt:13-24 | a new part has its channel, instrument and measure length, empty maps, and its cursor and offset at 0 |
| Parts.Part.AddNotesAt | src/main/kotlin/org/metaetcher/music/midi/Part.kt:26-29 | note j is put at `t` plus the durations of the notes before it, rests included. The cursor ends at `t` plus all the durations. Chords, offset and measure length are unchanged |
| Parts.Part.AddNotes | src/main/kotlin/org/metaetcher/music/midi/Part.kt:30 | the same, from the current cursor |
| Parts.Part.AddNoteAt | src/main/kotlin/org/metaetcher/music/midi/Part.kt:31 | one note put at t, replacing any entry there; the cursor ends after it |
| Parts.Part.AddNote | src/main/kotlin/org/metaetcher/music/midi/Part.kt:32 | one note at the cursor |
| Parts.Part.AddChordAt | src/main/kotlin/org/metaetcher/music/midi/Part.kt:33-38 | the chord, normalized by default, is put at the tick. The cursor moves on by the chord's longest note either way. Notes, offset and measure length are unchanged |
| Parts.Part.AddChord | src/main/kotlin/org/metaetcher/music/midi/Part.kt:39 | the same at the cursor |
| Parts.Part.AddAtMeas | src/main/kotlin/org/metaetcher/music/midi/Part.kt:40 | the line starts at `meas * ticksPerMeas` |
| Parts.TwoLines | src/main/kotlin/org/metaetcher/music/midi/Part.kt:30 | a second line added from the cursor starts where the first ended |
| Parts.SecondNoteSounding | src/main/kotlin/org/metaetcher/music/midi/Part.kt:42-44 | of two 4-tick notes from tick 0, only the second sounds at tick 5 |
| Parts.SecondNoteSoundingOnLine | src/main/kotlin/org/metaetcher/music/midi/Part.kt:42-44 | the placement behind it: at tick 5 only the note stored at 4 sounds |
| Players.ScheduledEvents | src/main/kotlin/org/metaetcher/music/midi/AbstractPlayer.kt:24-31 | every registered event is on the channel, holds a note that is not a rest, and sits at that note's start tick |
| Players.ScheduledComplete | src/main/kotlin/org/metaetcher/music/midi/AbstractPlayer.kt:26-28 | every note that is not a rest is registered at its start tick |
| Players.ScheduledWithoutRests | src/main/kotlin/org/metaetcher/music/midi/AbstractPlayer.kt:26-29 | a line without rests registers one event per note, in input order |
| Players.ScheduledInOrder | src/main/kotlin/org/metaetcher/music/midi/AbstractPlayer.kt:26-29 | with positive durations the events come in strictly increasing tick order |
| Players.Scheduled | src/main/kotlin/org/metaetcher/music/midi/AbstractPlayer.kt:26-29 | no contract of its own; `ScheduledEvents`, `ScheduledComplete`, `ScheduledWithoutRests` and `ScheduledInOrder` state which events it registers |
| Players.Player.constructor | src/main/kotlin/org/metaetcher/music/midi/AbstractPlayer.kt:16 | sixteen channel cursors, all at 0, and nothing registered |
| Players.Player.AddAt | src/main/kotlin/org/metaetcher/music/midi/AbstractPlayer.kt:24-31 | the channel's cursor ends at `tick` plus all durations, rests included. No other channel changes. The events of the non-rest notes are appended at their start ticks |
| Players.Player.Add | src/main/kotlin/org/metaetcher/music/midi/AbstractPlayer.kt:33 | channel 0 from channel 0's cursor |
| Players.Player.AddNote | src/main/kotlin/org/metaetcher/music/midi/AbstractPlayer.kt:34 | starts from channel 0's cursor whatever the channel. The channel's cursor ends at that cursor plus the duration |
| Players.RestTakesTime | src/main/kotlin/org/metaetcher/music/midi/AbstractPlayer.kt:26-29 | a rest between two notes registers nothing but delays the second note by its duration |
| Chords.SamplePitchIsDegree | src/main/kotlin/org/metaetcher/music/examples/Complex1.kt:48 | a point's pitch is the scale degree at its sector, transposed to the root, with an octave per wrap. One scale further is an octave higher |
| Chords.MinDistance | src/main/kotlin/org/metaetcher/music/examples/Complex1.kt:50 | the least distance from the pitch to a kept note: at most every distance, and one of them |
| Chords.AdmitsMeansFar | src/main/kotlin/org/metaetcher/music/examples/Complex1.kt:50 | the test (no notes yet, or least distance above 1) holds exactly when every kept pitch is more than a semitone away |
| Chords.AssembleAppend | src/main/kotlin/org/metaetcher/music/examples/Complex1.kt:47-53 | one more point adds its note exactly when it is more than a semitone from every note kept so far |
| Chords.AssembleSpaced | src/main/kotlin/org/metaetcher/music/examples/Complex1.kt:50 | any two kept pitches differ by more than a semitone |
| Chords.AssembleFirst | src/main/kotlin/org/metaetcher/music/examples/Complex1.kt:50-51 | the chord is empty exactly when the result is, and a non-empty result's first point always gives the first note |
| Chords.AssembleKept | src/main/kotlin/org/metaetcher/music/examples/Complex1.kt:47-53 | the chord is the notes of an increasing selection of the points, each note with its own point's pitch and duration, so it is no longer than the result |
| Chords.KeptDecision | src/main/kotlin/org/metaetcher/music/examples/Complex1.kt:50-51 | a point is kept exactly when its pitch is far from the notes kept from the earlier points; a dropped point's duration is lost |
| Chords.AssembleNotes | src/main/kotlin/org/metaetcher/music/examples/Complex1.kt:45-54 | the loop builds exactly the assembled chord |
| Chords.Assemble | src/main/kotlin/org/metaetcher/music/examples/Complex1.kt:45-54 | no contract of its own; `AssembleSpaced`, `AssembleFirst`, `AssembleKept`, `KeptDecision` and `AssembleAppend` state which points it keeps |
| Chords.ResultChordsSpaced | src/main/kotlin/org/metaetcher/music/examples/Complex1.kt:34-37 | every chord added has notes, pairwise spaced, and is the chord of one non-empty result |
| Chords.CombinationsSize | src/main/kotlin/org/metaetcher/music/examples/Complex1.kt:30-31 | the nested loops visit `\|lists\| * \|maxes\|` combinations |
| Chords.CombinationAt | src/main/kotlin/org/metaetcher/music/examples/Complex1.kt:30-31 | visit `i * \|maxes\| + j` pairs index list i with depth j, so the order is lists outer, depths inner |
| Chords.AddResult | src/main/kotlin/org/metaetcher/music/examples/Complex1.kt:35-36 | a non-empty result adds its chord at the cursor; an empty one adds nothing |
| Chords.AddResults | src/main/kotlin/org/metaetcher/music/examples/Complex1.kt:34-37 | the chords of all results are added one after the other from the cursor |
| Chords.AddRow | src/main/kotlin/org/metaetcher/music/examples/Complex1.kt:31-38 | one index list with every depth: one count per depth, and the walks' chords in order |
| Chords.AddBlock | src/main/kotlin/org/metaetcher/music/examples/Complex1.kt:30-39 | every list and depth: the count is `\|lists\| * \|maxes\|` and the chords go in loop order from the cursor. Only chords and cursor change |
| Complex1.CreateNotes | src/main/kotlin/org/metaetcher/music/examples/Complex1.kt:45-54 | the assembled chord over the scale transposed to 40. It is pairwise spaced, no longer than the result, and empty exactly when the result is. A non-empty result's first point gives the first note |
| Complex1.ProcessBlock | src/main/kotlin/org/metaetcher/music/examples/Complex1.kt:25-42 | the counter ends at 6. The block's chords are added in loop order from the cursor, and nothing else of the part changes |
| Complex1.ProcessedChordsSpaced | src/main/kotlin/org/metaetcher/music/examples/Complex1.kt:30-39 | every chord processBlock adds is spaced and is the chord of a non-empty result of one of the six (index list, depth) walks |
| EdgeRock1.LeadChordsSpaced | src/main/kotlin/org/metaetcher/music/examples/EdgeRock1.kt:22-35 | every chord of the lead part has notes, pairwise spaced, and comes from one block's non-empty result |
| EdgeRock1.PartA.constructor | src/main/kotlin/org/metaetcher/music/examples/EdgeRock1.kt:20-35 | the lead part on channel 0 with the piano patch. It receives every block's chords in order from tick 0, each block walking 3 index lists times 2 depths. Its cursor ends at their total length and it gets no single notes |
| EdgeRock1.PartA.ToNotes | src/main/kotlin/org/metaetcher/music/examples/EdgeRock1.kt:38-47 | the assembled chord over the scale transposed to the part's root: pairwise spaced, no longer than the result, empty exactly when the result is, first point first |

## Left out

- The complex-plane code (`Complex.kt`, `Coords.kt`, `f1`, `f2`, `modPhase`, `ceilAbs`) is floating point. Each point of a result enters the model as two integers, its sector (`modPhase`) and its duration (`ceilAbs`).
- `algoACircle` is not part of this model; its source is not among the files modelled. It becomes a parameter, the `Walk` function from an index list and a depth to the results. A block's complex function, number of points, range and radius, and the starting point `z`, only shape what that walk returns.
- All `main` functions, `SequencePlayer`, `Part.midi()`, `Events.kt` and `HighLevelEvents.kt` are playback, sequencing and MIDI message construction.
- `initSynth`, `setInstr`, `close` and `t0` are device I/O and wall-clock time.
- `register` is abstract in the source. Registering is modelled as appending the event to a log.
- `gmPatch` is not part of this model. The instrument is a number given by the caller, so the `Part` constructor taking an instrument name is left out.
- `Scales.kt` holds constant data only. Scales are parameters of the blocks.
- Kotlin `Int`/`Long` overflow is not modelled; all integers are unbounded. This covers `Cyc.i`, `12 * octave` in `wrapped` and the tick sums.
- `isDigit` and `uppercase(Locale.getDefault())` are modelled on ASCII only.
- `Iterable<Int>.wrapped` on a non-`Collection` converts to a list first; every collection is a sequence here, so the two overloads are one.
- The `vararg` overloads of `skipStep`, `Cyc` and `MultiNoteBuilder` are left out; they only repackage their arguments.
- Kotlin exceptions are modelled as preconditions: division by zero on an empty collection or empty `Cyc`, `maxOf` and `maxOrNull()!!` on an empty collection, an array index outside the 16 channels, and the index into `namesSharp` for a negative pitch that is not a multiple of 12 (for example -1), whose pitch class is negative, so `Integers.MidiPitchNameAndOctave` requires a non-negative pitch class. `NoSuchElementException` from `next()` past the end of a finite source is modelled the same way: `Iterators.IntIter.Next`, `NoteBuilders.NoteBuilder.Next` and `NoteBuilders.MultiNoteBuilder.Next` require `HasNext()`. When a later source runs out, Kotlin has already advanced the earlier ones (the three sources of a note, the builders of a chord); that partial advance is not modelled. String parsing that can fail returns `Option`.
- `processBlock` prints its counter; `ProcessBlock` returns it instead.
- The sorted maps of `Part` are maps here. Their iteration order is used only by `midi()`, which is left out.
- `ChordLength` of an empty chord is 0. It is never used, because empty note lists are never added as chords.
- `NoteBuilders.NoteBuilder.constructor` requires the pitch, duration and velocity sources to live in different objects (each iterator's `holder`). This excludes one iterator passed twice and also two iterators of the same `Cyc`, which the source allows; the interleaving such shared sources produce through the `Cyc`'s one counter is not modelled.
- `NoteBuilders.MultiNoteBuilder.constructor` likewise requires the sources of all its builders to live in pairwise different objects. This excludes, for example, one duration `Cyc` shared by several builders, which the source allows; the interleaving that sharing produces is not modelled.
- `NoteBuilders.MultiNoteBuilder.constructor` takes each voice as a `NoteBuilder`. The source accepts any iterable of notes, such as a `List<Note>`; a finite note list is the same as a builder over its pitches, durations and velocities as three lists, so no behaviour is lost.
- `NoteBuilders.NoteBuilder.Next`, `NoteBuilders.NoteBuilder.Take` and the `MultiNoteBuilder` counterparts are calls through the builder's `iterator()`. That object has no state of its own, so they are members of the builder.
- `CycPattern.Cyc.Take` models the Kotlin `take(n)` extension on a `Cyc`, which asks for a new iterator and draws n times.
- `EdgeRock1.PartA.constructor` adds each block's chords through the same loop as `processBlock`, `Chords.AddBlock`. That loop builds each chord with the assembly that `ToNotes` performs, and `Chords.AddBlock` calls it through `Chords.AssembleNotes`.

## Findings

| source | as written | input that shows it | evidently intended | confidence | as-written member | corrected member |
|---|---|---|---|---|---|---|
| src/main/kotlin/org/metaetcher/music/integers/Integers.kt:121 | `aboveLowMidi` compares the maximum, not the minimum, with `PITCH_LOW` | `[0, 60]`: its maximum 60 is at least 21, so `validMidiPitches` accepts pitch 0 | every pitch at least 21, that is `minOrNull()!! >= PITCH_LOW` | not executed | Integers.ValidMidiPitchesAcceptsLowPitch | Integers.ValidMidiPitchesCorrectedMeaning |
| src/main/kotlin/org/metaetcher/music/integers/Integers.kt:112-117 | `midiPitch` starts the octave at the first digit, skipping the minus sign of octave -1 | pitch 0 prints as "C-1". The name "C-" has no pitch class (-1) and the octave reads as 1, so it parses to 23 | `midiPitch(midiPitchNameAndOctave(p)) == p` for pitches 0 to 11 too | not executed | Integers.MidiNameRoundTripFailsBelowTwelve | Integers.MidiNameRoundTripCorrected |
