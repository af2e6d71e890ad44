# Chord and scale generators of MusicInPython, in Dafny

This project models the generator core of MusicInPython. That core builds every chord and
every scale of the twelve-tone system, each from a root note and a table of intervals. It
is made of four Python files:

- `notes.py`: the 17 note names, the `Note` class (accidental, flat and sharp tests),
  `enharmonize_note`, and `ChromaticScaleGenerator`, which builds a root's chromatic scale
  as a list of `Note` objects.
- `intervals.py`: the table of the 12 interval slots with their 17 labels, and the
  `Interval` class. Its methods give the second note of an interval, or name the interval
  between two notes.
- `generators/chordgenerator.py`: the `Chord` class (root, ordered intervals, notes), the
  three name formatters, and the triad, seventh and extended generators. These grow a list
  of chord objects, copy it, filter it and format it. `generate_chords` files every chord
  of every root in a dictionary keyed by name and intervals.
- `generators/scalegenerator.py`: the `Scale` class (root, notes), the scale tables, and
  the `ScaleGenerator`, which lists scales and adds degree variations. `generate_all_scales`
  collects them for every root.

Each Python class whose methods update fields is a Dafny `class` with the same fields:

- `Note`, `ChromaticScaleGenerator`, `Interval`, `Chord`, the chord generator, `Scale` and
  `ScaleGenerator`.
- Their methods carry `modifies` clauses.
- Their loops carry invariants.

Each of these methods is proved against a specification function on values:

- `Chords.ChordValue` and `ScaleGenerators.ScaleValue` hold the state of one chord or one
  scale.
- `ChordStages` and `ScaleGenerators` hold the functions that say what each generation
  step produces.

A method's postcondition ties its new list of objects to such a function of the old list.
The lemmas then prove what the program promises about those functions. Examples:

- every chord's notes are the notes read from its final name and intervals;
- every generated chord or scale keeps its root;
- every key of the chord dump comes from one generated chord;
- a variation replaces only the first occurrence of a label and keeps the number of
  intervals;
- every generated scale can have its notes resolved.

The three Python chord generator classes (`TriadChordGenerator` and its two subclasses)
are one Dafny class, `ChordGenerators.ChordGenerator`. It carries a `Stage` value, and
`Generate` dispatches on it the way Python's method overriding does.

The two copies of `make_chromatic_scale`, in `chordgenerator.py` and `scalegenerator.py`,
are the same function, `Notes.ChromaticScale`. `get_all_intervals_index` and
`get_interval_index` are one method, `Intervals.GetAllIntervalsIndex`.

`add_variation` tests `variation[1:]` against the scale's labels. The key `VII` then matches
the label `II`, so the `maj7` entry replaces the second degree. The model keeps this
literal behaviour (`ScaleGenerators.SeventhVariationLiteral`).

Files:

- `wrappers.dfy`: `Option` and `Result`.
- `string_ops.dfy`: the Python string operations the core uses (`in`, `replace`, `count`,
  `join`, `split`, `[:-1]`).
- `notes.dfy`, `intervals.dfy`.
- `chords.dfy`: the `Chord` class.
- `chord_names.dfy`: the formatters.
- `chord_stages.dfy`: the value-level specification of each generator stage.
- `chord_generator.dfy`: the generator class.
- `chord_dump.dfy`, `chord_dumper.dfy`: `generate_chords`.
- `scale_generator.dfy`.

## Model

| member | source | states |
|---|---|---|
| Notes.KeysPartition | src/musicinpython/notes.py:59-80 | The sharp keys (10) and flat keys (7) are disjoint and together are exactly the 17 note names |
| Notes.AccidentalNames | src/musicinpython/notes.py:50-77 | A name lies in an accidental pair iff it is a catalog name that is not natural; accidentals have two characters, the second being `#` or `b`; naturals have one |
| Notes.FlatSharpExclusive | src/musicinpython/notes.py:151-169 | No name is both flat and sharp, a natural is neither, and every accidental is one of the two |
| Notes.Note.constructor | src/musicinpython/notes.py:125-138 | A note keeps its name and starts with an empty accident sign |
| Notes.NewNote | src/musicinpython/notes.py:125-138 | `Note(name)` succeeds exactly for the 17 catalog names and otherwise fails with `InvalidNoteNameError` carrying the name |
| Notes.Note.IsAccidental | src/musicinpython/notes.py:140-149 | Answers whether the name is in an accidental pair; on a match the sign becomes the name's second character, otherwise it is unchanged |
| Notes.Note.IsFlat | src/musicinpython/notes.py:151-159 | True exactly for accidentals whose sign is `b`, recording the sign as `is_accidental` does |
| Notes.Note.IsSharp | src/musicinpython/notes.py:161-169 | True exactly for accidentals whose sign is `#`, recording the sign as `is_accidental` does |
| Notes.ContainsSameLength | src/musicinpython/notes.py:181-186 | Between two-character names the substring test `name in item[i]` is equality |
| Notes.EnharmonicFromPair | src/musicinpython/notes.py:181-186 | The pair search returns the partner spelling from the pair that holds the accidental |
| Notes.EnharmonicInvolution | src/musicinpython/notes.py:172-186 | A name has an enharmonic iff it is accidental; the enharmonic is in the same pair with the opposite sign, and applying it twice gives the name back |
| Notes.Enharmonize | src/musicinpython/notes.py:172-186 | `enharmonize_note` returns a fresh valid note with the partner name for an accidental and nothing for a natural; its `is_accidental` call leaves the argument's sign set to the name's second character for an accidental, unchanged otherwise |
| Notes.WithoutMembers | src/musicinpython/notes.py:222-230 | The list comprehension keeps exactly the input names that lack the excluded sign |
| Notes.FilteredNames | src/musicinpython/notes.py:220-230 | The 17 names without flats are the sharp chromatic list from C; without sharps, the flat list |
| Notes.BaseScaleFiltered | src/musicinpython/notes.py:220-230 | A sharp key gets the names without `b`; a flat key that is not sharp gets the names without `#` |
| Notes.BaseScaleHoldsRoot | src/musicinpython/notes.py:220-230 | A catalog root gets a 12-name base list that holds it; any other text gets an empty list |
| Notes.BaseScaleDistinct | src/musicinpython/notes.py:220-230 | The base list repeats no name and holds only catalog names |
| Notes.BaseScaleSpelling | src/musicinpython/notes.py:220-230 | A sharp key's base list has no flats; a flat key's has no sharps |
| Notes.IndexOf | src/musicinpython/notes.py:240-243 | `list.index`: defined iff the name is present, and then the first position holding it |
| Notes.IndexOfDistinct | src/musicinpython/notes.py:240-243 | In a list without repeats, the index of a name is its only position |
| Notes.RotateAt | src/musicinpython/notes.py:243 | Entry `k` of `xs[i:] + xs[:i]` is entry `i + k` of `xs`, wrapping around |
| Notes.RotateKeeps | src/musicinpython/notes.py:243 | Rotation keeps the same members and keeps a list free of repeats |
| Notes.RotateToRoot | src/musicinpython/notes.py:239-244 | Rotating a 12-name list without repeats at the root's index gives 12 distinct names starting with the root |
| Notes.ChromaticScaleDefined | src/musicinpython/generators/chordgenerator.py:84-95 | `make_chromatic_scale` succeeds (no `ValueError` from `index`) exactly for the 17 catalog names |
| Notes.ChromaticScaleShape | src/musicinpython/generators/chordgenerator.py:84-95 | A catalog root's chromatic scale has 12 distinct names, starts with the root, and reads the base list cyclically from the root |
| Notes.ChromaticScaleNames | src/musicinpython/generators/scalegenerator.py:116-127 | The chromatic scale holds catalog names only |
| Notes.ChromaticScaleSharp | src/musicinpython/generators/chordgenerator.py:88-89 | A sharp key's chromatic scale is spelled without flats |
| Notes.ChromaticScaleFlat | src/musicinpython/generators/chordgenerator.py:90-91 | A flat key's chromatic scale is spelled without sharps |
| Notes.AccidentalSigns | src/musicinpython/notes.py:145-169 | A name contains `b` iff it is flat and contains `#` iff it is sharp |
| Notes.NaturalsUnsigned | src/musicinpython/notes.py:50 | No natural name carries a sign |
| Notes.ChromaticScaleCovers | src/musicinpython/intervals.py:248-253 | Every catalog name is in every catalog root's chromatic scale, either as spelled or as its enharmonic partner, so the second `index` in `get_name` cannot fail |
| Notes.ChromaticScaleOfC | src/musicinpython/generators/chordgenerator.py:84-95 | C's chromatic scale is the flat list from C, with `Bb` at position 10 |
| Notes.ChromaticScaleOfG | src/musicinpython/generators/chordgenerator.py:84-95 | G's chromatic scale is the sharp list rotated to start at G, with `F#` at position 11 |
| Notes.ChromaticScaleGenerator.constructor | src/musicinpython/notes.py:211-218 | A generator keeps its root and starts with no notes |
| Notes.ChromaticScaleGenerator.AppendNamesWithout | src/musicinpython/notes.py:223-230 | One comprehension pass appends a fresh note for each name lacking the sign, in order |
| Notes.ChromaticScaleGenerator.GenerateBaseScale | src/musicinpython/notes.py:220-230 | Appends one fresh note per name of the root's base list, in order |
| Notes.ChromaticScaleGenerator.Generate | src/musicinpython/notes.py:232-244 | Leaves 12 fresh notes whose names are the root's chromatic scale, the root first |
| Notes.ChromaticScaleGenerator.RotateToRootNote | src/musicinpython/notes.py:240-244 | Rotating the base list at the root's note gives the chromatic scale, reusing the same note objects |
| Notes.LastIndexOfName | src/musicinpython/notes.py:240-242 | The search loop finds the last note carrying the name, and finds one iff the name is present |
| Notes.GenerateRotation | src/musicinpython/notes.py:243-244 | The rotated note list names the chromatic scale and has 12 notes, the root first |
| Intervals.TablesAgree | src/musicinpython/intervals.py:42-75 | Opening the pairs of the 12-slot table in place gives the 17 unpacked labels in order, none repeated |
| Intervals.HoldsLabels | src/musicinpython/intervals.py:212-217 | The table test (`==` for a single entry, `in` for a pair) holds iff the label is one the entry stands for |
| Intervals.SlotFrom | src/musicinpython/intervals.py:212-217 | The slot search from `k` returns a slot at or after `k` whose entry holds the label, or reports that no later entry holds it |
| Intervals.SlotOfLabel | src/musicinpython/intervals.py:212-218 | Each of the 17 labels has exactly one slot below 12 whose entry holds it; any other text has none |
| Intervals.SlotAt | src/musicinpython/intervals.py:212-218 | A label held by entry `k` of the table has slot `k` |
| Intervals.SlotExamples | src/musicinpython/intervals.py:42-55 | `II` is slot 2, `bVII` slot 10, `bV` slot 6, `#V` slot 8 and `V` slot 7 |
| Intervals.GetAllIntervalsIndex | src/musicinpython/generators/chordgenerator.py:98-122 | The scan over the whole table yields the label's slot, and yields one iff the label is one of the 17; `get_interval_index` in `scalegenerator.py` (lines 130-153) is the same scan |
| Intervals.ClassificationExact | src/musicinpython/intervals.py:160-200 | Each of the 17 labels falls in exactly one of the six classes (unison, major, minor, diminished, perfect, augmented); any other text in none |
| Intervals.PreferredResolves | src/musicinpython/intervals.py:220-230 | Every slot resolves to a single label it holds; single entries stay as they are |
| Intervals.PassesPreferred | src/musicinpython/intervals.py:220-230 | The two walks over the enharmonic lists choose `III`, `#V`, `bIII`, `bVII` and `bV` for the five pairs |
| Intervals.PreferredLabels | src/musicinpython/intervals.py:220-230 | Exactly `bIV`, `bVI`, `#II`, `#VI` and `#IV` are never chosen as names |
| Intervals.Interval.constructor | src/musicinpython/intervals.py:136-158 | An interval keeps its name and its two notes |
| Intervals.NewInterval | src/musicinpython/intervals.py:136-158 | The three checks in the source's order: an unknown name, then a `note1` that is not a note, then a `note2` that is neither a note nor empty fails with that attribute; otherwise the interval is built |
| Intervals.Interval.GetSecondNote | src/musicinpython/intervals.py:202-218 | `note2` becomes a fresh valid note: `note1`'s chromatic scale at the label's slot |
| Intervals.Interval.ChooseNameForInterval | src/musicinpython/intervals.py:220-230 | A pair name is replaced by its chosen spelling; a single name is kept |
| Intervals.Interval.GetName | src/musicinpython/intervals.py:232-256 | Names the interval after the slot of `note2`'s spelling in `note1`'s scale, replacing `note2` by its enharmonic when that spelling is absent; when it is present `note2` stays the same object with its sign untouched, and otherwise the old `note2` gets the sign `is_accidental` records |
| Intervals.Spelling | src/musicinpython/intervals.py:248-253 | The spelling `get_name` looks up is in the root's scale and is the name itself or its enharmonic |
| Intervals.SlotNameOfTritone | src/musicinpython/intervals.py:220-230 | Slot 6, the tritone, is named `bV` |
| Intervals.NameAtSlot | src/musicinpython/intervals.py:245-256 | `get_name` answers the chosen spelling of the slot where the scale holds the note's spelling |
| Intervals.SecondNoteThenName | src/musicinpython/intervals.py:202-256 | Naming the note a label reaches from a root gives the chosen label of the same slot, which equals the label iff the label is a preferred spelling |
| Intervals.IntervalNameIsLabel | src/musicinpython/intervals.py:232-256 | For any two catalog notes, `get_name` answers one of the 17 labels, always a preferred spelling |
| Intervals.SecondNoteExamplesFromC | src/musicinpython/intervals.py:202-218 | From C, `bV` reaches Gb and `#V` reaches Ab |
| Intervals.IntervalNameExampleFromC | src/musicinpython/intervals.py:232-256 | From C to F# (spelled Gb in C's scale) the interval is `bV` |
| StringOps.TerminatedJoin | src/musicinpython/generators/chordgenerator.py:237-244 | Appending each note and a space, then dropping the last character, is joining the notes with spaces |
| StringOps.WordsJoin | src/musicinpython/generators/scalegenerator.py:308-311 | `split()` of labels joined by spaces gives the labels back |
| Chords.OrderIntervalsSorted | src/musicinpython/generators/chordgenerator.py:185-218 | `order_intervals` lists exactly the chord's intervals, each once, in strictly increasing position of the 17-label order |
| Chords.OrderIntervalsIs | src/musicinpython/generators/chordgenerator.py:185-218 | Any list of the chord's intervals in the 17-label order, without repeats, is what ordering gives |
| Chords.OrderIntervalsExample | src/musicinpython/generators/chordgenerator.py:196-218 | Cm7's intervals order as I, bIII, V, bVII |
| Chords.NoteNameChars | src/musicinpython/generators/chordgenerator.py:180-183 | A note name has one or two characters from A-G and the signs, and has two iff its second is a sign |
| Chords.RootOfRootPlus | src/musicinpython/generators/chordgenerator.py:171-183 | `get_root` reads back the root of a name built as root plus a suffix not starting with a sign |
| Chords.RootOfExamples | src/musicinpython/generators/chordgenerator.py:171-183 | `Cm7` has root C and `C#7M` has root C# |
| Chords.NotesForSecondNotes | src/musicinpython/generators/chordgenerator.py:238-243 | The note read for each interval is the interval's second note from the root |
| Chords.OrderedSlotted | src/musicinpython/generators/chordgenerator.py:235-241 | Every ordered interval of a chord with known intervals has a slot |
| Chords.ChordNotesWords | src/musicinpython/generators/chordgenerator.py:225-244 | The chord's notes split into exactly one note per interval, the `k`-th being the note of the `k`-th interval in order |
| Chords.MinorSeventhNotes | src/musicinpython/generators/chordgenerator.py:225-244 | A minor seventh chord sounds scale positions 0, 3, 7 and 10 of its root |
| Chords.ChordNotesExample | src/musicinpython/generators/chordgenerator.py:225-244 | Cm7 reads C, Eb, G and Bb, joined by spaces |
| Chords.PowerChordNotes | src/musicinpython/generators/chordgenerator.py:393-397 | A power chord reads the root and the fifth of its root's scale |
| Chords.Chord.constructor | src/musicinpython/generators/chordgenerator.py:156-169 | A chord keeps its name and intervals, with empty notes |
| Chords.Chord.DeepCopy | src/musicinpython/generators/chordgenerator.py:464 | A deep copy is a new object in the same state |
| Chords.Chord.AddIntervalAndTone | src/musicinpython/generators/chordgenerator.py:220-223 | The tone is appended to the name and the interval added to the set |
| Chords.Chord.GetChordNotes | src/musicinpython/generators/chordgenerator.py:225-244 | The notes become the ordered intervals' notes from the root, joined by spaces |
| ChordNames.RootedRoot | src/musicinpython/generators/chordgenerator.py:171-183 | `get_root` reads back the root of every generated name |
| ChordNames.FormatTriadSuffix | src/musicinpython/generators/chordgenerator.py:262-272 | The triad fix-up acts on the suffix only |
| ChordNames.FormatTriadRooted | src/musicinpython/generators/chordgenerator.py:262-272 | The triad fix-up keeps the name rooted at its root |
| ChordNames.FormatTriadExample | src/musicinpython/generators/chordgenerator.py:262-272 | A minor `mdim` triad becomes `dim` |
| ChordNames.FormatTriadName | src/musicinpython/generators/chordgenerator.py:262-272 | Sets the chord's name to the triad fix-up of its old name |
| ChordNames.FormatSeventhSuffix | src/musicinpython/generators/chordgenerator.py:274-290 | The seventh fix-up acts on the suffix only |
| ChordNames.FormatSeventhRooted | src/musicinpython/generators/chordgenerator.py:274-290 | The seventh fix-up keeps the name rooted at its root |
| ChordNames.FormatSeventhFlatFive | src/musicinpython/generators/chordgenerator.py:285-286 | A single `(b5)` moves to the end, the rest keeping its order |
| ChordNames.FormatSeventhSus | src/musicinpython/generators/chordgenerator.py:287-290 | `sus27` becomes `sus2/7` and `sus47` becomes `sus4/7` |
| ChordNames.FormatSeventhName | src/musicinpython/generators/chordgenerator.py:274-290 | Sets the chord's name to the seventh fix-up of its old name |
| ChordNames.FormatExtendedSuffix | src/musicinpython/generators/chordgenerator.py:292-309 | The six extended passes act on the suffix behind the root only |
| ChordNames.FormatExtendedRooted | src/musicinpython/generators/chordgenerator.py:292-309 | The extended fix-up keeps the name rooted at its root |
| ChordNames.FormatExtendedExamples | src/musicinpython/generators/chordgenerator.py:292-309 | A bare `/9` loses its slash; `m7/11` becomes `m7(11)` |
| ChordNames.FormatExtendedName | src/musicinpython/generators/chordgenerator.py:292-309 | Sets the chord's name to the extended fix-up of its old name |
| ChordStages.ExtendLength | src/musicinpython/generators/chordgenerator.py:460-466 | Each chord of the snapshot gets one copy per table entry |
| ChordStages.ExtendAt | src/musicinpython/generators/chordgenerator.py:460-466 | The copy of chord `i` with entry `j` sits at position `i * |table| + j` |
| ChordStages.ExtendHolds | src/musicinpython/generators/chordgenerator.py:523-530 | Every chord-entry combination is copied |
| ChordStages.ExtendFrom | src/musicinpython/generators/chordgenerator.py:523-530 | Every appended copy comes from some snapshot chord and table entry |
| ChordStages.StandardMembers | src/musicinpython/generators/chordgenerator.py:400-415 | A chord survives the removal pass iff it was in the pool and is standard for the stage |
| ChordStages.StandardKeepsAll | src/musicinpython/generators/chordgenerator.py:475-483 | A pool with nothing unstandard comes through unchanged |
| ChordStages.TriadTablesFit | src/musicinpython/generators/chordgenerator.py:366-391 | The thirds, fifths and sus tables use known labels and keep names rooted |
| ChordStages.TablesFit | src/musicinpython/generators/chordgenerator.py:458-546 | The same holds for the seventh table and, behind a slash, for the ninth, eleventh and thirteenth tables |
| ChordStages.StandardOverRoot | src/musicinpython/generators/chordgenerator.py:400-415 | The removal pass keeps every chord rooted at the generator's root |
| ChordStages.ExtendOverRoot | src/musicinpython/generators/chordgenerator.py:512-530 | Copies made with a fitting table stay rooted at the same root |
| ChordStages.TriadsOverRoot | src/musicinpython/generators/chordgenerator.py:353-391 | Every triad and sus chord is named after the root, with known intervals |
| ChordStages.FormatNameRooted | src/musicinpython/generators/chordgenerator.py:262-309 | Each stage's formatter keeps names rooted |
| ChordStages.FinishResolved | src/musicinpython/generators/chordgenerator.py:574-577 | The closing loop keeps every chord's root and intervals, and sets its notes to those read from its formatted name |
| ChordStages.TriadStageResolved | src/musicinpython/generators/chordgenerator.py:417-429 | After the triad generator every chord is rooted and resolved |
| ChordStages.SeventhPoolOverRoot | src/musicinpython/generators/chordgenerator.py:447-466 | The seventh copies stay rooted |
| ChordStages.SeventhStageResolved | src/musicinpython/generators/chordgenerator.py:485-492 | After the seventh generator every chord is rooted and resolved |
| ChordStages.ExtendedPoolOverRoot | src/musicinpython/generators/chordgenerator.py:532-551 | The three extension rounds stay rooted |
| ChordStages.ExtendedStageResolved | src/musicinpython/generators/chordgenerator.py:570-577 | After the extended generator every chord is rooted and resolved |
| ChordStages.AugmentedHitsAtMostOne | src/musicinpython/generators/chordgenerator.py:413-415 | At most one of the `aug` and `5+` tests fires on a generated triad name |
| ChordStages.AugmentedHitsNone | src/musicinpython/generators/chordgenerator.py:413-415 | Chords without the minor third are never removed by those tests |
| ChordStages.TriadChordHits | src/musicinpython/generators/chordgenerator.py:408-415 | Each triad is hit at most once by the removal tests |
| ChordStages.TriadPoolHitsAtMostOnce | src/musicinpython/generators/chordgenerator.py:400-415 | No chord of the triad pool is removed twice, so no `remove` raises `ValueError` |
| ChordStages.PowerChordResolved | src/musicinpython/generators/chordgenerator.py:393-398 | The power chord is resolved and reads the root and the fifth |
| ChordStages.CatalogResolved | src/musicinpython/generators/chordgenerator.py:603-604 | Every chord read for a root is rooted there, has known labels, and carries the notes of its final name and intervals |
| ChordStages.StageResolved | src/musicinpython/generators/chordgenerator.py:580-582 | Each of the three generators leaves only resolved chords |
| ChordGenerators.Find | src/musicinpython/generators/chordgenerator.py:411 | `list.remove` takes out the first occurrence of the object |
| ChordGenerators.NewTriad | src/musicinpython/generators/chordgenerator.py:372-375 | A fresh chord with the root, the third and the fifth added in that order |
| ChordGenerators.NewPowerChord | src/musicinpython/generators/chordgenerator.py:395-397 | A fresh `5` chord with root and fifth and its notes already read |
| ChordGenerators.NewCopy | src/musicinpython/generators/chordgenerator.py:527-529 | A fresh deep copy with the separator, the tone and the interval added |
| ChordGenerators.FinishChord | src/musicinpython/generators/chordgenerator.py:575-577 | The stage's fix-up of the name, then `get_chord_notes` |
| ChordGenerators.ChordGenerator.constructor | src/musicinpython/generators/chordgenerator.py:340-351 | A generator keeps its root and starts with no chords |
| ChordGenerators.ChordGenerator.Append | src/musicinpython/generators/chordgenerator.py:376 | `list.append`: the chord is added at the end |
| ChordGenerators.ChordGenerator.GenerateTriads | src/musicinpython/generators/chordgenerator.py:353-376 | Appends fresh triads, thirds outermost, in the source's order |
| ChordGenerators.ChordGenerator.GenerateTriadsOn | src/musicinpython/generators/chordgenerator.py:368-376 | One pass over the thirds appends the triads on that third, every fifth and tone in order, after those already made |
| ChordGenerators.ChordGenerator.GenerateSusChords | src/musicinpython/generators/chordgenerator.py:378-391 | Appends one fresh chord per sus entry |
| ChordGenerators.ChordGenerator.GeneratePowerChord | src/musicinpython/generators/chordgenerator.py:393-398 | Appends the root's power chord |
| ChordGenerators.ChordGenerator.RemoveChord | src/musicinpython/generators/chordgenerator.py:411 | Takes out the first occurrence of the object and keeps the list free of repeats |
| ChordGenerators.ChordGenerator.RemoveUnstandardTriadChords | src/musicinpython/generators/chordgenerator.py:400-415 | Leaves exactly the standard triads, in order |
| ChordGenerators.ChordGenerator.DropTriad | src/musicinpython/generators/chordgenerator.py:409-415 | The chord goes iff a triad test fires on it, and the other chords stay in place |
| ChordGenerators.ChordGenerator.RemoveUnstandardSeventhChords | src/musicinpython/generators/chordgenerator.py:468-483 | Leaves exactly the chords without `mmaj7`, `susmaj7`, `augmaj7` or `dim7`, in order |
| ChordGenerators.ChordGenerator.RemoveUnstandardExtendedChords | src/musicinpython/generators/chordgenerator.py:553-568 | Leaves exactly the chords with no 2, 4 or 6 beyond a bare root-digit name, in order |
| ChordGenerators.ChordGenerator.RemoveUnstandard | src/musicinpython/generators/chordgenerator.py:408-415 | The shared removal pass leaves the stage's standard chords |
| ChordGenerators.ChordGenerator.RemovalPass | src/musicinpython/generators/chordgenerator.py:558-567 | The loop over the copy keeps exactly the unflagged chords |
| ChordGenerators.ChordGenerator.Visit | src/musicinpython/generators/chordgenerator.py:558-567 | One turn of the removal loop: the visited chord leaves the list iff the stage flags it, so the list stays the kept chords followed by those not yet visited |
| ChordGenerators.ChordGenerator.VisitNamed | src/musicinpython/generators/chordgenerator.py:559-568 | The same turn in the seventh and extended stages, whose test reads only the name |
| ChordGenerators.ChordGenerator.VisitTriad | src/musicinpython/generators/chordgenerator.py:407-415 | The same turn in the triad stage: a chord that fails at most one test is removed once iff it fails one |
| ChordGenerators.ChordGenerator.FinishChords | src/musicinpython/generators/chordgenerator.py:574-577 | The closing loop formats and resolves every chord, in place |
| ChordGenerators.ChordGenerator.FinishAt | src/musicinpython/generators/chordgenerator.py:575-577 | One turn of the closing loop: chord `k` is formatted and resolved, and every other chord keeps its value |
| ChordGenerators.ChordGenerator.RemoveAndFinish | src/musicinpython/generators/chordgenerator.py:573-577 | The removal pass, then the closing loop: the list ends as the stage's standard chords, formatted and resolved |
| ChordGenerators.ChordGenerator.GenerateTriadPool | src/musicinpython/generators/chordgenerator.py:423-424 | The triads, then the sus chords |
| ChordGenerators.ChordGenerator.GenerateTriadStage | src/musicinpython/generators/chordgenerator.py:417-429 | The triad generator's list is the triad stage |
| ChordGenerators.ChordGenerator.GenerateSeventhChords | src/musicinpython/generators/chordgenerator.py:447-466 | The triad stage followed by its seventh copies |
| ChordGenerators.ChordGenerator.GenerateNthChords | src/musicinpython/generators/chordgenerator.py:512-530 | The list followed by one slash copy per chord and entry |
| ChordGenerators.ChordGenerator.AppendCopies | src/musicinpython/generators/chordgenerator.py:460-466 | Appends the copies of each chord of a snapshot, chord by chord, entry by entry |
| ChordGenerators.ChordGenerator.AppendCopiesOf | src/musicinpython/generators/chordgenerator.py:525-530 | Appends one chord's copies, one per entry and tone, in table order, after the list |
| ChordGenerators.ChordGenerator.GenerateSeventhStage | src/musicinpython/generators/chordgenerator.py:485-492 | The seventh generator's list is the seventh stage |
| ChordGenerators.ChordGenerator.GenerateExtendedChords | src/musicinpython/generators/chordgenerator.py:532-551 | The seventh stage grown by the ninths, elevenths and thirteenths |
| ChordGenerators.ChordGenerator.GenerateNinthChords | src/musicinpython/generators/chordgenerator.py:548-549 | The seventh stage followed by one slash copy per chord and ninth |
| ChordGenerators.ChordGenerator.GenerateEleventhChords | src/musicinpython/generators/chordgenerator.py:548-550 | The seventh stage grown by the ninths, then by the elevenths |
| ChordGenerators.ChordGenerator.GenerateExtendedStage | src/musicinpython/generators/chordgenerator.py:570-577 | The extended generator's list is the extended stage |
| ChordGenerators.ChordGenerator.Generate | src/musicinpython/generators/chordgenerator.py:580-582 | `generate` dispatched on the generator's class |
| ChordGenerators.ChordGenerator.GenerateCatalog | src/musicinpython/generators/chordgenerator.py:603-604 | `generate` then `generate_power_chord`: the root's catalog |
| ChordDump.RecordLookup | src/musicinpython/generators/chordgenerator.py:605-608 | Filing entries: a key is present iff it was present before or some entry has it, and it maps to the last such entry's notes |
| ChordDump.RecordConcat | src/musicinpython/generators/chordgenerator.py:601-608 | Filing two lists in turn is filing their concatenation |
| ChordDump.FiledSnoc | src/musicinpython/generators/chordgenerator.py:601-609 | Each root adds its catalog to what is read |
| ChordDump.CatalogsResolved | src/musicinpython/generators/chordgenerator.py:601-609 | Each root's catalog is resolved for that root |
| ChordDump.CatalogKnown | src/musicinpython/generators/chordgenerator.py:606 | Every catalog chord's intervals can be ordered |
| ChordDump.FiledResolved | src/musicinpython/generators/chordgenerator.py:601-609 | Every chord read is resolved for the root it came from |
| ChordDump.FiledKnown | src/musicinpython/generators/chordgenerator.py:606 | Every chord read has a key |
| ChordDump.RecordHasAll | src/musicinpython/generators/chordgenerator.py:605-608 | After filing, every entry's key is present |
| ChordDump.DumpSnoc | src/musicinpython/generators/chordgenerator.py:601-609 | One more root files its catalog on top of the dump so far |
| ChordDump.DumpComplete | src/musicinpython/generators/chordgenerator.py:585-610 | Every chord generated for every root has its key in the dump |
| ChordDump.DumpSound | src/musicinpython/generators/chordgenerator.py:585-610 | Every dump entry comes from a chord generated for one of the roots, filed under its own key, with that chord's resolved notes |
| ChordDumper.RootsKnown | src/musicinpython/generators/chordgenerator.py:49-67 | The roots walked are the 17 catalog names |
| ChordDumper.FileChords | src/musicinpython/generators/chordgenerator.py:605-608 | The inner loop files each chord under `name (intervals)` with its notes |
| ChordDumper.GenerateChords | src/musicinpython/generators/chordgenerator.py:585-610 | The dump is the catalog of every root filed in root order, and the generator's list ends empty |
| ChordDumper.FileRoot | src/musicinpython/generators/chordgenerator.py:601-609 | One root's pass grows the dump by that root's catalog and clears the list |
| ChordDumper.ReadCatalog | src/musicinpython/generators/chordgenerator.py:602-604 | Sets the root, then generates the root's catalog |
| ChordDumper.FileCatalog | src/musicinpython/generators/chordgenerator.py:605-608 | Filing one root's catalog gives the dump of the roots so far |
| ScaleGenerators.PutAbsent | src/musicinpython/generators/scalegenerator.py:75-76 | Putting a new key appends the entry at the end, as a dict keeps insertion order |
| ScaleGenerators.UpdateDisjoint | src/musicinpython/generators/scalegenerator.py:75-76 | `update` with new, pairwise distinct keys appends its entries in order |
| ScaleGenerators.DiatonicScalesShape | src/musicinpython/generators/scalegenerator.py:58-76 | The diatonic table is the base scales updated with the Greek modes: 11 entries, base scales first |
| ScaleGenerators.TablesLabelled | src/musicinpython/generators/scalegenerator.py:58-81 | Every label in the diatonic and pentatonic tables has a slot in the table of intervals |
| ScaleGenerators.VariationTablesAlter | src/musicinpython/generators/scalegenerator.py:317-320 | Every key of the four variation tables is a single label with a slot |
| ScaleGenerators.ScaleRootIsRootOf | src/musicinpython/generators/scalegenerator.py:193-205 | `get_root` succeeds iff the name has at least two characters, and then reads the root as the chord's `get_root` does |
| ScaleGenerators.ScaleRootOfName | src/musicinpython/generators/scalegenerator.py:193-205 | A name made of a catalog root, a space and anything has that root |
| ScaleGenerators.ScaleRootAppend | src/musicinpython/generators/scalegenerator.py:312 | Appending a suffix to a name of two or more characters keeps its root |
| ScaleGenerators.ScaleRootExample | src/musicinpython/generators/scalegenerator.py:193-205 | `F# Minor` has root `F#` |
| ScaleGenerators.NotesAfterEmpty | src/musicinpython/generators/scalegenerator.py:218-221 | From empty notes, the loop and the final `[:-1]` leave the notes joined by single spaces |
| ScaleGenerators.ScaleNotesWords | src/musicinpython/generators/scalegenerator.py:207-221 | The notes split into one note per listed label, in the listed order |
| ScaleGenerators.PentatonicNotesExample | src/musicinpython/generators/scalegenerator.py:207-221 | C Major pentatonic with `I II III V VI` reads `C D E G A` |
| ScaleGenerators.MinorNotesExample | src/musicinpython/generators/scalegenerator.py:207-221 | F# Minor with `I II bIII IV V bVI bVII` reads `F# G# A B C# D E` |
| ScaleGenerators.Scale.constructor | src/musicinpython/generators/scalegenerator.py:183-191 | A scale keeps its intervals and name, with empty notes |
| ScaleGenerators.Scale.DeepCopy | src/musicinpython/generators/scalegenerator.py:307 | A deep copy is a new scale in the same state |
| ScaleGenerators.Scale.GetScaleNotes | src/musicinpython/generators/scalegenerator.py:207-221 | Appends each label's note and a space to the notes and drops the last character; from empty notes that is the scale's notes joined by spaces |
| ScaleGenerators.VariantShape | src/musicinpython/generators/scalegenerator.py:306-312 | A copy exists iff the key without its first character is one of the labels; it replaces the first occurrence only, keeps the number of labels, appends a space and the suffix to the name, and keeps the notes |
| ScaleGenerators.VariantsOfSource | src/musicinpython/generators/scalegenerator.py:305-313 | Every copy of one scale comes from an applicable entry |
| ScaleGenerators.VariantsOfComplete | src/musicinpython/generators/scalegenerator.py:305-313 | Every applicable entry gives its copy |
| ScaleGenerators.VariationsSource | src/musicinpython/generators/scalegenerator.py:303-313 | Every appended copy comes from a scale of the snapshot and an applicable entry |
| ScaleGenerators.VariationsComplete | src/musicinpython/generators/scalegenerator.py:303-313 | The copies of every snapshot scale are appended |
| ScaleGenerators.VariationsBound | src/musicinpython/generators/scalegenerator.py:303-313 | At most one copy per scale and entry |
| ScaleGenerators.VariantsOfBound | src/musicinpython/generators/scalegenerator.py:305-313 | One scale gets at most one copy per entry |
| ScaleGenerators.FourthVariationExample | src/musicinpython/generators/scalegenerator.py:306-312 | The `bIV` entry turns C Major into `I II III bIV V VI VII`, named `C Major b4` |
| ScaleGenerators.SeventhVariationLiteral | src/musicinpython/generators/scalegenerator.py:306-320 | The `VII` key matches the label `II`: C Major becomes `I VII III IV V VI VII`, named `C Major maj7` |
| ScaleGenerators.VariantRooted | src/musicinpython/generators/scalegenerator.py:306-312 | A copy keeps the root, and a key that is a label leaves every label slotted |
| ScaleGenerators.VariantsOfRooted | src/musicinpython/generators/scalegenerator.py:305-313 | All copies of a resolvable scale stay resolvable on the same root |
| ScaleGenerators.VariedRooted | src/musicinpython/generators/scalegenerator.py:290-313 | `add_variation` keeps every scale of the list resolvable on the root |
| ScaleGenerators.AllVariationsRooted | src/musicinpython/generators/scalegenerator.py:315-325 | The four variation rounds keep every scale resolvable on the root |
| ScaleGenerators.ListedRooted | src/musicinpython/generators/scalegenerator.py:283-288 | Every scale `generate` lists for a catalog root is resolvable on that root |
| ScaleGenerators.RootScalesResolvable | src/musicinpython/generators/scalegenerator.py:344-348 | Every scale collected for a catalog root is rooted there and its notes can be resolved |
| ScaleGenerators.AllScalesResolvable | src/musicinpython/generators/scalegenerator.py:342-351 | Every scale collected over catalog roots can have its notes resolved |
| ScaleGenerators.GeneratedScalesResolvable | src/musicinpython/generators/scalegenerator.py:328-351 | Every scale `generate_all_scales` returns can have its notes resolved |
| ScaleGenerators.ScaleGenerator.constructor | src/musicinpython/generators/scalegenerator.py:268-271 | A generator keeps its root and starts with no scales |
| ScaleGenerators.ScaleGenerator.GenerateEntry | src/musicinpython/generators/scalegenerator.py:284-288 | Appends one new scale named after the root and the key, with the entry's intervals |
| ScaleGenerators.ScaleGenerator.Generate | src/musicinpython/generators/scalegenerator.py:273-288 | Appends one new scale per table entry, in table order, leaving earlier scales in place |
| ScaleGenerators.ScaleGenerator.AddVariant | src/musicinpython/generators/scalegenerator.py:306-313 | Appends the copy iff the entry applies; the original is untouched |
| ScaleGenerators.ScaleGenerator.AddVariantsOf | src/musicinpython/generators/scalegenerator.py:305-313 | Appends the copies of one scale, entry by entry |
| ScaleGenerators.ScaleGenerator.AddVariation | src/musicinpython/generators/scalegenerator.py:290-313 | Keeps the existing scales in place and unchanged, then appends the copies of each scale of the snapshot, scale by scale |
| ScaleGenerators.ScaleGenerator.ListScales | src/musicinpython/generators/scalegenerator.py:345-347 | Sets the root and lists the diatonic then pentatonic scales |
| ScaleGenerators.ScaleGenerator.GenerateVariations | src/musicinpython/generators/scalegenerator.py:315-325 | Applies the second, fourth, sixth and seventh variation tables in turn |
| ScaleGenerators.CollectRoot | src/musicinpython/generators/scalegenerator.py:345-350 | One root's scales, varied, with the generator's list cleared after |
| ScaleGenerators.CollectNext | src/musicinpython/generators/scalegenerator.py:344-350 | One loop pass grows the result by the scales of the next root |
| ScaleGenerators.GenerateAllScales | src/musicinpython/generators/scalegenerator.py:328-351 | The scales of every root, root by root, in root order |

## Left out

- Console I/O is not modelled: `note_input`, `interval_input`, the `get_*_interface` functions, `run`, the message builders (`display_chromatic_scale`, `all_about_note`, `all_about_interval`) and the command-line entry points. They only read input and print.
- `dump_chords_to_json` and `dump_scales` are not modelled, nor file paths. They write JSON to disk; the dictionary `generate_chords` returns is modelled.
- `chords.py`, `scales.py`, `harmonies.py` and `datahelper.py` are not part of this model. They read the generated JSON files.
- Python's `type(x) == ...` checks become a tagged argument (`Intervals.NoteArg`), and exceptions become `Result` or `Option` values.
- Notes.Note.constructor: requires a catalog name. The failing case, `InvalidNoteNameError`, is modelled by `Notes.NewNote`.
- Notes.ChromaticScaleGenerator.Generate: requires an empty note list, as on a fresh generator. The source appends to any notes already there.
- Intervals.Interval.GetSecondNote: requires one of the 17 labels. With any other name the source's `index` is unbound and it raises `UnboundLocalError`.
- Intervals.Interval.GetName: requires both notes to be valid catalog notes, as the `Note` constructor guarantees.
- Chords.Chord.GetChordNotes: requires a catalog root and known intervals. Otherwise the source raises `ValueError`, `UnboundLocalError` or `IndexError`. Every generated chord meets the requirement (`ChordStages.CatalogResolved`).
- ScaleGenerators.Scale.GetScaleNotes: requires a name with a catalog root and labels with slots. Otherwise the source raises `IndexError`, `ValueError` or `UnboundLocalError`. Every generated scale meets the requirement (`ScaleGenerators.GeneratedScalesResolvable`).
- ScaleGenerators.Scale.GetScaleNotes: the loop collects the added text in a local string and appends it once. The source appends to `notes` at each step. The end state is the same and is stated exactly.
- ChordGenerators.ChordGenerator.RemoveUnstandardTriadChords: requires each chord to fail at most one triad test. A second `remove` of the same chord would raise `ValueError`. The generated pool meets this (`ChordStages.TriadPoolHitsAtMostOnce`).
- ChordGenerators.ChordGenerator.VisitTriad and ChordGenerators.ChordGenerator.Visit: carry the same at-most-one-test requirement for the triad stage.
- ChordGenerators.ChordGenerator.GenerateTriadsOn, GenerateNinthChords, GenerateEleventhChords, AppendCopiesOf, Visit, VisitNamed, VisitTriad, FinishAt and RemoveAndFinish: split a loop or a method of the source into steps, each with its own contract.
- ChordGenerators.ChordGenerator.RemoveUnstandardExtendedChords: requires non-empty names, since `get_root` on an empty name raises `IndexError`. Every generated name starts with its root.
- ChordGenerators.ChordGenerator.RemoveChord: `list.remove` compares with `==`, which for `Chord` (no `__eq__`) is object identity. The model removes the first occurrence of the same object.
- ChordGenerators.ChordGenerator.GenerateTriadStage, GenerateSeventhStage, GenerateExtendedStage, Generate and GenerateCatalog: all require an empty list. `generate_chords` starts from a fresh generator and clears the list after each root, so this is the only state they are called in.
- ChordGenerators.ChordGenerator.GenerateCatalog: states the values of the list but not that its chord objects are fresh.
- ChordDumper.GenerateChords: requires a generator with an empty list, as `run` creates it.
- ScaleGenerators.ScaleGenerator.ListScales: requires an empty list, which `generate_all_scales` guarantees by clearing it after each root.
- ScaleGenerators.CollectRoot and ScaleGenerators.CollectNext: split one pass of the loop of `generate_all_scales` into steps.
- ScaleGenerators.GenerateAllScales: the result holds the generator's own scale objects, as the source's `extend` does, but the contract states only their values (`ScaleValues`), not which objects they are.
- Dictionaries become sequences of key-value pairs in insertion order (`ScaleGenerators.Table`, `ChordStages.Addition`); the iteration order of Python dictionaries is their insertion order.
