# musicpp in Dafny

A model of the core of musicpp, a header-only C++ library for music theory. It
covers:

- pitches on the line of fifths (`note`, `interval`);
- note lengths as fractions (`duration`);
- scale degrees;
- chord patterns, chord instances and slash chords;
- chord recognition against a catalogue of 45 chord qualities;
- naming a recognised chord as a Roman numeral in a key;
- scales, their modes and the chords stacked on their degrees;
- time signatures and metric positions;
- melodies, chord sequences and degree-based progressions.

A note is a pair (fifth, octave): `fifth` counts perfect fifths from C and
`octave` corrects the register. The MIDI number is `7·fifth + 12·octave + 12`
and the pitch class is `7·fifth mod 12`. An interval is the same kind of pair.
A duration is a fraction that the constructor reduces and gives a positive
denominator. Every fixed-size `std::array` of the library is a Dafny `seq`.
Its compile-time size becomes a precondition on the length, or on an index,
wherever the library's `static_assert` demands one.

One module per header, with `chords.hpp` split along its own sections:

| module | file | header |
|---|---|---|
| `Intervals` | intervals.dfy | intervals.hpp |
| `Notes` | notes.dfy | notes.hpp |
| `Durations` | duration.dfy | duration.hpp |
| `Degrees` | degree.dfy | degree.hpp |
| `ChordPatterns` | chord_patterns.dfy | chords.hpp, patterns and instances |
| `ChordCatalog` | chord_catalog.dfy | chords.hpp, `chord_info` and `chord_db` |
| `ChordMatcher` | chord_matcher.dfy | chords.hpp, `find_matches` and `analyze_all` |
| `DegreeMapper` | degree_mapper.dfy | chords.hpp, Roman-numeral analysis |
| `Scales` | scales.dfy | scales.hpp |
| `Timing` | timing.dfy | timing.hpp |
| `Melody` | melody.dfy | melody.hpp |
| `ChordSequence` | chord_sequence.dfy | chord_sequence.hpp |
| `Progressions` | progressions.dfy | progressions.hpp |

Three helper modules support these:

- `Common`: option type, decimal text, `Join`.
- `PitchClassSets`: the 12-bit pitch-class mask, modelled as a set of bit positions.
- `Sorting`: a stable insertion sort, with lemmas for sortedness, permutation and stability.

Code that loops or updates in place is a `method` with loop invariants. Each such
method is proved equal to a specification function, and the properties are
proved about that function as lemmas.

## Model

| member | source | states |
|---|---|---|
| Intervals.Shift | include/musicpp/intervals.hpp:19-22 | `iv(k)` keeps the fifths, adds k octaves, and keeps the semitone class |
| Intervals.Semitones | include/musicpp/intervals.hpp:45-48 | the semitone class lies in [0, 12) and is 7·fifths mod 12, for negative fifths too |
| Intervals.GroupLaws | include/musicpp/intervals.hpp:24-40 | intervals form a group: a + (−a) = P1, a − b = a + (−b), (a + b) − b = a, −(−a) = a |
| Intervals.SemitonesAdditive | include/musicpp/intervals.hpp:30-34 | the semitone class of a sum is the sum of the classes mod 12 |
| Intervals.QualityText | include/musicpp/intervals.hpp:61-80 | the quality text is never empty |
| Intervals.StrSign | include/musicpp/intervals.hpp:55-59 | a name has at least two characters; it starts with '-' exactly when the raw number is below 1, and then no second '-' follows |
| Intervals.QualityTextIsLetters | include/musicpp/intervals.hpp:61-80 | the quality text starts with one of P, A, d, M, m |
| Intervals.AddAssign | include/musicpp/intervals.hpp:85-88 | `+=` adds componentwise, and subtracting the operand again restores the old value |
| Intervals.CompoundIntervals | include/musicpp/intervals.hpp:122-128 | the compound constants m9, M9, A9, P11, A11, m13, M13 have their (fifths, octaves) values; P4 + P5 = P8 and P5 − M3 = m3 |
| Intervals.EnharmonicExamples | include/musicpp/intervals.hpp:50-53 | A4 ~ d5 and A1 ~ m2 are enharmonic, P4 and P5 are not; P5, M3, m3 have 7, 4, 3 semitones |
| Intervals.NameExamples | include/musicpp/intervals.hpp:55-83 | P5, M3, m7, A4, d5 and P8 print as their conventional names |
| Notes.AtOctave | include/musicpp/notes.hpp:27-30 | `n(k)` keeps the spelling and moves the MIDI number by 12·k |
| Notes.ArithmeticLaws | include/musicpp/notes.hpp:33-50 | (n + iv) − iv = n; m + (n − m) = n; n − iv = n + (−iv); (n + iv) − n = iv |
| Notes.Pitch | include/musicpp/notes.hpp:56-59 | the pitch class lies in [0, 12) and is 7·fifth mod 12 |
| Notes.PitchIsMidiModOctave | include/musicpp/notes.hpp:52-59 | the pitch class is the MIDI number mod 12 |
| Notes.SameMidiSamePitch | include/musicpp/notes.hpp:52-64 | equal MIDI numbers give equal pitch classes |
| Notes.PitchPlus | include/musicpp/notes.hpp:33-37 | adding an interval adds its semitone class to the pitch class, mod 12 |
| Notes.MidiPlus | include/musicpp/notes.hpp:33-37 | adding an interval adds 7·fifths + 12·octaves to the MIDI number |
| Notes.Simplify | include/musicpp/notes.hpp:66-77 | simplifying keeps the MIDI number and the pitch class, and puts the fifth in the preference's 12-wide window |
| Notes.SimplifyCanonical | include/musicpp/notes.hpp:66-77 | notes with the same MIDI number simplify to the same note; simplifying is idempotent |
| Notes.FifthFromPitchInWindow | include/musicpp/notes.hpp:66-77 | two notes in the same 12-wide window with the same MIDI number are equal |
| Notes.LessIsStrictTotalOrder | include/musicpp/notes.hpp:79 | the defaulted `<=>` is a strict total order: irreflexive, transitive, total, asymmetric |
| Notes.LetterIndex | include/musicpp/notes.hpp:104-105 | the letter index lies in [0, 7) |
| Notes.PitchName | include/musicpp/notes.hpp:101-117 | the letter is "FCGDAEB"[index], followed by exactly |accidentals| '#' (positive) or 'b' (negative) |
| Notes.PitchNameInjective | include/musicpp/notes.hpp:101-117 | equal pitch names mean equal fifths: the spelling is recoverable from the name |
| Notes.DisplayOctaveMeaning | include/musicpp/notes.hpp:96-97 | MIDI = 12·(display octave + 1) + pitch class, so C4 is MIDI 60 |
| Notes.NamedNoteExamples | include/musicpp/notes.hpp:123-142 | C4 is MIDI 60 and A4 is 69; C4 < C5; C# and Db are enharmonic but different |
| Notes.SpellingExamples | include/musicpp/notes.hpp:101-117 | F#, Bb and C are spelled so |
| Notes.FullNameExamples | include/musicpp/notes.hpp:81-99 | `Fs(4)` prints "F#4" and `Bb(3)` prints "Bb3" |
| Notes.SharpFullName | include/musicpp/notes.hpp:81-99 | `Fs(4)` prints "F#4" |
| Notes.FlatFullName | include/musicpp/notes.hpp:81-99 | `Bb(3)` prints "Bb3" |
| Notes.SimplifyExample | include/musicpp/notes.hpp:66-77 | C#4 simplifies with the natural preference to Db4 |
| Common.NatToString | include/musicpp/duration.hpp:77 | `std::to_string` of a natural number: at least one character, all decimal digits |
| Common.NatToStringRoundTrip | include/musicpp/duration.hpp:77 | reading the digits back gives the number |
| Common.IntToString | include/musicpp/duration.hpp:77 | `std::to_string` of an integer is non-empty and starts with '-' iff the number is negative |
| Durations.ReduceFacts | include/musicpp/duration.hpp:16-22 | dividing by the gcd gives a positive denominator, coprime parts and the same ratio |
| Durations.MakeNormalises | include/musicpp/duration.hpp:16-22 | the constructor gives a positive denominator and coprime parts, and keeps n/d for either sign of d |
| Durations.MakeValue | include/musicpp/duration.hpp:16-22 | the constructed duration's value is n/d |
| Durations.MakeValueSigned | include/musicpp/duration.hpp:16-22 | the same for a negative denominator: the value is still n/d |
| Durations.MakeReduced | include/musicpp/duration.hpp:16-22 | constructing from an already reduced fraction gives it back |
| Durations.MakeIsReduced | include/musicpp/duration.hpp:16-22 | the constructor always yields a reduced fraction |
| Durations.ReducedUnique | include/musicpp/duration.hpp:16-22 | two reduced fractions with the same value are equal |
| Durations.ModifierValues | include/musicpp/duration.hpp:24-32 | dotted is ×3/2, double dotted ×7/4 and triplet ×2/3 of the value |
| Durations.AddValue | include/musicpp/duration.hpp:34-37 | the sum's value is the sum of the values |
| Durations.MulLeft | include/musicpp/duration.hpp:42-45 | `n * d` is `d * n` |
| Durations.MulValue | include/musicpp/duration.hpp:38-45 | multiplying by n multiplies the value by n, from either side |
| Durations.CompareIsByValue | include/musicpp/duration.hpp:47-56 | `==` and `<=>` compare by value, not by representation |
| Durations.Str | include/musicpp/duration.hpp:62-78 | the default quarter prints as "q" |
| Durations.StrShape | include/musicpp/duration.hpp:62-78 | the ten named lengths print without '/', every other length prints as num "/" den |
| Durations.DurationExamples | include/musicpp/duration.hpp:16-78 | 2/8 reduces to 1/4 and 1/−4 to −1/4; 1/4 == 2/8; 1/8 < 1/4; "w" and "q." |
| Degrees.Plain | include/musicpp/degree.hpp:12 | `degree(n)` has no alteration and is set exactly when n ≥ 1 |
| Degrees.Prefix | include/musicpp/degree.hpp:21-25 | the prefix is "b" iff alter is −1, "#" iff it is +1, and empty otherwise |
| Degrees.Flat | include/musicpp/degree.hpp:28 | `b(n)` keeps the number and has prefix "b" |
| Degrees.Sharp | include/musicpp/degree.hpp:29 | `s(n)` keeps the number and has prefix "#" |
| Degrees.DegreeFacts | include/musicpp/degree.hpp:11-29 | the default degree is unset; b(n), s(n) and degree(n) are pairwise different; degree(n) has no prefix |
| PitchClassSets.RelPc | include/musicpp/chords.hpp:542-549 | the pitch class relative to the root lies in [0, 12), is 0 iff it is the root, and root + r is the pitch class again |
| PitchClassSets.RelPcInjective | include/musicpp/chords.hpp:542-549 | different pitch classes stay different relative to a root |
| PitchClassSets.RotateFacts | include/musicpp/chords.hpp:542-549 | rotating a set to a root keeps its size; bit 0 is set iff the root sounds |
| ChordPatterns.PitchClassesOf | include/musicpp/chords.hpp:281-286 | the pattern's semitone set holds only classes in [0, 12) |
| Sorting.Insert | include/musicpp/chords.hpp:578-585 | insertion adds exactly one element and keeps the multiset |
| Sorting.InsertSorted | include/musicpp/chords.hpp:578-585 | inserting into a sorted sequence keeps it sorted |
| Sorting.SortBy | include/musicpp/chords.hpp:578-585 | the sort keeps the length and the multiset of elements |
| Sorting.SortBySorted | include/musicpp/chords.hpp:578-585 | the sort's output is ordered by the key |
| Sorting.SortByIsStable | include/musicpp/chords.hpp:578-585 | for every key value, the elements with that key keep their input order |
| ChordPatterns.PitchClassesOfMeaning | include/musicpp/chords.hpp:281-286 | a semitone class is in the pattern's set iff some interval has that class |
| ChordPatterns.Inversion | include/musicpp/chords.hpp:24-36 | the M-th inversion rotates left by M, raises the wrapped tones an octave, and keeps the pitch-class set |
| ChordPatterns.InversionKeepsPitchClasses | include/musicpp/chords.hpp:24-36 | any rotation with the wrapped tones raised has the same pitch-class set |
| ChordPatterns.OctaveKeepsSemitones | include/musicpp/chords.hpp:32-34 | adding P8 keeps the semitone class |
| ChordPatterns.Alter | include/musicpp/chords.hpp:38-45 | `alter<I>` replaces tone I and leaves every other tone alone |
| ChordPatterns.Omit | include/musicpp/chords.hpp:47-55 | `omit<I>` drops tone I: tones before it stay, tones after it shift down by one |
| ChordPatterns.AddTone | include/musicpp/chords.hpp:57-63 | `add` appends one tone after the existing ones |
| ChordPatterns.PatternEditLaws | include/musicpp/chords.hpp:38-63 | omitting the tone just added restores the pattern; altering to the same tone is identity; the last alteration wins |
| ChordPatterns.NamedPatternExamples | include/musicpp/chords.hpp:372-415 | dom7, dom13, power chord, dom9 no5 and dom11 no3 have the expected intervals |
| ChordPatterns.Dom13Sharp11AsWrittenLacksNinth | include/musicpp/chords.hpp:411 | as written, `dom13.alter<4>(A11)` has P11 and no 9th: [P1, M3, P5, m7, A11, P11, M13] |
| ChordPatterns.Dom13Sharp11HasNinthNotEleventh | include/musicpp/chords.hpp:411 | the corrected pattern is [P1, M3, P5, m7, M9, A11, M13]: it has the 9th and the #11 and no P11 |
| ChordPatterns.Dom13No5No11AsWrittenKeepsEleventh | include/musicpp/chords.hpp:417 | as written, `dom13_no5.omit<3>()` is [P1, M3, m7, P11, M13]: it drops the 9th and keeps the 11th |
| ChordPatterns.Dom13No5No11OmitsFifthAndEleventh | include/musicpp/chords.hpp:417 | the corrected pattern is [P1, M3, m7, M9, M13], with neither P5 nor P11 |
| ChordPatterns.Place | include/musicpp/chords.hpp:257-265 | root + pattern has one note per interval, and note i − root is interval i |
| ChordPatterns.PlaceSounds | include/musicpp/chords.hpp:257-265 | tone i sounds at the root's pitch class plus the interval's semitones, and at root MIDI + the interval's span |
| ChordPatterns.PlacePattern | include/musicpp/chords.hpp:257-265 | the loop builds exactly root + pattern |
| ChordPatterns.LowestIndex | include/musicpp/chords.hpp:145-147 | `min_element` by MIDI: no note is lower, and every earlier note is strictly higher (the first minimum) |
| ChordPatterns.HighestIndex | include/musicpp/chords.hpp:149-151 | `max_element` by MIDI: no note is higher, and every earlier note is strictly lower |
| ChordPatterns.LowestHighestBound | include/musicpp/chords.hpp:145-151 | lowest and highest are chord notes, and every note lies between them in MIDI |
| ChordPatterns.ContainsIsEnharmonic | include/musicpp/chords.hpp:153-162 | containing a note implies containing it enharmonically |
| ChordPatterns.SimplifyChord | include/musicpp/chords.hpp:164-173 | every note is simplified in place and keeps its MIDI number |
| ChordPatterns.RaisedAbove | include/musicpp/chords.hpp:201-205 | raising by octaves keeps the spelling, ends strictly above the bass, leaves a higher note alone, and overshoots by at most an octave |
| ChordPatterns.RaiseAll | include/musicpp/chords.hpp:200-206 | every chord note is raised above the bass |
| ChordPatterns.SlashOfFacts | include/musicpp/chords.hpp:197-210 | a slash chord keeps the bass and the spellings with all notes above it; it always succeeds when the bass is a chord tone; otherwise it throws iff some note is at or below the bass |
| ChordPatterns.RaiseAbove | include/musicpp/chords.hpp:202-204 | the `while` loop computes the raised note |
| ChordPatterns.MakeSlash | include/musicpp/chords.hpp:197-210 | the constructor's loops and its throw are exactly SlashOf: `None` for the throw |
| ChordPatterns.AllNotes | include/musicpp/chords.hpp:221-226 | the bass first, then the chord's notes |
| ChordPatterns.SimplifySlash | include/musicpp/chords.hpp:228-235 | the bass is simplified and keeps its MIDI number; the chord keeps its size |
| ChordPatterns.ChordExamples | include/musicpp/chords.hpp:257-265 | C4 + major triad is C4 E4 G4, and its slash chord over G3 is accepted |
| ChordPatterns.TriadOnC4 | include/musicpp/chords.hpp:257-265 | C4 + major triad is C4 E4 G4, with E4 = 64 and G4 = 67 |
| ChordPatterns.SlashOverG3 | include/musicpp/chords.hpp:197-210 | C4 E4 G4 over G3 is accepted: G3 is the fifth's pitch class, so the tones are raised above it |
| ChordCatalog.Info | include/musicpp/chords.hpp:275-288 | the entry keeps the name, and its tone count is the pattern's size |
| ChordCatalog.PitchClassesStep | include/musicpp/chords.hpp:281-284 | one loop step adds tone i's semitone class to the mask |
| ChordCatalog.InfoMeaning | include/musicpp/chords.hpp:275-288 | the mask holds exactly the semitone classes of the tones; the table holds tone j's class for j < 7 and −1 beyond |
| ChordCatalog.CppRem12 | include/musicpp/chords.hpp:282 | C++ `%` truncates: the remainder lies in (−12, 12) and matches the Euclidean one for non-negative operands |
| ChordCatalog.TruncatedOffset | include/musicpp/chords.hpp:282 | `(x % 12 + 12) % 12` with truncating `%` is the Euclidean class |
| ChordCatalog.SourceOffset | include/musicpp/chords.hpp:282 | the source's semitone expression equals the interval's semitone class |
| ChordCatalog.MakeChordInfo | include/musicpp/chords.hpp:275-288 | the loop builds exactly the specified entry |
| ChordCatalog.InfoAll | include/musicpp/chords.hpp:426-472 | the catalogue is, entry by entry, `make_chord_info` of the listed names and patterns |
| ChordCatalog.SharpElevenEntry | include/musicpp/chords.hpp:430 | the searched "13#11" entry is `dom13.alter<4>(A11)` as written: classes {0,4,5,6,7,9,10}, with the natural eleventh and no ninth; the corrected pattern would give {0,2,4,6,7,9,10} |
| ChordCatalog.SharpElevenSearched | include/musicpp/chords.hpp:430 | the fourth catalogue entry is "13#11" built from the as-written pattern |
| ChordCatalog.AsWrittenSharpElevenPcs | include/musicpp/chords.hpp:411 | the as-written pattern's classes are {0,4,5,6,7,9,10} |
| ChordCatalog.CorrectedSharpElevenPcs | include/musicpp/chords.hpp:411 | the corrected pattern's classes are {0,2,4,6,7,9,10} |
| ChordCatalog.PcsOfSeven | include/musicpp/chords.hpp:281-284 | a seven-tone pattern's class set is the set of its seven offsets |
| ChordCatalog.CorrectedEntriesFacts | include/musicpp/chords.hpp:411 | the corrected entries differ from the searched ones only in the pattern of "13#11", and every entry is still good |
| ChordCatalog.InfoGood | include/musicpp/chords.hpp:275-288 | an entry built from a pattern of 2 to 7 tones that starts on P1 has a well-formed mask holding 0, a table whose first slot is 0, and every tone's class in the mask |
| ChordCatalog.CatalogIsGood | include/musicpp/chords.hpp:426-472 | the catalogue has 45 entries, each with a well-formed mask holding 0, a first table slot of 0, and 2 to 7 tones whose classes are in the mask |
| ChordCatalog.EntriesAreGood | include/musicpp/chords.hpp:426-472 | all 45 listed patterns have 2 to 7 tones and start on P1, and every name has at most 7 characters |
| ChordCatalog.RunGood | include/musicpp/chords.hpp:426-472 | each of the five runs of nine listed entries has 2 to 7 tones, starts on P1 and has a short name |
| ChordCatalog.OmissionName | include/musicpp/chords.hpp:290-300 | the label starts with "no"; it is "no?" exactly outside 1..11 |
| ChordCatalog.InversionFrom | include/musicpp/chords.hpp:302-308 | the scan from i returns the first later tone whose class is the bass's, or 0 if none |
| ChordCatalog.DetectInversion | include/musicpp/chords.hpp:302-308 | the inversion is the first tone from 1 whose class is the bass's; it is 0 iff no such tone exists |
| ChordMatcher.ExactMatchesMeaning | include/musicpp/chords.hpp:485-491 | exact matches are exactly the catalogue entries with the same set, with no omissions |
| ChordMatcher.LabelsStopAtToneCount | include/musicpp/chords.hpp:505-513 | the omission scan ignores slots past the tone count |
| ChordMatcher.LabelsMeaning | include/musicpp/chords.hpp:505-513 | each label is the omission name of a missing class, and the scan of j slots gives at most j labels |
| ChordMatcher.Candidate | include/musicpp/chords.hpp:495-517 | a near match needs more tones than were heard, a superset with at most 2 missing, the root present, and one label per missing class; otherwise it is rejected |
| ChordMatcher.NearMatchesMeaning | include/musicpp/chords.hpp:493-518 | near matches are exactly the catalogue entries accepted by Candidate |
| ChordMatcher.MatchesMeaning | include/musicpp/chords.hpp:479-521 | every match covers the heard set, misses at most 2 classes and never the root; an exact match excludes near ones; without the root only exact matches remain |
| ChordMatcher.OmissionLabels | include/musicpp/chords.hpp:505-513 | the label loop computes the specified labels |
| ChordMatcher.FindMatches | include/musicpp/chords.hpp:479-521 | both loops, with their `continue`s and the early return, compute Matches |
| ChordMatcher.Pitches | include/musicpp/chords.hpp:542-549 | the pitch set of the notes is a set of classes in [0, 12) |
| ChordMatcher.RelPcsIsRotation | include/musicpp/chords.hpp:542-549 | `build_pcs` is the rotation of the pitch set to the root |
| ChordMatcher.InputSetFacts | include/musicpp/chords.hpp:542-549 | the rotated set is well formed, as large as the pitch set, and contains 0 iff the root sounds |
| ChordMatcher.BuildPcs | include/musicpp/chords.hpp:542-549 | the loop builds exactly the rotated set |
| ChordMatcher.BuildAnalysis | include/musicpp/chords.hpp:523-537 | the root is simplified; quality and omissions come from the match; a bass is shown iff its class differs from the root's; an inversion is nonzero only with a bass and names that tone |
| ChordMatcher.BuildAll | include/musicpp/chords.hpp:570-575 | one analysis per match, in order |
| ChordMatcher.RankIsComparison | include/musicpp/chords.hpp:578-585 | the integer rank orders as the comparator does: (omissions, inversion, quality length) lexicographically |
| ChordMatcher.SortedFirstIsLowest | include/musicpp/chords.hpp:551-557 | the first note after sorting by MIDI is a chord note and no note is lower |
| ChordMatcher.BuiltFromCatalog | include/musicpp/chords.hpp:523-537 | an analysis built from a catalogue match is well built |
| ChordMatcher.GatheredFacts | include/musicpp/chords.hpp:559-576 | every gathered analysis is well built, its root sounds, and two roots with the same class are the same note (each class is tried once) |
| ChordMatcher.BlockFacts | include/musicpp/chords.hpp:564-576 | one root's analyses are well built and rooted at that note, simplified |
| ChordMatcher.AnalyzeAllFacts | include/musicpp/chords.hpp:539-588 | the result is a stable permutation of the gathered analyses, ordered by rank, each well built; each root is an input note simplified, two roots with one class are the same note, and a shown bass is at or below every note |
| ChordMatcher.GatheredStep | include/musicpp/chords.hpp:564-576 | one loop step adds the new root's analyses, or nothing if its class was already tried |
| ChordMatcher.AppendInterpretations | include/musicpp/chords.hpp:570-575 | the inner loop appends one analysis per match |
| ChordMatcher.AnalyzeAll | include/musicpp/chords.hpp:539-588 | the method computes exactly the specified analyses |
| ChordMatcher.AnalyzeWithRoot | include/musicpp/chords.hpp:590-606 | the method computes exactly the specified optional analysis |
| ChordMatcher.FirstExactMatch | include/musicpp/chords.hpp:485-491 | the first exact match is the first catalogue entry with that set |
| ChordMatcher.RootNotSoundingGivesNone | include/musicpp/chords.hpp:590-606 | a root that does not sound gives no analysis |
| ChordMatcher.FirstExactInterpretation | include/musicpp/chords.hpp:590-606 | with an exact entry, the answer is the first such entry built over the lowest note |
| ChordMatcher.WithSuffix | include/musicpp/chords.hpp:336-338 | each quality gets the suffix; nothing else changes |
| ChordMatcher.BassSuffix | include/musicpp/chords.hpp:337 | "/" followed by the simplified bass's pitch name |
| ChordMatcher.AppendBass | include/musicpp/chords.hpp:336-338 | the loop appends the bass suffix to every quality |
| ChordMatcher.SlashAnalyze | include/musicpp/chords.hpp:330-340 | the method computes exactly the specified slash analysis |
| ChordMatcher.SlashFallbackFacts | include/musicpp/chords.hpp:330-340 | the result is empty iff both the whole voicing and the upper chord fail; in the fallback every quality ends with "/bass" |
| ChordMatcher.WithSuffixEndsWith | include/musicpp/chords.hpp:336-338 | every suffixed quality ends with the suffix |
| ChordMatcher.SlashAnalyzeWithRoot | include/musicpp/chords.hpp:342-353 | the method computes exactly the specified optional slash analysis |
| ChordMatcher.SlashWithRootNotSounding | include/musicpp/chords.hpp:342-353 | a root that sounds nowhere in the slash chord gives no analysis |
| ChordMatcher.OmissionsText | include/musicpp/chords.hpp:75-83 | empty iff there are no omissions, otherwise "(" + labels joined by "," + ")" |
| ChordMatcher.AnalysisStr | include/musicpp/chords.hpp:73-89 | the text starts with the simplified root's name; with no omissions and no bass it is name + quality; with a bass it ends with "/bass" |
| ChordMatcher.ResultStr | include/musicpp/chords.hpp:109-119 | "?" iff there is no interpretation; otherwise it starts with the first one's text |
| DegreeMapper.IsMajorQuality | include/musicpp/chords.hpp:660-666 | a quality is minor iff it is non-empty, does not start with "maj", and starts with 'm' or "dim" |
| DegreeMapper.RomanQualitySuffix | include/musicpp/chords.hpp:668-684 | the special cases (° ø + and empty) and the general rule: drop a leading 'm', turn "aug" into "+", keep the rest |
| DegreeMapper.QualityRoundTrip | include/musicpp/chords.hpp:655-684 | the quality is recovered from the numeral's case and suffix, for every quality that can be decoded |
| DegreeMapper.CatalogNamesDecodable | include/musicpp/chords.hpp:426-472 | every one of the 45 catalogue quality names is decodable, so each reads back from its numeral |
| DegreeMapper.Run1NamesDecodable | include/musicpp/chords.hpp:427-435 | each of the nine names in run 1 of the catalogue is decodable |
| DegreeMapper.Run2NamesDecodable | include/musicpp/chords.hpp:436-444 | each of the nine names in run 2 of the catalogue is decodable |
| DegreeMapper.Run3NamesDecodable | include/musicpp/chords.hpp:445-453 | each of the nine names in run 3 of the catalogue is decodable |
| DegreeMapper.Run4NamesDecodable | include/musicpp/chords.hpp:454-462 | each of the nine names in run 4 of the catalogue is decodable |
| DegreeMapper.Run5NamesDecodable | include/musicpp/chords.hpp:463-471 | each of the nine names in run 5 of the catalogue is decodable |
| DegreeMapper.AmbiguousQualities | include/musicpp/chords.hpp:668-684 | "+" and "dim9" do not round-trip: encoding and decoding gives "aug" and "mdim9" |
| DegreeMapper.ExactFrom | include/musicpp/chords.hpp:696-702 | the exact scan finds the first scale note with the root's class, or reports that none has it |
| DegreeMapper.Neighbour | include/musicpp/chords.hpp:704-719 | +1 iff the root is a semitone above the scale note, −1 iff a semitone below, and 0 otherwise |
| DegreeMapper.NearFrom | include/musicpp/chords.hpp:704-719 | the neighbour scan finds the first scale note a semitone away and the direction, or reports none |
| DegreeMapper.DegreeAnalysisOf | include/musicpp/chords.hpp:686-754 | the degree analysis keeps the chord it was made from |
| DegreeMapper.DegreeAnalysisFacts | include/musicpp/chords.hpp:686-754 | a set degree names a scale note whose class plus the alteration (−1, 0 or +1) is the root's class, and the numeral starts with the degree's prefix; an exact degree is the first such note; an altered one is used only when nothing is exact, and it is the first neighbour; unset iff no scale note is the root's class or a semitone away, and then the numeral is the chord's own text |
| DegreeMapper.LocateRoot | include/musicpp/chords.hpp:696-719 | the two loops find the specified placement: index −1 iff none |
| DegreeMapper.MakeDegreeAnalysis | include/musicpp/chords.hpp:686-754 | the method computes exactly the specified degree analysis |
| DegreeMapper.CMajorPitch | include/musicpp/chords.hpp:696-702 | the pitch classes of C major are 0 2 4 5 7 9 11 |
| DegreeMapper.NeighbourPlacement | include/musicpp/chords.hpp:704-719 | with no exact note, the placement is the first neighbour with its direction |
| DegreeMapper.FlatSixthPlacement | include/musicpp/chords.hpp:704-719 | in C major, class 8 (Ab) is placed as #5, the first neighbour found |
| DegreeMapper.FlatSixthExample | include/musicpp/chords.hpp:686-754 | an Ab major chord in C major is named "#V" |
| DegreeMapper.FlatSeventhPlacement | include/musicpp/chords.hpp:704-719 | in C major, class 10 (Bb) is placed as #6 |
| DegreeMapper.FlatSeventhExample | include/musicpp/chords.hpp:686-754 | a Bb7 in C major is named "#VI7" |
| DegreeMapper.SupertonicExample | include/musicpp/chords.hpp:686-754 | D is degree 2 of C major, and Dm7 is "ii7" |
| DegreeMapper.InKey | include/musicpp/chords.hpp:756-766 | one degree analysis per chord analysis, in order, each over that chord |
| DegreeMapper.AnalyzeInKeySpec | include/musicpp/chords.hpp:756-766 | one degree analysis per interpretation of the chord, over that interpretation |
| DegreeMapper.AnalyzeInKey | include/musicpp/chords.hpp:756-766 | the loop maps every interpretation through the degree mapper |
| DegreeMapper.PlaceAll | include/musicpp/chords.hpp:760-765 | the loop places every interpretation in the key, one degree analysis per interpretation, in the same order |
| DegreeMapper.AnalyzeInKeyWithRoot | include/musicpp/chords.hpp:768-777 | no answer iff the plain analysis has none; otherwise the degree analysis is of that chord |
| DegreeMapper.SlashInKeyAgrees | include/musicpp/chords.hpp:797-810 | the in-key slash analysis maps each slash interpretation through the degree mapper |
| DegreeMapper.AddSuffixInKey | include/musicpp/chords.hpp:805-808 | the loop appends the bass suffix and re-maps each interpretation |
| DegreeMapper.SlashAnalyzeInKey | include/musicpp/chords.hpp:797-810 | the method computes exactly the specified in-key slash analysis |
| DegreeMapper.SlashInKeyWithRootAgrees | include/musicpp/chords.hpp:812-826 | no answer iff the slash analysis with that root has none; otherwise it is that analysis, degree-mapped |
| DegreeMapper.SlashAnalyzeInKeyWithRoot | include/musicpp/chords.hpp:812-826 | the method computes exactly the specified optional in-key slash analysis |
| DegreeMapper.KeyResultStr | include/musicpp/chords.hpp:635-645 | "?" for no interpretations; otherwise it starts with the first numeral |
| DegreeMapper.Romans | include/musicpp/chords.hpp:615 | the numerals of the analyses, in order |
| Scales.AroundIsDivMod | include/musicpp/scales.hpp:44-47 | stepping k places around n degrees lands on degree k mod n, k div n octaves up |
| Scales.Around | include/musicpp/scales.hpp:44-47 | the step's degree index is below the scale's size |
| Scales.AroundBelowTwice | include/musicpp/scales.hpp:44-47 | below two rounds, the step wraps at most once |
| Scales.AroundPlusTwo | include/musicpp/scales.hpp:44-47 | two more steps (a third up) advance the index by 2, wrapping into the next octave |
| Scales.Wrap | include/musicpp/scales.hpp:44-47 | the division and remainder compute the step |
| Scales.ModeOf | include/musicpp/scales.hpp:20-33 | a mode has as many degrees as the scale |
| Scales.Mode | include/musicpp/scales.hpp:20-33 | the loop computes exactly the specified mode |
| Scales.ModeAt | include/musicpp/scales.hpp:20-33 | offset + mode degree i is the scale's degree (i + M) mod N, with the same spelling and sound; within an octave it stays in [0, 7) steps |
| Scales.ModeFacts | include/musicpp/scales.hpp:20-33 | a mode starts on P1, and the mode of a scale within the octave stays within the octave |
| Scales.ModeStartsOnUnison | include/musicpp/scales.hpp:20-33 | every mode starts on P1 |
| Scales.SameFifthsWithinOctave | include/musicpp/scales.hpp:27-29 | two intervals within the octave with the same fifths are equal |
| Scales.ModeCompose | include/musicpp/scales.hpp:20-33 | mode b of mode a is mode (a + b) mod N |
| Scales.ComposeAll | include/musicpp/scales.hpp:20-33 | the same, degree by degree |
| Scales.ComposeAt | include/musicpp/scales.hpp:20-33 | the same, for one degree |
| Scales.ChordOnPatternAsWritten | include/musicpp/scales.hpp:35-55 | the pattern chord on a degree has the requested number of tones |
| Scales.ChordOnPattern | include/musicpp/scales.hpp:35-55 | the corrected pattern chord has the requested number of tones |
| Scales.PatternChordOn | include/musicpp/scales.hpp:35-55 | the loop, with its octave bump, computes the as-written pattern |
| Scales.PatternToneAsWrittenAt | include/musicpp/scales.hpp:43-52 | tone i as written is the scale interval minus the root, raised by the wrap count plus one more octave when it falls below |
| Scales.PatternToneAt | include/musicpp/scales.hpp:43-52 | the corrected tone i is the scale interval minus the root, raised by the wrap count only |
| Scales.PatternChordFacts | include/musicpp/scales.hpp:35-55 | the corrected chord starts on P1, and root + tone i is the scale degree a stack of thirds reaches, with its octave |
| Scales.ScaleOn | include/musicpp/scales.hpp:158-167 | root + pattern keeps the root and has one note per degree |
| Scales.PlaceScale | include/musicpp/scales.hpp:158-167 | the loop builds exactly root + pattern |
| Scales.ScaleOnRecoversPattern | include/musicpp/scales.hpp:158-167 | note i − root is interval i, and note i sounds at root MIDI + interval i's span |
| Scales.ContainsIsSpelling | include/musicpp/scales.hpp:75-87 | `contains` is a match of spelling (fifth), and implies `contains_enharmonic` |
| Scales.FirstSpelled | include/musicpp/scales.hpp:89-98 | the scan returns the first index with the same class and fifth, or reports none |
| Scales.DegreeOf | include/musicpp/scales.hpp:89-98 | the loop computes exactly the specified degree |
| Scales.DegreeOfFacts | include/musicpp/scales.hpp:89-98 | a degree is found iff the scale contains the note; it is the first note so spelled, with no alteration; otherwise the default degree |
| Scales.SimplifyScale | include/musicpp/scales.hpp:136-145 | the simplified scale has as many notes |
| Scales.SimplifyNotes | include/musicpp/scales.hpp:136-145 | the loop computes exactly the simplified scale |
| Scales.SimplifyScaleFacts | include/musicpp/scales.hpp:136-145 | root and notes keep their MIDI numbers and classes; simplifying twice equals once |
| Scales.RaisedTo | include/musicpp/scales.hpp:111-117 | raising by octaves keeps the spelling, reaches the floor, leaves a note already there alone, and overshoots by less than an octave |
| Scales.RaisedToExact | include/musicpp/scales.hpp:111-117 | the raise adds exactly the least number of octaves that reaches the floor |
| Scales.ChordTones | include/musicpp/scales.hpp:100-122 | the chord on a degree has the requested number of tones |
| Scales.Raise | include/musicpp/scales.hpp:111-117 | the `while` loop computes the raised note |
| Scales.ChordOn | include/musicpp/scales.hpp:100-122 | the nested loops compute exactly the specified chord tones |
| Scales.NextTone | include/musicpp/scales.hpp:107-118 | one pass of the outer loop extends the tones so far by exactly the next specified tone |
| Scales.ChordTonesNext | include/musicpp/scales.hpp:107-120 | one loop step appends the next third, raised above the previous tone (or to the scale's root) |
| Scales.ChordTonesPrefix | include/musicpp/scales.hpp:100-122 | asking for fewer tones gives a prefix |
| Scales.ChordTonesSpelling | include/musicpp/scales.hpp:107-120 | tone i has the spelling and class of scale note (d + 2i) mod N |
| Scales.ChordTonesClimb | include/musicpp/scales.hpp:110-118 | the first tone is at or above the scale's root, and each tone is strictly above the one before |
| Scales.ChordOnIsDiatonic | include/musicpp/scales.hpp:100-134 | the chord on any degree is diatonic to its scale |
| Scales.PositionStep | include/musicpp/scales.hpp:107-117 | in an ascending pattern, a third up rises and by at most an octave |
| Scales.StackedNote | include/musicpp/scales.hpp:107-117 | the k-th stacked note sounds at root MIDI + its position |
| Scales.ChordOnMatchesPattern | include/musicpp/scales.hpp:35-122 | on root + an ascending pattern, the instance chord is degree note + the corrected pattern chord, tone by tone |
| Scales.ChordTonesStacked | include/musicpp/scales.hpp:100-122 | on a placed scale, tone i is the stacked note d + 2i |
| Scales.ChordTonesStable | include/musicpp/scales.hpp:100-122 | tone i does not depend on how many tones follow |
| Scales.ToneIsStacked | include/musicpp/scales.hpp:100-122 | tone i is the stacked note d + 2i |
| Scales.NewestTone | include/musicpp/scales.hpp:107-120 | if the previous tone is stacked, so is the next |
| Scales.StackedNext | include/musicpp/scales.hpp:107-120 | raising the next scale note above the previous stacked note gives the next stacked note |
| Scales.ChordTonesLast | include/musicpp/scales.hpp:107-120 | the last tone is the raise of its scale note above the previous tone |
| Scales.StackedIsRaised | include/musicpp/scales.hpp:111-117 | raising the scale note to a floor within an octave below its position gives the stacked note |
| Scales.AroundSeven | include/musicpp/scales.hpp:44 | for seven-note scales, the first two rounds wrap as expected |
| Scales.DorianIntervals | include/musicpp/scales.hpp:174 | Dorian is P1 M2 m3 P4 P5 M6 m7 |
| Scales.DorianOf | include/musicpp/scales.hpp:174 | mode 1 of the major intervals is the Dorian intervals |
| Scales.PhrygianIntervals | include/musicpp/scales.hpp:175 | Phrygian is P1 m2 m3 P4 P5 m6 m7 |
| Scales.PhrygianOf | include/musicpp/scales.hpp:175 | mode 2 of the major intervals is the Phrygian intervals |
| Scales.LydianIntervals | include/musicpp/scales.hpp:176 | Lydian is P1 M2 M3 A4 P5 M6 M7 |
| Scales.LydianOf | include/musicpp/scales.hpp:176 | mode 3 of the major intervals is the Lydian intervals |
| Scales.MixolydianIntervals | include/musicpp/scales.hpp:177 | Mixolydian is P1 M2 M3 P4 P5 M6 m7 |
| Scales.MixolydianOf | include/musicpp/scales.hpp:177 | mode 4 of the major intervals is the Mixolydian intervals |
| Scales.NaturalMinorIntervals | include/musicpp/scales.hpp:178 | natural minor is P1 M2 m3 P4 P5 m6 m7 |
| Scales.NaturalMinorOf | include/musicpp/scales.hpp:178 | mode 5 of the major intervals is the natural minor intervals |
| Scales.LocrianIntervals | include/musicpp/scales.hpp:179 | Locrian is P1 m2 m3 P4 d5 m6 m7 |
| Scales.LocrianOf | include/musicpp/scales.hpp:179 | mode 6 of the major intervals is the Locrian intervals |
| Scales.PhrygianDominantIntervals | include/musicpp/scales.hpp:186 | Phrygian dominant is P1 m2 M3 P4 P5 m6 m7 |
| Scales.PhrygianDominantOf | include/musicpp/scales.hpp:186 | mode 4 of harmonic minor is the Phrygian dominant intervals |
| Scales.LydianSharp2Intervals | include/musicpp/scales.hpp:187 | Lydian #2 is P1 A2 M3 A4 P5 M6 M7 |
| Scales.LydianSharp2Of | include/musicpp/scales.hpp:187 | mode 5 of harmonic minor is the Lydian #2 intervals |
| Scales.LydianDominantIntervals | include/musicpp/scales.hpp:189 | Lydian dominant is P1 M2 M3 A4 P5 M6 m7 |
| Scales.LydianDominantOf | include/musicpp/scales.hpp:189 | mode 3 of melodic minor is the Lydian dominant intervals |
| Scales.AlteredIntervals | include/musicpp/scales.hpp:190 | altered is P1 m2 m3 d4 d5 m6 m7 |
| Scales.AlteredOf | include/musicpp/scales.hpp:190 | mode 6 of melodic minor is the altered intervals |
| Scales.NaturalMinorFromDorian | include/musicpp/scales.hpp:174-178 | mode 4 of Dorian is natural minor (modes compose) |
| Scales.MajorSpan | include/musicpp/scales.hpp:172-173 | the major scale's degrees are 0 2 4 5 7 9 11 semitones up |
| Scales.MajorSteps | include/musicpp/scales.hpp:172-173 | every major-scale interval lies within the octave |
| Scales.MajorClimbs | include/musicpp/scales.hpp:172-173 | the major scale ascends and stays within the octave |
| Scales.ClimbsByNeighbours | include/musicpp/scales.hpp:172-208 | a pattern that rises step by step within the octave ascends |
| Scales.NeighboursChain | include/musicpp/scales.hpp:172-208 | rising step by step means rising between any two degrees |
| Scales.MajorScaleChords | include/musicpp/scales.hpp:35-55 | on the major scale, as written: I7 is maj7 and ii is minor, but V7 is not dom7 and vii is not diminished; corrected, all four are the diatonic chords |
| Scales.TonicSeventh | include/musicpp/scales.hpp:35-55 | the seventh chord on I of major is maj7, both as written and corrected |
| Scales.TonicSeventhTones | include/musicpp/scales.hpp:35-55 | no tone wraps: both versions give P1 M3 P5 M7 |
| Scales.SupertonicTriad | include/musicpp/scales.hpp:35-55 | the triad on ii of major is minor, both as written and corrected |
| Scales.SupertonicTones | include/musicpp/scales.hpp:35-55 | no tone wraps: both versions give P1 m3 P5 |
| Scales.DominantSeventh | include/musicpp/scales.hpp:35-55 | the seventh chord on V of major is not dom7 as written; corrected, it is dom7 |
| Scales.DominantTones | include/musicpp/scales.hpp:35-55 | as written P1, M3, P5 + P8, m7 + P8; corrected P1 M3 P5 m7 |
| Scales.LeadingToneTriad | include/musicpp/scales.hpp:35-55 | the triad on vii of major is not diminished as written; corrected, it is |
| Scales.LeadingTones | include/musicpp/scales.hpp:35-55 | as written P1, m3 + P8, d5 + P8; corrected P1 m3 d5 |
| Scales.AsWrittenAddsOctave | include/musicpp/scales.hpp:46-51 | each as-written tone is the corrected tone, plus one octave exactly when the scale degree lies below the chord's degree |
| Scales.ChordOnPatternDoublesOctave | include/musicpp/scales.hpp:46-51 | as written, the V triad's fifth comes out as P5 + P8, an octave above the instance chord's fifth; corrected, it is the major triad |
| Scales.DominantTriadTones | include/musicpp/scales.hpp:46-51 | V triad intervals: [P1, M3, Interval(1, 1)] (a twelfth) as written, [P1, M3, P5] corrected |
| Scales.CMajorNotes | include/musicpp/scales.hpp:158-173 | C + major is C D E F G A B |
| Scales.TriadNotes | include/musicpp/chords.hpp:257-265 | root + major triad is root, root + M3, root + P5 |
| Scales.DiatonicExamples | include/musicpp/scales.hpp:89-134 | in C major: G major is diatonic, an Ab chord is not; G is degree 5 and F# has no degree |
| Timing.SignatureDurations | include/musicpp/timing.hpp:22-28 | the beat is 1/unit and the bar is beats/unit; the bar is beats × beat; the bar is positive iff the signature is |
| Timing.BarValue | include/musicpp/timing.hpp:26-28 | the bar's value is beats/unit and is positive iff the signature is |
| Timing.BeatIsUnitFraction | include/musicpp/timing.hpp:22-24 | for a positive unit the beat is already reduced: 1/unit |
| Timing.ExactlyOneClass | include/musicpp/timing.hpp:31-41 | every signature is exactly one of simple, compound, irregular |
| Timing.PulsesFillBar | include/musicpp/timing.hpp:43-51 | pulse count × pulse duration is the bar; compound pulses are three beats; otherwise the pulse is the beat |
| Timing.CompoundFill | include/musicpp/timing.hpp:43-51 | for compound signatures, the pulses fill the bar and each holds three beats |
| Timing.FillsMeaning | include/musicpp/timing.hpp:54-56 | `fills(d, bars)` holds iff d's value is bars × the bar's value |
| Timing.TruncDiv | include/musicpp/timing.hpp:64 | C++ `/` agrees with Euclidean division for non-negative operands |
| Timing.WholeBars | include/musicpp/timing.hpp:58-71 | for a non-negative length: d = bar_count × bar + remainder, with the remainder in [0, bar) and reduced |
| Timing.WholeUnits | include/musicpp/timing.hpp:58-71 | the same division for any positive unit |
| Timing.CountIsQuotient | include/musicpp/timing.hpp:58-65 | for a non-negative length and a positive unit, the count is the C++ integer quotient of the cross products |
| Timing.EuclideanUnits | include/musicpp/timing.hpp:58-71 | the quotient is non-negative and leaves a reduced remainder in [0, unit) with d = q·unit + remainder |
| Timing.DownbeatMeaning | include/musicpp/timing.hpp:151-153 | a position is a downbeat iff its offset's value is 0 |
| Timing.BeatPosition | include/musicpp/timing.hpp:155-169 | the beat index i satisfies i·beat ≤ offset < (i + 1)·beat; on-beat iff the offset is exactly i beats |
| Timing.Advanced | include/musicpp/timing.hpp:184-193 | the advanced offset is reduced |
| Timing.AdvanceKeepsTime | include/musicpp/timing.hpp:184-193 | advancing adds exactly d to the elapsed time (bars × bar + offset), ends inside a bar, never moves back a bar, and keeps a non-negative offset |
| Timing.AdvancePosition | include/musicpp/timing.hpp:184-193 | the carry loop computes exactly the specified position |
| Timing.CarryingStarts | include/musicpp/timing.hpp:186-188 | the carry invariant holds on entry to the loop |
| Timing.CarryStep | include/musicpp/timing.hpp:188-192 | one carry keeps the invariant, and the count stays below the number of whole bars |
| Timing.CarryStops | include/musicpp/timing.hpp:188-192 | when the loop stops after carrying, the count is the number of whole bars and the offset is the leftover |
| Timing.CarryCountExact | include/musicpp/timing.hpp:188-192 | the same, by value |
| Timing.EndPosition | include/musicpp/timing.hpp:199-204 | the position after a run of events has a reduced offset |
| Timing.WalkPositions | include/musicpp/timing.hpp:199-204 | one position per event |
| Timing.Walk | include/musicpp/timing.hpp:199-204 | the loop computes exactly the specified positions |
| Timing.SumOfConcat | include/musicpp/timing.hpp:199-204 | the total length of two runs is the sum of their totals |
| Timing.EndPositionKeepsTime | include/musicpp/timing.hpp:199-204 | the elapsed time at the end is the total length of the events |
| Timing.EndPositionInBar | include/musicpp/timing.hpp:199-204 | with non-negative lengths, the end offset lies in [0, bar) and the bar count is non-negative |
| Timing.WalkVisitsEachEvent | include/musicpp/timing.hpp:199-204 | the walk visits event i at the position reached after events 0..i−1, and starts at bar 0, offset 0 |
| Timing.SignatureExamples | include/musicpp/timing.hpp:22-51 | beat and bar of 4/4 and 6/8; the classes of 2/2, 3/4, 6/8, 9/8, 12/8, 5/4, 7/8; pulse counts and durations |
| Timing.BarExamples | include/musicpp/timing.hpp:54-71 | a whole fills one bar of 4/4 and a half does not; two wholes fill two bars; bar counts; the remainder of 3/2 is 1/2 |
| Timing.PositionExamples | include/musicpp/timing.hpp:151-169 | downbeat, on-beat and beat-index cases in 4/4 |
| Timing.StrExamples | include/musicpp/timing.hpp:74-76 | 4/4 and 6/8 print so |
| Melody.Tied | include/musicpp/melody.hpp:24-26 | `tied()` sets the tie and keeps everything else |
| Melody.NoteEvent | include/musicpp/melody.hpp:40-43 | `note * duration` is a sounding, untied event of that note and length |
| Melody.RestEvent | include/musicpp/melody.hpp:45-47 | `rest(d)` is an untied rest of length d on the default note |
| Melody.Append | include/musicpp/melody.hpp:71-77 | `m \| ev` keeps m and puts ev last |
| Melody.Concat | include/musicpp/melody.hpp:79-87 | `a \| b` is a followed by b |
| Melody.Pair | include/musicpp/melody.hpp:215-218 | `a \| b` of two events is the two-event melody |
| Melody.ConcatLaws | include/musicpp/melody.hpp:71-87 | concatenation is associative with the empty melody as unit; appending is concatenating one event |
| Melody.Transpose | include/musicpp/melody.hpp:90-95 | the loop computes the transposed melody |
| Melody.TransposedUp | include/musicpp/melody.hpp:221-225 | `m + iv` is the transposition by iv |
| Melody.TransposedDown | include/musicpp/melody.hpp:227-231 | `m - iv` is the transposition by −iv |
| Melody.TransposeAt | include/musicpp/melody.hpp:90-95 | rests are untouched; a note moves by iv in MIDI and class; lengths and ties are kept |
| Melody.TransposeRoundTrip | include/musicpp/melody.hpp:221-231 | (m + iv) − iv = m, and transposing twice is transposing by the sum |
| Melody.Invert | include/musicpp/melody.hpp:104-113 | the loop computes the inverted melody |
| Melody.InvertAt | include/musicpp/melody.hpp:104-113 | rests are untouched; a note is mirrored about the axis in MIDI; the axis is fixed |
| Melody.InvertTwice | include/musicpp/melody.hpp:104-113 | inverting twice about the same axis is the identity |
| Melody.Augment | include/musicpp/melody.hpp:115-120 | the loop computes the augmented melody |
| Melody.Diminish | include/musicpp/melody.hpp:122-128 | the loop computes the diminished melody |
| Melody.DoubledHalvedValue | include/musicpp/melody.hpp:115-128 | doubling is ×2 and halving is ÷2, both reduced |
| Melody.HalveDoubleRoundTrip | include/musicpp/melody.hpp:115-128 | for a reduced length, halving undoes doubling and doubling undoes halving |
| Melody.AugmentDiminishAt | include/musicpp/melody.hpp:115-128 | each event keeps its note, rest and tie; augmenting doubles and diminishing halves its length |
| Melody.AugmentDiminishRoundTrip | include/musicpp/melody.hpp:115-128 | on reduced lengths, diminish undoes augment and augment undoes diminish |
| Melody.Retrograde | include/musicpp/melody.hpp:97-102 | the loops compute the retrograde |
| Melody.RetrogradeAt | include/musicpp/melody.hpp:97-102 | event i is event n−1−i, untied |
| Melody.RetrogradeLaws | include/musicpp/melody.hpp:97-102 | retrograde twice only unties; the retrograde of a + b is that of b followed by that of a |
| Melody.ExtremeIndex | include/musicpp/melody.hpp:131-155 | the chosen event is a sounding one |
| Melody.ExtremeIsFirstBest | include/musicpp/melody.hpp:131-155 | none exists iff all events are rests; otherwise no note is beyond it, and it beats every earlier note strictly (the first best) |
| Melody.FindExtreme | include/musicpp/melody.hpp:131-155 | the loop computes the specified extreme |
| Melody.Lowest | include/musicpp/melody.hpp:131-142 | the loop computes the lowest note |
| Melody.Highest | include/musicpp/melody.hpp:144-155 | the loop computes the highest note |
| Melody.Range | include/musicpp/melody.hpp:157-159 | the method computes highest − lowest |
| Melody.RangeFacts | include/musicpp/melody.hpp:131-159 | lowest + range sounds as highest; lowest ≤ highest; an all-rest melody has range P1 |
| Melody.TotalDuration | include/musicpp/melody.hpp:161-166 | the loop computes the sum of the lengths |
| Melody.Lengths | include/musicpp/melody.hpp:161-166 | one length per event |
| Melody.LengthsSplit | include/musicpp/melody.hpp:161-166 | the lengths of a + b and of a prefix split accordingly |
| Melody.TotalIsSum | include/musicpp/melody.hpp:161-166 | the total's value is the sum of the lengths' values |
| Melody.TotalOfConcat | include/musicpp/melody.hpp:79-87 | the total of a + b is the total of a plus that of b |
| Melody.ScaledTotals | include/musicpp/melody.hpp:115-128 | augmenting doubles the total and diminishing halves it |
| Melody.NoteCount | include/musicpp/melody.hpp:168-173 | the loop counts the sounding events |
| Melody.CountBounds | include/musicpp/melody.hpp:168-173 | the count is at most the length; 0 iff all rests; the length iff no rests |
| Melody.CountOfConcat | include/musicpp/melody.hpp:168-173 | counts add over concatenation |
| Melody.SameRestsSameCount | include/musicpp/melody.hpp:168-173 | melodies with rests in the same places have the same count |
| Melody.TransformsKeepCount | include/musicpp/melody.hpp:90-173 | transposing, inverting, augmenting, diminishing and retrograding keep the count |
| Melody.RetrogradeCount | include/musicpp/melody.hpp:97-173 | the retrograde has the same count |
| Melody.IsDiatonic | include/musicpp/melody.hpp:175-183 | the loop decides whether every sounding note is in the key |
| Melody.DiatonicOfConcat | include/musicpp/melody.hpp:175-183 | a + b is diatonic iff both are; appending a rest changes nothing |
| Melody.DiatonicIgnoresTime | include/musicpp/melody.hpp:97-183 | retrograde, augment and diminish keep diatonicism |
| Melody.DiatonicIgnoresOrder | include/musicpp/melody.hpp:97-183 | the retrograde is diatonic iff the melody is |
| Melody.Repeat | include/musicpp/melody.hpp:186-193 | the loop computes K copies of the melody |
| Melody.RepeatedLength | include/musicpp/melody.hpp:186-193 | K copies have K·N events |
| Melody.RepeatedAt | include/musicpp/melody.hpp:186-193 | event k·N + i of the repetition is event i |
| Melody.RepeatedCount | include/musicpp/melody.hpp:186-193 | K copies have K times the note count |
| Melody.RepeatedTotal | include/musicpp/melody.hpp:186-193 | K copies last K times as long |
| Melody.Visits | include/musicpp/timing.hpp:197-205 | the walk makes one visit per event |
| Melody.Walk | include/musicpp/timing.hpp:197-205 | the loop records exactly the specified visits |
| Melody.WalkVisitsEvents | include/musicpp/timing.hpp:197-205 | visit i is event i at the position after events 0..i−1, whose elapsed time is their total; the first is at the start |
| Melody.EventStrShape | include/musicpp/melody.hpp:28-33 | the text starts with '-' iff a rest, and ends with '~' iff a tied note |
| Melody.Parts | include/musicpp/melody.hpp:200-207 | one text per event |
| Melody.Render | include/musicpp/melody.hpp:200-207 | the loop joins the event texts with spaces |
| Melody.StrOfConcat | include/musicpp/melody.hpp:200-207 | the text of a + b is a's text, a space, b's text |
| Melody.TransposeExamples | include/musicpp/melody.hpp:90-95 | C4 E4 up a M3 starts on E4 and continues on G#; rests stay |
| Melody.InvertExamples | include/musicpp/melody.hpp:104-113 | about C4, E4 becomes an Ab and G4 becomes an F |
| Melody.LengthExamples | include/musicpp/melody.hpp:115-128 | a quarter doubles to a half, and a half halves to a quarter |
| Melody.SumIs | include/musicpp/duration.hpp:34-37 | a sum equals any reduced fraction with its value |
| Melody.SumExamples | include/musicpp/duration.hpp:34-37 | 0 + 1/4 = 1/4, 1/4 + 1/4 = 1/2, 1/2 + 1/2 = 1 |
| Melody.ExtremeExamples | include/musicpp/melody.hpp:131-155 | in E4 C4 G4, the lowest is C4 and the highest G4 |
| Melody.RangeExample | include/musicpp/melody.hpp:157-159 | C4 G4 has range P5 |
| Melody.CountExample | include/musicpp/melody.hpp:168-173 | a melody with one rest among three events has two notes |
| Melody.TotalAppend | include/musicpp/melody.hpp:161-166 | the total of m + [e] is total(m) + e's length |
| Melody.TotalExample | include/musicpp/melody.hpp:161-166 | q + q + h is a whole |
| Melody.RepeatExample | include/musicpp/melody.hpp:186-193 | three copies of two events are six, with C4 at index 4 |
| ChordSequence.Tied | include/musicpp/chord_sequence.hpp:21-23 | `tied()` sets the tie and keeps everything else |
| ChordSequence.Timed | include/musicpp/chord_sequence.hpp:75-79 | `chord * d` is a sounding, untied event of that chord and length |
| ChordSequence.SlashTimed | include/musicpp/chord_sequence.hpp:81-88 | `slash * d` sounds the bass first and then the chord's notes |
| ChordSequence.SlashTimedBassIsLowest | include/musicpp/chord_sequence.hpp:81-88 | for an accepted slash chord, every other note of the event is above the bass |
| ChordSequence.ChordRest | include/musicpp/chord_sequence.hpp:90-93 | `chord_rest(d)` is an untied rest of one default note |
| ChordSequence.Pair | include/musicpp/chord_sequence.hpp:206-210 | `a \| b` of two events is the two-event sequence |
| ChordSequence.Append | include/musicpp/chord_sequence.hpp:110-119 | `seq \| ev` keeps seq and puts ev last |
| ChordSequence.Concat | include/musicpp/chord_sequence.hpp:121-134 | `a \| b` is a followed by b |
| ChordSequence.JoinLaws | include/musicpp/chord_sequence.hpp:110-134 | concatenation is associative; appending is concatenating one event; a pair is two appends |
| ChordSequence.TotalDuration | include/musicpp/chord_sequence.hpp:137-141 | the loop computes the sum of the lengths |
| ChordSequence.Lengths | include/musicpp/chord_sequence.hpp:137-141 | one length per event |
| ChordSequence.LengthsSplit | include/musicpp/chord_sequence.hpp:137-141 | the lengths of a + b and of a prefix split accordingly |
| ChordSequence.TotalOfLengths | include/musicpp/chord_sequence.hpp:137-141 | the total depends only on the lengths |
| ChordSequence.TotalIsSum | include/musicpp/chord_sequence.hpp:137-141 | the total's value is the sum of the lengths' values |
| ChordSequence.TotalOfConcat | include/musicpp/chord_sequence.hpp:121-141 | the total of a + b is the sum of the totals |
| ChordSequence.TopName | include/musicpp/chord_sequence.hpp:143-156 | "?" iff there is no interpretation; otherwise the first one's text, never empty and never starting with '-' |
| ChordSequence.NameOfMeaning | include/musicpp/chord_sequence.hpp:143-156 | never empty; "-" iff a rest; "?" iff an unrecognised chord; otherwise its top interpretation |
| ChordSequence.NameList | include/musicpp/chord_sequence.hpp:143-156 | one name per event |
| ChordSequence.JoinNext | include/musicpp/chord_sequence.hpp:143-156 | adding the separator only after a non-empty prefix and then the next part extends the join by one part |
| ChordSequence.EventName | include/musicpp/chord_sequence.hpp:143-156 | the method computes the event's name |
| ChordSequence.RenderNames | include/musicpp/chord_sequence.hpp:143-156 | the loop joins the names with " - " |
| ChordSequence.NamesOfConcat | include/musicpp/chord_sequence.hpp:121-156 | the names of a + b are a's names, " - ", b's names |
| ChordSequence.RomanNotEmpty | include/musicpp/chords.hpp:724-751 | a degree analysis always has a non-empty numeral |
| ChordSequence.RomanOf | include/musicpp/chord_sequence.hpp:158-172 | never empty; "-" for a rest; "?" when nothing is recognised in the key; otherwise the first numeral |
| ChordSequence.RomanList | include/musicpp/chord_sequence.hpp:158-172 | one numeral per event |
| ChordSequence.EventRoman | include/musicpp/chord_sequence.hpp:158-172 | the method computes the event's numeral |
| ChordSequence.RenderRoman | include/musicpp/chord_sequence.hpp:158-172 | the loop joins the numerals with " - " |
| ChordSequence.RomanOfRest | include/musicpp/chord_sequence.hpp:143-172 | a rest is "-" both as a name and as a numeral |
| ChordSequence.EventStrShape | include/musicpp/chord_sequence.hpp:44-53 | the text is the name then "("; it ends with '~' iff a tied chord; a rest is "-(" + length + ")" |
| ChordSequence.EventText | include/musicpp/chord_sequence.hpp:44-53 | the method computes the event's text |
| ChordSequence.Parts | include/musicpp/chord_sequence.hpp:179-187 | one text per event |
| ChordSequence.Render | include/musicpp/chord_sequence.hpp:179-187 | the loop joins the event texts with spaces |
| ChordSequence.StrOfConcat | include/musicpp/chord_sequence.hpp:179-187 | the text of a + b is a's text, a space, b's text |
| ChordSequence.Visits | include/musicpp/timing.hpp:207-216 | the walk makes one visit per event |
| ChordSequence.Walk | include/musicpp/timing.hpp:207-216 | the loop records exactly the specified visits |
| ChordSequence.WalkVisitsEvents | include/musicpp/timing.hpp:207-216 | visit i is event i at the position after events 0..i−1, whose elapsed time is their total; the first is at the start |
| Progressions.Step | include/musicpp/progressions.hpp:18-23 | a degree step keeps its degree, pattern and length, and does not rest |
| Progressions.Nominal | include/musicpp/progressions.hpp:25-29 | a nominal step has no degree and keeps its root, pattern and length |
| Progressions.ProgRest | include/musicpp/progressions.hpp:31-33 | a rest step has no degree, one P1 tone and the given length |
| Progressions.Alteration | include/musicpp/progressions.hpp:49-53 | the alteration interval moves the MIDI number by exactly `alter` semitones |
| Progressions.DegreeRootFacts | include/musicpp/progressions.hpp:45-53 | the degree's root is the scale note moved by `alter` semitones in MIDI and class, with the same letter and `alter` more accidentals |
| Progressions.RealizeStep | include/musicpp/progressions.hpp:37-56 | the event keeps the length, is untied, has one note per pattern tone, and rests iff the step is a rest without degree |
| Progressions.RealizeStepTones | include/musicpp/progressions.hpp:37-56 | tone i is the pattern's interval i above the degree root or the nominal root; a rest sounds default notes |
| Progressions.RealizedRootSounds | include/musicpp/progressions.hpp:45-56 | with P1 first, the first note is the altered degree root |
| Progressions.Pair | include/musicpp/progressions.hpp:113-118 | `a \| b` of two steps is the two-step progression |
| Progressions.Append | include/musicpp/progressions.hpp:64-73 | `p \| s` keeps p and puts s last |
| Progressions.Concat | include/musicpp/progressions.hpp:75-88 | `a \| b` is a followed by b |
| Progressions.Realize | include/musicpp/progressions.hpp:90-100 | one chord event per step |
| Progressions.StepLengths | include/musicpp/progressions.hpp:90-100 | one length per step |
| Progressions.RealizeLaws | include/musicpp/progressions.hpp:75-100 | realising works step by step, keeps every length, and distributes over concatenation |
| Progressions.RealizeKeepsTotal | include/musicpp/progressions.hpp:90-100 | the realised sequence lasts as long as any sequence with the steps' lengths |
| Progressions.RealizedIsAnalysable | include/musicpp/progressions.hpp:90-105 | a progression whose sounding steps have tones realises to chords that can be named |
| Progressions.StepNames | include/musicpp/progressions.hpp:102-110 | name i and numeral i are those of step i's chord; the name is "-" iff the step rests without degree |
| Progressions.StrOfConcat | include/musicpp/progressions.hpp:102-105 | the names of a + b are a's names, " - ", b's names |
| Progressions.AlteredDegreesInC | include/musicpp/progressions.hpp:45-53 | in C major, b7 is Bb, #4 is F# and 5 is G |
| Progressions.AlteredDegreesInCMajor | include/musicpp/progressions.hpp:45-53 | on the constructed C major scale, b7 is Bb and #4 is F# |
| Progressions.DegreeZeroSteps | include/musicpp/progressions.hpp:41-44 | a nominal step sounds its own root + pattern, and a rest step realises to a chord rest |
| Progressions.ThreeChordRealisation | include/musicpp/progressions.hpp:90-100 | I–IV–V in C realises to C, F and G major, with the last length kept |

## Left out

- Fixed-width integers: every `int8_t`/`int16_t` field is an unbounded integer. Wrap-around of notes, intervals, durations and alterations beyond their C++ ranges is not modelled.
- `tempo`, `duration::beats` and `metric_position::str` use `double`, so they are not modelled.
- All `operator<<` overloads and `std::formatter` specialisations are left out, because they only forward to `str()`.
- `chord_sequence::notes_str` and `chord_event::notes_str` are left out. They print raw note lists and have no behaviour beyond `Notes.Str`.
- `time_signature::str` and `operator<=>` are modelled only by examples, because they are plain formatting and a defaulted comparison.
- The `std::sort` of note indices in `analyze_all` is not stable. The model sorts stably by MIDI number. Ties hold only notes with the same MIDI number, which share a pitch class, so only the spelling of an unsimplified bass could differ.
- `Scales.ChordOn` and `Scales.PatternChordOn` ignore `deg.alter`, as the source does. The library's `static_assert`s on the degree become `requires` on the number only.
- Melody, chord-sequence and progression operations are modelled on `seq` values. The C++ returns new arrays by value, so nothing is updated in place and no aliasing arises.
- Walks (`melody::walk`, `chord_sequence::walk`) take a callback in C++. The model records the (event, position) pairs the callback would receive.
- `Timing.AdvancePosition` and the walks require a positive bar and well-formed lengths. With a bar of zero or negative length, the C++ loop never ends or moves backwards.
- `Timing.BeatPosition` covers only a non-negative offset and a positive beat unit. Other inputs are never reached by a walk.
- `ChordSequence.Analysable` and `Progressions.Voiced` require sounding chords to have at least one note. A zero-size chord cannot be analysed in C++: `analyze_all` reads the lowest of zero notes.
- Whole-text examples (one event or one melody rendered to a literal string) are omitted because they are too costly to verify. `EventStrShape` and `StrOfConcat` state the text's shape instead.
- Durations.Str: the contract states only the quarter case. Its lemma `StrShape` separates the named lengths from the "num/den" form but does not list each name.
- Degree mapper: the flat sixth of a major key (Ab in C) comes out as "#V", and the flat seventh (Bb in C) as "#VI7", because the neighbour scan tries the scale degree below first. The model follows that code. The library's own tests name these cases "bVI" and "bVII7" (test/chords_test.cpp:451 and :466), but their assertions expect "#V" and "#VI7", which is what the model gives.
- Melody.HalveDoubleRoundTrip and Melody.AugmentDiminishRoundTrip require reduced lengths. An unreduced length such as 2/8 halves and doubles back to the reduced 1/4, so equality needs reduced inputs.

## Findings

| source | as written | input that shows it | evidently intended | confidence | as-written member | corrected member |
|---|---|---|---|---|---|---|
| include/musicpp/chords.hpp:411 | `dom13.alter<4>(A11)` replaces tone 4, the ninth | `dom13_sharp11` = P1 M3 P5 m7 A11 P11 M13: it has both elevenths and no ninth | replace tone 5, the eleventh: P1 M3 P5 m7 M9 A11 M13 | high; not executed | ChordPatterns.Dom13Sharp11AsWrittenLacksNinth | ChordPatterns.Dom13Sharp11HasNinthNotEleventh |
| include/musicpp/chords.hpp:417 | `dom13_no5.omit<3>()` removes tone 3 of P1 M3 m7 M9 P11 M13, the ninth | `dom13_no5_no11` = P1 M3 m7 P11 M13: it keeps the eleventh its name omits | omit tone 4: P1 M3 m7 M9 M13 | high; not executed | ChordPatterns.Dom13No5No11AsWrittenKeepsEleventh | ChordPatterns.Dom13No5No11OmitsFifthAndEleventh |
| include/musicpp/scales.hpp:46-51 | the octave bump is `raw_steps / N` plus one more when the tone falls below the root | V triad of major: the fifth D comes out as P5 + P8 = Interval(1, 1), an octave above the instance chord's D; likewise V7's seventh and vii's third and fifth, so neither is the diatonic chord (`Scales.MajorScaleChords`) | bump only by `raw_steps / N`, since subtracting the root already accounts for the wrap | medium; not executed | Scales.ChordOnPatternDoublesOctave | Scales.DominantTriadTones |

The catalogue the analyser searches holds `dom13_sharp11` as written, so matches, analyses and degree analyses agree with the program, including for "13#11" (`ChordCatalog.SharpElevenEntry`). The corrected pattern is kept apart in `ChordCatalog.CorrectedEntries`, which differs from the searched entries only there (`ChordCatalog.CorrectedEntriesFacts`). `dom13_no5_no11` is not in the catalogue, so only the finding lemmas mention it. `Scales.ChordOnPattern` is the corrected pattern chord, and `Scales.ChordOnMatchesPattern` proves it agrees with the instance chord tone by tone.
