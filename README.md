# EDM track generator: drum remap, melody post-processing, MusicXML prolog

This project models, in Dafny, the three pieces of deterministic sequential
logic in `music_generator.py` of the EDM track generator, and proves what they
promise.

- **Drum conversion** (`create_edm_track`). Each note of the generated drum
  sequence is written into the drum part as a note lasting a sixteenth
  (0.25 quarter lengths). The note keeps its velocity. Its pitch is folded onto
  one key per drum family of the General MIDI level 1 percussion key map:
  kicks 35/36 onto 36, snares 38/40 onto 38, hi-hats 42/44/46 onto 42. Any
  other key is written unchanged. Module `Drums`: `CanonDrum` maps one key,
  `DrumPart` specifies the whole part, and `ConvertDrums` is the appending
  loop, proved against `DrumPart`.
- **Melody post-processing** (`generate_edm_melody`). Every note of the
  generated melody is rewritten in place. Its start and end times are snapped
  to the sixteenth-note grid with `round(t * 4) / 4`, and its velocity is
  replaced by `random.randint(80, 127)`. Module `Melody`: `PostProcess` is the
  loop over an array of notes. Python's `round` is modelled as `RoundHalfEven`
  on exact reals. The random draw is a nondeterministic choice of any value in
  [80, 127].
- **MusicXML prolog** (`export_to_musicxml`). The exported text starts with a
  fixed prolog. Its first line is the XML declaration (section 2.8 of the W3C
  XML 1.0 Recommendation). Its second line is the MusicXML 3.0
  `score-partwise` document type declaration. The exporter's body follows the
  prolog. If the body starts with `<?xml`, its first line is dropped first, via
  `'\n'.join(content.split('\n')[1:])`. Module `MusicXml`: `Splice` models
  this. Module `PyStr` models `str.startswith`, `str.split('\n')` and
  `'\n'.join` faithfully, including `"".split('\n') == [""]` and the empty
  join.

## Model

| member | source | states |
|---|---|---|
| `Drums.CanonDrum` | music_generator.py:142-149 | the written key stays in the drum's General MIDI family. A key outside the three folded families is written unchanged. A kick, snare or hi-hat key is written as its family's one canonical key. |
| `Drums.CanonDrumTable` | music_generator.py:142-147 | 35 and 36 become 36, 38 and 40 become 38, and 42, 44 and 46 become 42. A key lands on 36, 38 or 42 exactly when it is one of the seven listed keys. |
| `Drums.CanonDrumFixedPoints` | music_generator.py:142-149 | a key is written unchanged exactly when it is not one of the aliases 35, 40, 44 or 46. |
| `Drums.CanonDrumIdempotent` | music_generator.py:142-149 | remapping an already remapped key changes nothing. |
| `Drums.Strike` | music_generator.py:143-151 | the part note written for one drum note carries the remapped key, so a key outside the three folded families is written unchanged. That key stays in the drum's family and the remap leaves it unchanged. The note lasts 0.25 and keeps the drum note's velocity. |
| `Drums.DrumPart` | music_generator.py:140-152 | one part note per drum note, in input order. Each has the remapped pitch, duration 0.25 whichever branch is taken, and the drum note's own velocity. |
| `Drums.ConvertDrums` | music_generator.py:140-152 | the appending loop produces exactly `DrumPart` of its input, with the same per-note guarantees. |
| `Drums.DrumPartIdempotent` | music_generator.py:140-152 | converting the pitches and velocities of a converted part again gives back the same part. |
| `Drums.DrumPartAppend` | music_generator.py:140-152 | the conversion works note by note. Converting two runs of notes one after the other gives the two converted parts one after the other. |
| `Drums.DrumPartDuration` | music_generator.py:143-152 | the drum part lasts exactly 0.25 per drum note, whatever the onsets of the generated notes were. |
| `Melody.RoundHalfEven` | music_generator.py:86-87 | Python's `round`: the result is within a half of the argument, and on a tie it is even. |
| `Melody.RoundHalfEvenUnique` | music_generator.py:86-87 | those two properties determine the rounded value uniquely. |
| `Melody.RoundHalfEvenMonotone` | music_generator.py:86-87 | rounding preserves order. |
| `Melody.Quantise` | music_generator.py:86-87 | a snapped time is within an eighth of a beat of the original. |
| `Melody.QuantiseOnGrid` | music_generator.py:86-87 | a snapped time lies on the sixteenth-note grid. |
| `Melody.QuantiseKeepsGrid` | music_generator.py:86-87 | a time already on the grid is left unchanged. |
| `Melody.QuantiseIdempotent` | music_generator.py:86-87 | snapping twice is the same as snapping once. |
| `Melody.QuantiseMonotone` | music_generator.py:86-87 | snapping keeps times in order. |
| `Melody.QuantiseCollapsesShortNote` | music_generator.py:86-87 | every time within an eighth of a beat of 0.0 snaps to 0.0, including both ends of that window, which are ties rounded to the even 0. So a note that starts and ends in that window is left with no length. |
| `Melody.PostProcess` | music_generator.py:84-89 | rewrites every note in place and keeps the note count. After it runs, every note keeps its pitch, has its start and end snapped to the grid, and has a velocity in [80, 127]. |
| `Melody.PostProcessKeepsOrder` | music_generator.py:84-89 | a note that did not end before it started still does not after post-processing. |
| `Melody.PostProcessTwice` | music_generator.py:84-89 | post-processing an already post-processed note gives a note that one pass could have given. |
| `PyStr.StartsWithMeans` | music_generator.py:193 | `startswith` holds exactly when the text is the prefix followed by the rest of the text. |
| `PyStr.LineEnd` | music_generator.py:194 | the position of the first line break, or the length of the text when it has none. |
| `PyStr.Split` | music_generator.py:194 | `split('\n')` returns at least one piece, and no piece contains a line break. |
| `PyStr.Join` | music_generator.py:194 | joining no lines gives the empty text. Otherwise the text starts with the first line. When no line holds a line break, the text holds exactly one line break fewer than there are lines. |
| `PyStr.JoinSplit` | music_generator.py:194 | joining the pieces of a split with line breaks gives back the original text. |
| `PyStr.SplitJoin` | music_generator.py:194 | splitting a join of one or more lines without line breaks gives back those lines. |
| `PyStr.DropFirstLine` | music_generator.py:194 | dropping the first piece and joining the rest removes everything up to and including the first line break. If the text has no line break, nothing is left. |
| `MusicXml.DeclarationIsOneLine` | music_generator.py:172 | the prolog's XML declaration is a single line. |
| `MusicXml.DoctypeIsOneLine` | music_generator.py:173 | the prolog's document type declaration is a single line. |
| `MusicXml.PrologLineKinds` | music_generator.py:172-173 | the first prolog line is not a document type declaration, and the second one is. |
| `MusicXml.StripDeclaration` | music_generator.py:193-194 | a body starting with `<?xml` loses everything up to and including its first line break. If it has no line break, nothing is left. Any other body is kept as it is. |
| `MusicXml.Splice` | music_generator.py:193-197 | the written text always starts with the fixed prolog. |
| `MusicXml.SpliceHeader` | music_generator.py:172-197 | for every body, the text's first line is the XML declaration and its second line is the MusicXML 3.0 `score-partwise` document type declaration. So the text is never empty, and the emptiness check at lines 203-204 cannot fail because of the splice. |
| `MusicXml.SpliceDropsDeclaration` | music_generator.py:193-197 | a body starting with `<?xml` and holding a line break follows the prolog with everything up to and including its first line break removed. |
| `MusicXml.SpliceDropsOneLineBody` | music_generator.py:193-197 | a body starting with `<?xml` and holding no line break is dropped entirely, so the text is the prolog alone. |
| `MusicXml.SpliceKeepsBody` | music_generator.py:193-197 | any other body follows the prolog verbatim. |
| `MusicXml.PrologDoctypes` | music_generator.py:172-173 | the prolog adds exactly one document type declaration line to what follows it. |
| `MusicXml.SpliceDuplicatesDoctype` | music_generator.py:193-197 | for a body made of a declaration line, a document type declaration line and a document without one, the written text holds two document type declarations. |
| `MusicXml.StripDoctype` | music_generator.py:193-197 | the helper of the corrected splice: a text starting with `<!DOCTYPE` loses its first line, and any other text is kept as it is. |
| `MusicXml.StripDoctypeLine` | music_generator.py:193-197 | a document type declaration line without a line break comes off whole, leaving exactly what followed its line break. |
| `MusicXml.SpliceSingleDoctype` | music_generator.py:193-197 | the corrected splice also starts with the fixed prolog. |
| `MusicXml.SingleDoctypeKeepsOne` | music_generator.py:193-197 | for such a body, the corrected splice writes the prolog and then the document, with exactly one document type declaration. |
| `MusicXml.SingleDoctypeAgrees` | music_generator.py:193-197 | on a body with no document type declaration line after the stripped declaration, the corrected splice writes the same text as the splice as written. |

## Left out

- Downloading the model bundles and setting up the generators (music_generator.py:37-64) is left out. It uses the network, the file system and TensorFlow.
- The melody and drum generation calls and `drums_lib.add_drums` (music_generator.py:81, 108, 111) are left out. They are foreign library code. Their output is an input of the model: an array of `MelodyNote` or a sequence of `DrumHit`.
- The building of music21 scores, parts, instruments, tempo marks and metadata (music_generator.py:116-138, 155-163, 176-183) is left out. It is library object plumbing. A part note is the plain record `PartNote`, and the BassDrum instrument placed at the head of the drum part is not modelled.
- The conversion of melody notes into music21 notes (music_generator.py:130-134) is left out. It is not part of the drum remap.
- File operations in the export (music_generator.py:169, 186-191, 196, 200, 203) and the rewrapping of exceptions (206-207) are left out. They are I/O. Only the text written to the file is modelled.
- The chord-progression table (music_generator.py:31-35) is left out. No code reads it.
- All of `app.py` is left out. It is the web layer, and the function it imports, `create_sequence_from_scratch`, does not exist in `music_generator.py`.
- Melody.RoundHalfEven: floats are modelled as exact reals. This is exact for finite doubles, since multiplying and dividing by 4 and Python's `round` are exact on them. It does not model overflow, infinities or NaN, for which Python's `round` raises.
- Melody.PostProcess: `random.randint(80, 127)` is modelled as an arbitrary choice in [80, 127]. The generator's state and the distribution of the draws are not modelled.
- Drums.DrumPart: the generated drum notes' start and end times are not modelled. The source discards them and appends each note after the previous one.

## Findings

| source | as written | input that shows it | evidently intended | confidence | as-written member | corrected member |
|---|---|---|---|---|---|---|
| music_generator.py:193-197 | Only the exporter's first line is dropped, when it is an XML declaration. The prolog's own document type declaration is then put in front of the rest of the body. | A body `<?xml version="1.0" encoding="utf-8"?>\n<!DOCTYPE score-partwise PUBLIC ...>\n<score-partwise .../>`: a declaration line, then the exporter's own document type declaration line, then the document. The written text has two document type declarations. Section 2.8 of the W3C XML 1.0 Recommendation allows at most one in the prolog, so the file is not well-formed. | Replace the exporter's header, so that the file has exactly one document type declaration. | medium: depends on the exporter writing its own document type declaration on the second line; not executed | `MusicXml.SpliceDuplicatesDoctype` | `MusicXml.SingleDoctypeKeepsOne` |
