# cmd_sing MML pipeline, modelled in Dafny

cmd_sing plays the MML ("music macro language") strings of the N88-BASIC
commands `CMD SING` and `CMD PLAY` on an emulated YM2203 (OPN) sound chip.
This project models the core of that pipeline, from command text down to
chip-register writes and PCM bookkeeping:

- **Text front end.**
  - The cursor scanner (`Scanning`).
  - The `{name}` and `[name]` variable expanders, which detect cycles (`Variables`).
  - The atoi-based parameter evaluator (`Ast`).
  - SING: the tokenizer, the bracket pass and the phrase builder (`Sing`).
  - PLAY: the tokenizer with its parameter scanner and the tuplet pass
    (`PlayText`); the phrase builder and the per-channel build and write-back
    loops (`PlayBuilder`); the stored channel settings (`Settings`).
- **Note and phrase model.**
  - Setting defaults, note construction, the letter-to-semitone mapping and
    durations in seconds (`Notes`).
  - The phrase object with its `add_*` builders, tie merging (`rescan_notes`),
    gate prefix sums (`calc_total`) and the special-action schedule (`Phrases`).
- **YM2203 register layer** (`Ym2203`).
  - Pitch, volume, timbre, envelope, tone/noise and key-on/off encoding.
  - The emulator is an append-only log of what it is handed, beside the
    chip object's small mask state.
- **Rendering skeleton.**
  - The integer phase/count machine of the software LFO (`Lfo`).
  - The sample and tick arithmetic of `VskPhrase::realize`, driving an
    abstract chip that records mixes, clock counts, key on/off and register
    writes (`Render`).
  - The 44-byte WAV header and the int16 mixing with clipping of `save_as_wav` (`Wav`).
- **Player bookkeeping** (`Player`).
  - The FIFO melody queue and `stop`.
  - The grouping of special actions by gate, and the waits between groups.
  - The action registry with its default.

Operations that loop or update state in place are methods. Each is proved
equal to a function that specifies it: the method's postcondition ties its
result or new state to that function. The properties the program promises are
then lemmas about those functions. Durations are reals; sample counts are
their truncations.

## Behaviour of the code that differs from what a reader might expect

The model follows the code in each of these places.

- SING repeat count.
  - The bracket pass sets the repeat count to 1 (sound.cpp:112-113), so `RP`
    never replicates a group. A group after an `RP` is replaced by one copy of
    its interior.
  - The `RP` item reaches the builder, which treats it as a rest. `RP(2)`
    fails there, because atoi of `(2)` is 0.
  - There is no nesting limit and no failure path in the pass.
- SING `X` items are ignored by the builder (sound.cpp:96-98).
- SING digit runs. A digit parameter that is followed by exactly one more
  character at the end of the text loses that character: no ungetch happens
  at the end. So `C4.` has no dot, and `C4D` has no `D`.
- Tie merging. A merged note keeps its tie flag (soundplayer.cpp:330-332), so
  a second `rescan_notes` is not a no-op.
- WAV header. Offset 24 receives twice the sample rate and offset 28 receives
  the chip clock (soundplayer.cpp:576-577). A canonical PCM `fmt ` chunk has
  the sample rate and the byte rate there.
- PLAY tuplet pass. After rewriting a group it steps back only one index
  (cmd_play.cpp:108-110), so the item that followed the `}` is not inspected.
  In `{C}{D}`, the second group is left unmarked.
- PLAY FM+SSG. Channels 3 and up start from `vsk_ssg_sound_settings[i-3]` but
  write back to `vsk_ssg_sound_settings[i]` (cmd_play.cpp:564-579).
- `do_special_action` looks the id up with `operator[]`, which inserts a null
  entry for an unknown id. The dispatch of every id stays the same.
- `realize` calls `ym.set_pitch`, `note_on`, `set_timbre` and similar. Their
  signatures do not match fmgon/YM2203.h. They are modelled as events of an
  abstract chip (`Render.Event`).
- A last note that carries a tie. A PLAY text ending in `&` or `^` (such as
  `C&`) builds a phrase whose last note is tied (cmd_play.cpp:164-169,
  412-435; `PlayBuilder.TiedLastNoteOpen`). `rescan_notes` then reads the
  note after it, past the end of the vector (soundplayer.cpp:323-329). That
  read is undefined, so `Phrases.Phrase.RescanNotes`, `Render.Prepare` and
  `Render.Realize` require `Notes.TiesClosed`: the last note is not tied.
  Such phrases are outside the model.
- The `stereo` argument that cmd_play.cpp passes is not taken by the
  soundplayer.cpp definitions shown. The model follows those definitions.

## Model

| member | source | states |
|---|---|---|
| Scanning.Scanner.constructor | scanner.h:8 | The scanner holds the text with the cursor at the start position; a start within the text gives a valid scanner. |
| Scanning.Scanner.Getch | scanner.h:19-25 | Returns what peek would (the character under the cursor, 0 at the end); advances by exactly one unless at the end, where the cursor stays; keeps the cursor within [0, size]. |
| Scanning.Scanner.Ungetch | scanner.h:26-30 | Steps the cursor back by one but never below 0, and keeps it within [0, size]. |
| Scanning.GetchThenUngetch | scanner.h:19-30 | A getch that was not at the end, followed by an ungetch, puts the cursor back where it was. |
| Ast.LeadingDigits | ast.h:10 | The longest all-digit prefix: digits only, and the next character, if any, is not a digit. |
| Ast.SkipSpaces | ast.h:10 | Drops exactly the leading white space: every dropped character is white space, and what is left is a suffix that does not start with one. |
| Ast.EvalText | ast.h:20-23 | vsk_eval_text always yields a node, whose to_int is std::atoi of the text. |
| Ast.DecimalString | ast.h:10 | A non-empty digit string (the decimal spelling of a number). |
| Ast.LeadingDigitsOfDigits | ast.h:10 | An all-digit text is its own leading digit run. |
| Ast.LeadingDigitsStops | ast.h:10 | The digit run stops at the first non-digit. |
| Ast.AtoiOfDigits | ast.h:10 | A parameter made only of digits evaluates to its decimal value. |
| Ast.AtoiStopsAtNonDigit | ast.h:10 | atoi reads digits up to the first non-digit and ignores the rest. |
| Ast.AtoiOfParenthesised | ast.h:10 | A parameter starting with `(`, as SING's `(2)`, evaluates to 0. |
| Ast.DecimalValueOfString | ast.h:10 | The decimal spelling of n has value n. |
| Ast.AtoiDecimalRoundTrip | ast.h:10 | atoi reads back every natural number written in decimal. |
| Ast.AtoiNegative | ast.h:10 | A leading minus sign negates the value. |
| Variables.PrependPrepend | main.cpp:166-176 | Prefixing an expansion twice is prefixing by the concatenation; a failure stays a failure. |
| Variables.Find | main.cpp:157 | A found position is at or after the start and holds the character searched for. |
| Variables.FindShift | main.cpp:157-160 | Searching a suffix finds the same position, shifted by the suffix offset. |
| Variables.FewerUnvisited | main.cpp:162-171 | Adding a table key to the visited set shrinks the set of unvisited keys, so recursion depth is bounded by the size of the table. |
| Variables.FoundOpenOnly | main.cpp:157-159 | An open delimiter with no close delimiter after it ends the expansion, keeping the rest verbatim. |
| Variables.FoundKeyAtStart | main.cpp:160-176 | A placeholder at the head: an already visited key is a circular reference; otherwise its expanded value (or nothing, for an unknown key) precedes the expansion of the rest. |
| Variables.FoundKey | main.cpp:156-177 | The same, for the placeholder the loop finds in the remaining text. |
| Variables.Substitute | main.cpp:166-177 | Replacing the span by the value and resuming after the value keeps the loop's expansion invariant. |
| Variables.ReplacePlaceholders | main.cpp:151-181 | The in-place loop returns exactly the expansion of the text from the given visited set (the `{}` form, or the `[]` form when the delimiters are brackets). |
| Variables.ReplaceKey | main.cpp:156-178 | One pass of the loop: a visited key is a circular reference of the whole expansion; otherwise the span is replaced by the key's expansion (or removed), the rest to scan strictly shrinks, and what is built so far followed by the expansion of the rest is still the expansion of the text. |
| Variables.ReplaceTop | main.cpp:184-188 | The one-argument overloads expand with nothing visited. |
| Variables.FindNone | main.cpp:157 | Without the character after the start position the search fails. |
| Variables.FindFirst | main.cpp:157 | The search finds the first occurrence at or after the start. |
| Variables.NoPlaceholderUnchanged | main.cpp:156 | A text with no open delimiter comes back unchanged. |
| Variables.UnmatchedUnchanged | main.cpp:157-159 | An open delimiter never closed after it: the text comes back unchanged. |
| Variables.FirstPlaceholder | main.cpp:162-176 | The first placeholder is a circular reference if its key is being expanded; otherwise it is replaced by the key's expanded value, or deleted if undefined, and the search resumes after the inserted text. |
| Variables.LiteralValue | main.cpp:168-173 | A defined variable whose value holds no placeholder is substituted verbatim. |
| Variables.SelfReference | main.cpp:162-165 | A variable whose value names itself is a circular reference. |
| Variables.MutualReference | main.cpp:162-165 | Two variables that name each other are a circular reference. |
| Variables.SideBySide | main.cpp:166-177 | The same variable used twice side by side is not a cycle, because the key leaves the visited set after its replacement. |
| Variables.NoRescan | main.cpp:168-173 | The inserted value is not rescanned: a value that opens a placeholder does not combine with the text after it. |
| Variables.BracketKeyUpperCased | main.cpp:196-218 | The `[]` form upper-cases the key before the cycle check and the lookup. |
| Notes.SpecialKeysDisjoint | soundplayer.h:40-48 | The seven special keys are pairwise distinct and none is a semitone 0..11. |
| Notes.Reset | soundplayer.h:104-122 | reset gives the constructor's defaults (tempo 120, octave 3, length 24, volume 8, quantity 8, tone 0, FM off), keeping the timbre. |
| Notes.ResetIdempotent | soundplayer.h:114-122 | Resetting twice is resetting once, and the timbre is kept. |
| Notes.GetSecProperties | soundplayer.cpp:180-190 | A quarter note lasts 60/tempo seconds; a dotted note lasts 1.5 times as long; durations add over lengths. |
| Notes.NaturalKey | soundplayer.cpp:192-240 | A letter's semitone is its position in the key string: the first position holding that letter. |
| Notes.KeyMapping | soundplayer.cpp:192-240 | C..B map to semitones; `+` or `#` raises by one with B wrapping to C, and `-` lowers with C wrapping to B; every other accepted character maps to a special key. |
| Notes.MakeNote | soundplayer.h:65-82 | The note constructor: seconds from tempo, length and dot; key from the character and the sign; register and data -1; the given fields stored. |
| Notes.TiedPrefix | soundplayer.cpp:322-329 | The number of tied notes at the head: all of them are tied, and the note after them is not. |
| Notes.SumsAppend | soundplayer.cpp:342-349 | Total length, total seconds and the tie count add over concatenation. |
| Notes.SumsSplit | soundplayer.cpp:342-349 | The totals split at any index. |
| Notes.CountTiedAll | soundplayer.cpp:317-340 | A list of tied notes has as many ties as notes. |
| Notes.SuffixTiesClosed | soundplayer.cpp:317-340 | A suffix of a list whose last note is untied also ends untied. |
| Notes.MergeTiesTotals | soundplayer.cpp:317-340 | Merging ties removes exactly one note per tied note and keeps the total length and the total seconds. |
| Notes.MergeWithoutTies | soundplayer.cpp:317-340 | A list without ties is left as it is. |
| Notes.MergeTwiceDiffers | soundplayer.cpp:330-332 | The merged note keeps its tie flag, so a second merge changes the list again: three notes, the first two tied, become two and then one. |
| Notes.WithGates | soundplayer.cpp:342-349 | Each note's gate is the start gate plus the seconds of the notes before it; nothing else changes. |
| Notes.WithGatesGated | soundplayer.cpp:342-349 | The notes calc_total produces satisfy the gate invariant. |
| Notes.GatedDrop | soundplayer.cpp:342-349 | The gate invariant holds for every suffix, from the seconds before it. |
| Notes.MergeKeepsGates | soundplayer.cpp:317-349 | Merging ties after computing gates keeps every gate equal to the seconds before the note. |
| Phrases.SettingNote | soundplayer.h:161-166 | add_note's note: tempo, octave and volume from the setting, seconds from the length and dot, and register and data -1. |
| Phrases.MarkerNote | soundplayer.h:167-196 | The marker notes: zero length and seconds, undotted, untied, with the register and data given. |
| Phrases.KeyNote | soundplayer.h:209-217 | add_key's note: octave 0, key 96 mapped to 0, the key stored directly, untied. |
| Phrases.Phrase.constructor | soundplayer.h:131-140 | A phrase holds the setting, with no notes, no scheduled actions and goal 0. |
| Phrases.Phrase.Append | soundplayer.h:161-166 | Appends exactly one note and changes nothing else. |
| Phrases.Phrase.AddNote | soundplayer.h:161-166 | Appends the setting's note for the given character, length, sign, quantity and tie. |
| Phrases.Phrase.AddNoteSigned | soundplayer.h:155-157 | Appends a note with the setting's quantity and no tie. |
| Phrases.Phrase.AddNoteDotted | soundplayer.h:149-151 | Appends a note with the setting's length and quantity, no sign and no tie. |
| Phrases.Phrase.AddActionNode | soundplayer.h:167-172 | Appends a marker whose data is the action number. |
| Phrases.Phrase.AddTone | soundplayer.h:173-178 | Appends a marker whose data is the tone number. |
| Phrases.Phrase.AddReg | soundplayer.h:179-184 | Appends a marker holding the register and its data. |
| Phrases.Phrase.AddEnvelopInterval | soundplayer.h:185-190 | Appends a marker whose data is the envelope interval. |
| Phrases.Phrase.AddEnvelopType | soundplayer.h:191-196 | Appends a marker whose data is the envelope type. |
| Phrases.Phrase.AddKey | soundplayer.h:206-217 | Appends add_key's note with the setting's quantity. |
| Phrases.Phrase.SetLastTied | cmd_play.cpp:378-379 | Only the last note's tie flag changes. |
| Phrases.Phrase.SetSetting | sound.cpp:53-79 | Only the setting changes. |
| Phrases.Phrase.RescanNotes | soundplayer.cpp:317-340 | The notes become their tie-merged list; nothing else changes. |
| Phrases.Phrase.CalcTotal | soundplayer.cpp:342-349 | Every note gets its gate and the goal becomes the total seconds. |
| Phrases.Phrase.ScheduleSpecialAction | soundplayer.cpp:255-257 | Appends the (gate, action) pair to the schedule. |
| Phrases.MergedNotes | soundplayer.cpp:317-340 | The loop of rescan_notes builds exactly the tie-merged list. |
| Phrases.MergeOne | soundplayer.cpp:320-336 | One pass of rescan_notes' loop advances past a whole tied run or one untied note, and the notes emitted so far followed by the merge of the rest stay equal to the merge of the whole list. |
| Phrases.TiedRun | soundplayer.cpp:322-329 | From a tied note, the run has the tied-prefix length; the merged note is the first note with the run's total length and seconds. |
| Phrases.MergeUntiedStep | soundplayer.cpp:333-336 | An untied note is copied, and the merge of the rest follows. |
| Phrases.MergeTiedStep | soundplayer.cpp:320-332 | A tied run and the untied note after it become one merged note, and the merge resumes after the run. |
| Phrases.TiedPrefixIs | soundplayer.cpp:322-329 | k leading tied notes followed by an untied one is a tied prefix of length k. |
| Sing.ParenParam | sound.cpp:201-224 | The `(` parameter ends within the text, at or after where it started. |
| Sing.DigitParam | sound.cpp:226-237 | The digit-run parameter ends within the text. |
| Sing.ItemAfter | sound.cpp:166-246 | Reading an item after its letter ends within the text. |
| Sing.ScanParenParam | sound.cpp:201-224 | The scanner loop yields exactly the `(` parameter and end position of the specification. |
| Sing.ScanDigitParam | sound.cpp:226-237 | The scanner loop, with its final ungetch, yields exactly the digit parameter and end position. |
| Sing.ScanItem | sound.cpp:166-246 | The item and cursor after the letter are those of the specification. |
| Sing.EvalSingItems | sound.cpp:136-251 | Succeeds exactly when the text tokenizes, and then returns the bracket-expanded items. |
| Sing.RewriteScan | sound.cpp:104-134 | A group found runs from a `[` item to a later `]` item. |
| Sing.FindGroup | sound.cpp:104-134 | The group to rewrite, if any, runs from a `[` item to a later `]` item. |
| Sing.Unbracket | sound.cpp:119-130 | Rewriting a group removes exactly its two bracket items. |
| Sing.ScanForGroup | sound.cpp:106-132 | The for loop finds a group exactly when the specification does, the same one, with repeat 1. |
| Sing.ExpandSingItems | sound.cpp:104-134 | The in-place pass with its retry returns exactly the bracket expansion. |
| Sing.SingParam | sound.cpp:38-43 | No value for an empty parameter; atoi of the parameter otherwise. |
| Sing.SingStep | sound.cpp:53-99 | A successful step keeps a non-zero tempo and adds at most one note. |
| Sing.ApplySingItem | sound.cpp:53-99 | The loop body does to the phrase what one builder step specifies. |
| Sing.PhraseFromSingItems | sound.cpp:45-102 | The builder loop succeeds exactly when the specification does, with its setting and notes. |
| Sing.SoundSing | sound.cpp:254-271 | Tokenize, then build from SSG channel 0's setting with FM off; the setting is written back to SSG channel 0 only when both succeed, and the FM settings never change. |
| Sing.RestOrRepeat | sound.cpp:183-189 | `R` directly followed by `P` is `RP`, otherwise `R`. |
| Sing.IllegalCharacterFails | sound.cpp:190-191 | A character that cannot start an item fails the whole text. |
| Sing.SeparatorsProduceNothing | sound.cpp:147-155 | Blanks and `;` produce no item. |
| Sing.DigitRun | sound.cpp:226-237 | A digit run ends at the first non-digit, which is re-read unless it is the last character of the text. |
| Sing.DigitRunFrom | sound.cpp:226-237 | The same, from any position inside the text. |
| Sing.FinalDotAfterLengthLost | sound.cpp:226-244 | `C4.` tokenizes to an undotted C4: the final dot is lost. |
| Sing.FinalNoteAfterLengthLost | sound.cpp:226-237 | `C4D` tokenizes to C4 alone. |
| Sing.DotBeforeNoteKept | sound.cpp:240-244 | `C4.D` gives a dotted C4 and then D. |
| Sing.RewriteScanNoRepeat | sound.cpp:106-132 | With no RP seen, the scan finds no group. |
| Sing.ExpandWithoutRepeat | sound.cpp:104-134 | Without an RP item the bracket pass changes nothing. |
| Sing.NonBracketsAppend | sound.cpp:104-134 | The non-bracket items of a concatenation are those of the parts. |
| Sing.DropBracket | sound.cpp:119-130 | Removing a bracket item keeps the non-bracket items. |
| Sing.UnbracketKeepsOthers | sound.cpp:119-130 | A group rewrite keeps every non-bracket item in order. |
| Sing.ExpandSingProperties | sound.cpp:104-134 | The bracket pass removes only bracket items, two at a time, leaves no group to rewrite, and is idempotent. |
| Sing.RepeatPlacement | sound.cpp:104-134 | An RP before a group replaces the group by its interior once; an RP after the group is too late and the brackets stay. |
| Sing.BuildSingControls | sound.cpp:53-79 | `T` is accepted only in 48..255, `O` only in 3..6 (stored one lower) and `L` only in 1..32 (stored as 96/L); a missing parameter fails. |
| Sing.BuildSingNote | sound.cpp:80-95 | A note or rest: an explicit length of 1..32 gives 96 div L length units, no parameter gives the setting's length, and anything else fails; exactly one note is added, with the letter's key. |
| Sing.RepeatWithCountFails | sound.cpp:80-95 | `RP(2)` reaches the builder as a rest of length 0 and fails. |
| Sing.BuildSingAppends | sound.cpp:45-102 | Building only appends notes, and the tempo stays non-zero. |
| PlayText.SkipBlanks | cmd_play.cpp:121-122 | Skips exactly the blanks and stops at a non-blank or at the end. |
| PlayText.DigitRun | cmd_play.cpp:123-129 | A digit parameter ends at a character that is neither blank nor digit. |
| PlayText.EqualsRun | cmd_play.cpp:130-139 | An `=` parameter, when it succeeds, ends just after its `;`. |
| PlayText.PlayParam | cmd_play.cpp:118-142 | A parameter ends within the text. |
| PlayText.SkipBlanksLoop | cmd_play.cpp:121-122 | The pointer loop stops where the specification does. |
| PlayText.ScanPlayParam | cmd_play.cpp:118-142 | vsk_scan_play_param succeeds exactly when the specification does, with the same end and parameter. |
| PlayText.WithDot | cmd_play.cpp:183-190 | The dot, if present, is consumed after the parameter. |
| PlayText.WithParam | cmd_play.cpp:192-262 | The item succeeds exactly when its parameter does, and ends where the parameter ends. |
| PlayText.ItemAfter | cmd_play.cpp:170-262 | An item read after its letter ends within the text. |
| PlayText.TieLast | cmd_play.cpp:164-169 | `&` and `^` set the tie flag of the last item and change no other item. |
| PlayText.ScanNoteItem | cmd_play.cpp:170-190 | The note, `N` and `R` cases read the item the specification does. |
| PlayText.ScanAtItem | cmd_play.cpp:235-254 | The `@` case reads the item the specification does. |
| PlayText.ScanItem | cmd_play.cpp:170-262 | The switch reads the item the specification does. |
| PlayText.EvalCmdPlayItems | cmd_play.cpp:147-271 | Expand `[name]`, tokenize and run the tuplet pass: the result is exactly the items, a rejected text or a circular reference, as specified. |
| PlayText.Mark | cmd_play.cpp:98-110 | A group rewrite removes exactly its two braces. |
| PlayText.Retagged | cmd_play.cpp:99-103 | Every interior item of the group gets the interior's size as tuplet count and atoi of the `}` parameter as tuplet length, and nothing else. |
| PlayText.MarkedThenErased | cmd_play.cpp:98-110 | The marking loop followed by the two erasures gives the group rewrite. |
| PlayText.RescanPlayItems | cmd_play.cpp:90-115 | The in-place pass returns exactly the specified tuplet rewrite. |
| PlayText.DigitRunDigits | cmd_play.cpp:123-129 | A digit parameter holds only digits. |
| PlayText.EqualsRunEnds | cmd_play.cpp:130-139 | An `=` parameter with no `;` after it fails. |
| PlayText.DigitParamSkipsBlanks | cmd_play.cpp:123-129 | Blanks inside a digit parameter are skipped: ` 1 2;` gives `12`. |
| PlayText.EqualsParamExamples | cmd_play.cpp:130-139 | An `=` parameter keeps only its non-blank characters and needs its `;`. |
| PlayText.LeadingTieIgnored | cmd_play.cpp:164-169 | A tie with no item before it is ignored. |
| PlayText.TieFlagsPrevious | cmd_play.cpp:164-169 | A tie flags the item just before it, and no other. |
| PlayText.IllegalCharacterFails | cmd_play.cpp:263-265 | A character outside the accepted set fails the whole text. |
| PlayText.AtSubcommands | cmd_play.cpp:235-254 | `@V` and `@W` are two-letter subcommands in either case; after any other character, `@` rereads it as parameter text. |
| PlayText.BareAppend | cmd_play.cpp:90-115 | The non-brace items of a concatenation are those of its parts. |
| PlayText.BareMarked | cmd_play.cpp:99-103 | Retagging leaves the non-brace items as they are. |
| PlayText.DropBrace | cmd_play.cpp:104-107 | Erasing a brace keeps the other items. |
| PlayText.UnbraceKeepsOthers | cmd_play.cpp:104-107 | Erasing both braces of a group keeps every other item in order. |
| PlayText.SameBareMiddle | cmd_play.cpp:99-103 | Items that agree apart from their tags agree inside any context. |
| PlayText.MarkKeepsOthers | cmd_play.cpp:98-110 | A group rewrite only removes its two braces and retags the interior. |
| PlayText.TupletScanKeepsOthers | cmd_play.cpp:90-115 | The tuplet pass keeps every non-brace item, in order. |
| PlayText.TupletScanRemovesPairs | cmd_play.cpp:90-115 | The tuplet pass removes items only in pairs. |
| PlayText.RescanKeepsOthers | cmd_play.cpp:90-115 | vsk_rescan_play_items keeps every non-brace item in order and removes braces in pairs. |
| PlayText.TupletScanWithoutOpen | cmd_play.cpp:90-115 | With no `{` from the scan position on, the scan changes nothing. |
| PlayText.RescanWithoutOpen | cmd_play.cpp:90-115 | With no `{` the tuplet pass changes nothing. |
| PlayText.TripletMarked | cmd_play.cpp:90-115 | `{C D E}` gives three notes marked as a triplet with the `}` length. |
| PlayText.TripletMark | cmd_play.cpp:98-110 | The rewrite of a three-note group tags each note with count 3. |
| PlayText.SecondGroupSkipped | cmd_play.cpp:108-110 | After a group, the item that followed its `}` is skipped: in `{C}{D}` the second group stays unmarked. |
| PlayText.SingletMark | cmd_play.cpp:98-110 | The rewrite of the first one-note group of `{C}{D}` tags C with count 1. |
| PlayBuilder.RegisterLatch.constructor | cmd_play.cpp:482-485 | The function-static register number starts at 0. |
| PlayBuilder.RegisterLatch.Latch | cmd_play.cpp:482-485 | `Y` stores the register number. |
| PlayBuilder.PlayArg | cmd_play.cpp:273-278 | No node for an empty parameter; atoi of the parameter otherwise. |
| PlayBuilder.SetTempo | cmd_play.cpp:400-411 | `T` is accepted exactly for an absent parameter or 32..255, 120 when absent; only the tempo changes. |
| PlayBuilder.SetOctave | cmd_play.cpp:349-360 | `O` is accepted exactly for an absent parameter or 1..8, stored one lower, 4 when absent; only the octave changes. |
| PlayBuilder.SetLength | cmd_play.cpp:325-336 | `L` is accepted exactly for an absent parameter or 1..64, stored as the real 96/L, 96 when absent; only the length changes. |
| PlayBuilder.SetQuantity | cmd_play.cpp:337-348 | `Q` is accepted exactly for an absent parameter or 0..8, 8 when absent; only the quantity changes. |
| PlayBuilder.SetVolume | cmd_play.cpp:313-324 | `V` is accepted exactly for an absent parameter or 0..15, 8 when absent; only the volume changes. |
| PlayBuilder.ControlStep | cmd_play.cpp:313-372 | The controllers; `<` fails at octave 0 and otherwise lowers it, `>` fails at octave 8 and otherwise raises it. |
| PlayBuilder.PletLength | cmd_play.cpp:454-476 | Inside a tuplet the length is (96/pletL)/pletCount, whatever the note's own length, and a pletL outside 1..64 fails; outside a tuplet the length is kept. |
| PlayBuilder.NoteLength | cmd_play.cpp:412-435 | A note length is accepted for no parameter or 1..64: the setting's length or the integer quotient 96 div L, then the tuplet rule. |
| PlayBuilder.AtStep | cmd_play.cpp:436-478 | `@` needs 0..61 and emits a tone change; `@V` needs 0..127 and sets the volume to i*15/127; `@W` is a special rest at the note length; anything else fails. |
| PlayBuilder.EnvelopeStep | cmd_play.cpp:289-312 | `M` needs 1..65535 (255 when absent) and `S` 0..15 (1 when absent); each emits one envelope marker. |
| PlayBuilder.KeyStep | cmd_play.cpp:373-399 | `N` succeeds exactly with a parameter in 0..96 and an acceptable tuplet; it adds one key note. |
| PlayBuilder.NoteStep | cmd_play.cpp:412-435 | C..B and R succeed exactly when the note length does; they add one note at that length, tied as their item. |
| PlayBuilder.RegisterStep | cmd_play.cpp:479-497 | `Y` latches the register number; `,` emits a write of its data to the latched register; both need a parameter. |
| PlayBuilder.PlayStep | cmd_play.cpp:280-505 | One step adds at most one note; only `Y` changes the latch; controllers add no note; notes keep the setting and copy the item's tie flag; other items are ignored. |
| PlayBuilder.BuildPlay | cmd_play.cpp:280-505 | The builder loop keeps the tempo non-zero. |
| PlayBuilder.ApplyControl | cmd_play.cpp:313-411 | The controller cases do to the phrase what the controller step specifies. |
| PlayBuilder.AddTiedNote | cmd_play.cpp:412-435 | add_note, then the item's tie flag on the new note. |
| PlayBuilder.AddTiedKey | cmd_play.cpp:373-399 | add_key, then the item's tie flag on the new note. |
| PlayBuilder.ScanNoteLength | cmd_play.cpp:412-435 | The length computation gives the specified note length. |
| PlayBuilder.ApplyPlet | cmd_play.cpp:454-476 | The tuplet rule as written gives the specified length. |
| PlayBuilder.ApplyAt | cmd_play.cpp:436-478 | The `@` cases do to the phrase what the `@` step specifies. |
| PlayBuilder.ApplyEnvelope | cmd_play.cpp:289-312 | The `M` and `S` cases do what the envelope step specifies. |
| PlayBuilder.ApplyKey | cmd_play.cpp:373-399 | The `N` case does what the key step specifies. |
| PlayBuilder.ApplyNote | cmd_play.cpp:412-435 | The note cases do what the note step specifies. |
| PlayBuilder.ApplyRegister | cmd_play.cpp:479-497 | The `Y` and `,` cases do what the register step specifies, latch included. |
| PlayBuilder.ApplyPlayItem | cmd_play.cpp:284-503 | The loop body does what one builder step specifies. |
| PlayBuilder.PhraseFromPlayItems | cmd_play.cpp:280-505 | The builder loop succeeds exactly when the specification does, with its setting, latch and notes. |
| PlayBuilder.StartSetting | cmd_play.cpp:521-579 | A channel's phrase starts with FM on exactly for FM channels: every channel of the FM command, and channels 0..2 of FM+SSG. |
| PlayBuilder.WriteBack | cmd_play.cpp:521-579 | The write-back sets the channel's own slot and no other; SSG commands keep FM, FM commands keep SSG, and FM+SSG keeps FM 3..5 and SSG 0..2. |
| PlayBuilder.ChannelStep | cmd_play.cpp:515-536 | A channel string either stops the command (illegal call, or circular reference exactly when expansion found a cycle) or builds successfully. |
| PlayBuilder.PlayChannels | cmd_play.cpp:510-545 | The channel loop keeps every stored tempo non-zero, and success means every channel string built. |
| PlayBuilder.BuildChannel | cmd_play.cpp:515-531 | The loop body up to the write-back does what one channel step specifies. |
| PlayBuilder.WriteBackStore | cmd_play.cpp:532-536 | The store assignments are the specified write-back. |
| PlayBuilder.PlayChannel | cmd_play.cpp:515-536 | One pass of the channel loop, write-back included, as specified. |
| PlayBuilder.SoundCmdPlay | cmd_play.cpp:510-626 | The three entry points change the stored settings exactly as the channel loop specifies and return its error. |
| PlayBuilder.PlayAndCollect | cmd_play.cpp:556-584 | One pass of the channel loop: on failure the error and stored state are the channel loop's final outcome; on success one phrase joins the block and the remaining loop from the new state has the same outcome as the whole. |
| PlayBuilder.SoundCmdPlaySave | cmd_play.cpp:631-747 | The save variants do the same, then report an I/O error when the file cannot be written. |
| PlayBuilder.BuildPlayAppends | cmd_play.cpp:280-505 | Building only appends, at most one note per item. |
| PlayBuilder.BuildPlayConcat | cmd_play.cpp:280-505 | Building `a + b` is building `a` and then, if that succeeded, building `b` from where `a` left off. |
| PlayBuilder.ControllersAddNoNotes | cmd_play.cpp:313-411 | Controllers and octave steps add no notes and leave the latch. |
| PlayBuilder.PlayStepIsRegister | cmd_play.cpp:479-497 | A `Y` or `,` step is the register step. |
| PlayBuilder.PlayStepIsControl | cmd_play.cpp:313-411 | A controller step is its controller function. |
| PlayBuilder.RegisterPair | cmd_play.cpp:479-497 | `Y` then `,` writes the data of `,` to the register `Y` named, and a later `,` keeps using that register. |
| PlayBuilder.OctaveDownUp | cmd_play.cpp:361-372 | `<` then `>` is no change, away from the bottom octave. |
| PlayBuilder.OctaveBelowBottom | cmd_play.cpp:361-366 | `<` at the bottom octave fails the build. |
| PlayBuilder.OctaveAboveO | cmd_play.cpp:349-372 | `>` reaches octave 8, one above the highest `O` can set. |
| PlayBuilder.ExplicitLengthIsWhole | cmd_play.cpp:325-336 | An explicit note length is the integer quotient 96 div n, but `L` n stores the real 96/n: `C7` lasts 13 units and `L7` lasts 96/7. |
| PlayBuilder.TripletLength | cmd_play.cpp:454-476 | Each note of a `{...}4` triplet lasts 8 units, whatever its own length. |
| PlayBuilder.TiedLastNoteOpen | cmd_play.cpp:412-435 | A last note item carrying a tie (`C&`) builds successfully and leaves the phrase with a tied last note, which TiesClosed excludes. |
| PlayBuilder.ChannelsWritten | cmd_play.cpp:510-590 | Every channel built is in its slot; channels not reached keep theirs; the command succeeds exactly when every channel string built. |
| PlayBuilder.ChannelsBuilt | cmd_play.cpp:556-584 | The channels built extend those given, never outnumber the strings, no I/O error arises, and the loop succeeds exactly when every channel string built. |
| PlayBuilder.ChannelSlots | cmd_play.cpp:571-577 | Each built channel's final setting sits in its own slot and the slots past the last channel built keep the settings they started with. |
| PlayBuilder.ChannelsKeepOthers | cmd_play.cpp:548-590 | SSG commands never touch FM settings and FM commands never touch SSG settings; FM+SSG never writes FM 3..5 or SSG 0..2. |
| Settings.SettingStore.constructor | cmd_play.cpp:21-24 | Every channel starts at the default setting, with the setting size given. |
| Settings.SettingStore.SettingSize | cmd_play.cpp:21-24 | The blob size is the setting size. |
| Settings.SettingStore.Channel | cmd_play.cpp:27-41 | Channels 0..5 are FM, 6..11 are SSG channel ch-6, and any other number has no setting. |
| Settings.SettingStore.GetSetting | cmd_play.cpp:27-41 | The blob is resized to the setting size; it holds the channel's setting exactly when the channel is valid. |
| Settings.SettingStore.SetSetting | cmd_play.cpp:44-59 | Fails exactly for a blob of the wrong size or an invalid channel; otherwise only that channel changes. |
| Settings.SettingStore.SetFm | cmd_play.cpp:575-578 | Assigns one FM channel's setting. |
| Settings.SettingStore.SetSsg | cmd_play.cpp:532-535 | Assigns one SSG channel's setting. |
| Settings.SetThenGet | cmd_play.cpp:27-59 | Setting a channel and reading it back gives the blob's setting; every other channel keeps its setting. |
| Ym2203.FmPitchWrites | fmgon/YM2203.cpp:86-98 | The block and high F-number bits go to FREQ_H+ch first, then the low byte to FREQ_L+ch. |
| Ym2203.FmPitchDecodes | fmgon/YM2203.cpp:86-98 | The chip reads back the octave as the block and the adjusted table value as the 11-bit F-number. |
| Ym2203.SsgPeriod | fmgon/YM2203.cpp:100-110 | The octave-0 table value, or for octave o > 0 the value shifted by o-1 and halved with rounding. |
| Ym2203.SsgPitchWrites | fmgon/YM2203.cpp:100-115 | The period goes to TONE_FREQ_L+2ch and bits 8..11 to TONE_FREQ_H+2ch. |
| Ym2203.SsgPitchDecodes | fmgon/YM2203.cpp:100-115 | The chip reads back the 12-bit period; the pitch adjustment is ignored; octave 0 overflows 12 bits except for B. |
| Ym2203.CarrierOps | fmgon/YM2203.cpp:130-150 | Operator 4 is always a carrier, and every carrier is an operator index 0..3. |
| Ym2203.Attenuation | fmgon/YM2203.cpp:124-125 | (15 - volume) * 3: a multiple of 3 up to 45, and 0 exactly at volume 15. |
| Ym2203.TlWrite | fmgon/YM2203.cpp:126-129 | A carrier's TL write is (tl + att - adj) masked to 7 bits, at the operator's TL register. |
| Ym2203.VolumeWrites | fmgon/YM2203.cpp:130-150 | One TL write per carrier. |
| Ym2203.VolumeWritesAt | fmgon/YM2203.cpp:130-150 | Write i is carrier i's write. |
| Ym2203.FmVolumeCarriers | fmgon/YM2203.cpp:119-152 | Exactly the carriers of the algorithm get the volume: operator 4 always, 2 for algorithm 4 and up, 3 for 5 and up, 1 only for 7. |
| Ym2203.FmVolumeLouder | fmgon/YM2203.cpp:119-152 | Without adjustment and with room below 128, a louder volume writes a smaller total level. |
| Ym2203.SsgVolumeWrites | fmgon/YM2203.cpp:154-161 | One write of the volume to LEVEL_ENV+ch. |
| Ym2203.SsgEnvelopeWrites | fmgon/YM2203.cpp:163-183 | 0x10 to LEVEL_ENV+ch, type&0xF to ENV_TYPE, then the interval's low and high bytes. |
| Ym2203.KeyOnMix | fmgon/YM2203.cpp:52-69 | Key on clears the channel's mask bits and keeps the others. |
| Ym2203.KeyOffMix | fmgon/YM2203.cpp:78-84 | Key off sets the channel's mask bits and keeps the others. |
| Ym2203.KeyOnOffRestores | fmgon/YM2203.cpp:52-84 | Key off after key on restores a mixer byte whose mask bits were set, and the reverse. |
| Ym2203.ModeMask | fmgon/YM2203.cpp:185-202 | TONE, NOISE or their sum gives that mask; any other mode leaves the mask unchanged. |
| Ym2203.ModeMasksInsideInit | fmgon/YM2203.cpp:20-39 | Every mask lies inside the 0x3F that init writes, and the masks of two channels are disjoint. |
| Ym2203.FmKeyOnData | fmgon/YM2203.cpp:41-50 | The operator mask is in the high nibble and the channel in the low one. |
| Ym2203.DetuneField | fmgon/YM2203.cpp:217-223 | A detune is encoded in 3 bits, a negative d as 4-d. |
| Ym2203.DetuneRoundTrip | fmgon/YM2203.cpp:217-223 | The encoding round-trips over the chip's detune range -3..3. |
| Ym2203.OperatorWrites | fmgon/YM2203.cpp:210-262 | One operator writes six registers, in order: DT/MUL, TL, KS/AR, DR, SR, SL/RR. |
| Ym2203.OperatorRun | fmgon/YM2203.cpp:210-262 | n passes of the operator loop write 6n registers. |
| Ym2203.FeedbackWrite | fmgon/YM2203.cpp:263-264 | The FB/ALG write goes to the channel's FB/ALG register. |
| Ym2203.TimbreWrites | fmgon/YM2203.cpp:204-267 | 25 writes, the last being FB/ALG. |
| Ym2203.OperatorRunAt | fmgon/YM2203.cpp:210-262 | Write 6op+k of the operator loop is register k of operator op. |
| Ym2203.TimbreWritesAt | fmgon/YM2203.cpp:204-267 | The same, for the whole timbre sequence. |
| Ym2203.TimbreRegistersDistinct | fmgon/YM2203.cpp:204-267 | The 25 writes go to 25 different registers. |
| Ym2203.TimbreFieldsDecode | fmgon/YM2203.cpp:204-267 | Reading the registers back gives each timbre field in range. |
| Ym2203.YM2203.constructor | fmgon/YM2203.cpp:20-30 | No timbres, no enveloped channel, tone masks 1, 2, 4 and an empty log. |
| Ym2203.YM2203.WriteReg | fmgon/YM2203.cpp:32-39 | Appends one register write and nothing else. |
| Ym2203.YM2203.Init | fmgon/YM2203.cpp:32-39 | Set up and reset the emulator, write 0x3F to the mixer register and store 0x3F as the mixer byte. |
| Ym2203.YM2203.FmKeyOn | fmgon/YM2203.cpp:41-50 | Writes the key-on data to 0x28 when the channel has a timbre. |
| Ym2203.YM2203.FmKeyOff | fmgon/YM2203.cpp:71-76 | Writes the channel number to 0x28. |
| Ym2203.YM2203.SsgKeyOn | fmgon/YM2203.cpp:52-69 | Clears the channel's mask bits and writes the mixer byte; rewrites ENV_TYPE for an enveloped channel of type 9 or 15. |
| Ym2203.YM2203.SsgKeyOff | fmgon/YM2203.cpp:78-84 | Sets the channel's mask bits and writes the mixer byte. |
| Ym2203.YM2203.FmSetPitch | fmgon/YM2203.cpp:86-98 | Logs the FM pitch writes and changes no state. |
| Ym2203.YM2203.SsgSetPitch | fmgon/YM2203.cpp:100-115 | Logs the SSG pitch writes and changes no state. |
| Ym2203.YM2203.FmSetVolume | fmgon/YM2203.cpp:119-152 | Logs the carrier TL writes when a timbre is set, and nothing otherwise. |
| Ym2203.YM2203.WriteTl | fmgon/YM2203.cpp:131-151 | One total-level write extends the log by the next carrier's write in the order the algorithm selects, and leaves every other part of the chip state unchanged. |
| Ym2203.YM2203.FmSetVolumeFlat | fmgon/YM2203.h:81-84 | The two-argument form is the three-argument one with no adjustment. |
| Ym2203.YM2203.SsgSetVolume | fmgon/YM2203.cpp:154-161 | Logs the level write. |
| Ym2203.YM2203.SsgSetEnvelope | fmgon/YM2203.cpp:163-183 | Logs the envelope writes, marks the channel enveloped and records the type. |
| Ym2203.YM2203.SsgSetToneOrNoise | fmgon/YM2203.cpp:185-202 | Updates only the channel's mask; writes nothing. |
| Ym2203.YM2203.FmSetTimbre | fmgon/YM2203.cpp:204-267 | Logs the 25 timbre writes and records the timbre. |
| Ym2203.YM2203.WriteOperator | fmgon/YM2203.cpp:210-262 | Logs one operator's six writes. |
| Ym2203.VolumeWritesSnoc | fmgon/YM2203.cpp:130-150 | One more carrier appends its TL write. |
| Ym2203.SsgKeyOnThenOff | fmgon/YM2203.cpp:52-84 | Keying on and then off, with the mask bits set, restores the mixer byte and logs both mixer writes. |
| Lfo.TruncDiv | soundplayer.cpp:40-44 | C++ integer division: truncation toward zero, for either sign of the divisor. |
| Lfo.QuarterPeriod | soundplayer.cpp:40-44 | 900*150/(4*speed), 0 for speed 0; positive exactly for speed 1..33750. |
| Lfo.QuarterPeriodRange | soundplayer.cpp:40-44 | The quarter period is positive exactly for speed 1..33750, and at most 0 for a negative speed. |
| Lfo.ForTimbre | soundplayer.cpp:37-53 | init_for_timbre: the timbre's waveform and quarter period, phase 0 and count 0. |
| Lfo.ForKeyOn | soundplayer.cpp:55-60 | init_for_keyon restarts phase and count only for a synchronised LFO. |
| Lfo.Tick | soundplayer.cpp:62-77 | increment does nothing for a zero period; otherwise the count goes up, and at the period it wraps to 0 and the phase advances mod 4; the ranges are kept. |
| Lfo.Ticks | soundplayer.cpp:62-77 | n increments keep the waveform, the period and the ranges. |
| Lfo.TicksClosedForm | soundplayer.cpp:62-77 | After n increments the count is (count+n) mod qperiod and the phase has advanced by the completed quarters, mod 4. |
| Lfo.LfoPeriod | soundplayer.cpp:62-77 | 4*qperiod increments bring an in-range state back to itself. |
| Lfo.LfoCtrl.constructor | soundplayer.cpp:17-35 | The fields hold the given state. |
| Lfo.LfoCtrl.InitForTimbre | soundplayer.cpp:37-53 | The state becomes the init_for_timbre state. |
| Lfo.LfoCtrl.InitForKeyOn | soundplayer.cpp:55-60 | The state becomes the init_for_keyon state. |
| Lfo.LfoCtrl.Increment | soundplayer.cpp:62-77 | The state advances by one tick. |
| Render.CInt | soundplayer.cpp:402-547 | A float-to-int conversion of a non-negative value is its floor. |
| Render.NoteSecs | soundplayer.cpp:451-458 | The sounding part (quantity eighths) and the tail are non-negative and add up to the note's seconds. |
| Render.NoteSamplesBound | soundplayer.cpp:451-458 | A note takes no more samples than its seconds hold. |
| Render.MarkerWrites | soundplayer.cpp:427-443 | REG writes its register; ENVELOP_INTERVAL writes the low and high bytes of the interval; ENVELOP_TYPE writes type mod 16. |
| Render.EnvelopeSplit | soundplayer.cpp:427-443 | The interval's low and high bytes recombine to the interval mod 65536. |
| Render.MixTotalAppend | soundplayer.cpp:402-547 | Mixed frames add over concatenated event logs. |
| Render.PassEvents | soundplayer.cpp:460-477 | One pass mixes where it starts, then only LFO updates, and updates exactly when the note is keyed. |
| Render.FmChunksStep | soundplayer.cpp:460-477 | One pass of the chunk loop, unfolded. |
| Render.PassFacts | soundplayer.cpp:460-477 | A pass mixes min(UNIT, n) frames at its start. |
| Render.FmChunksMix | soundplayer.cpp:460-477 | The chunks mix exactly n frames, contiguously from the note's first frame. |
| Render.FmChunksShape | soundplayer.cpp:460-477 | No chunk mixes more than 294 frames, and none counts or keys. |
| Render.FmChunksLfo | soundplayer.cpp:460-477 | A keyed note steps its LFO once per pass; an unkeyed one leaves it. |
| Render.PassesStep | soundplayer.cpp:460-477 | One pass consumes one unit, or the rest. |
| Render.KeyEventsFacts | soundplayer.cpp:444-450 | Key events mix nothing; key on is present exactly for notes other than rests and special rests, key off for notes other than special rests. |
| Render.FmNote | soundplayer.cpp:410-493 | An FM note leaves the schedule alone. |
| Render.SsgNote | soundplayer.cpp:496-546 | An SSG note leaves the timbre and the LFO alone. |
| Render.FmTailFacts | soundplayer.cpp:478-493 | The tail mixes at most 44100 frames but advances the sample index by the whole tail. |
| Render.FmSoundMix | soundplayer.cpp:444-493 | An FM note mixes all its sounding frames and at most 44100 tail frames, inside its own frames. |
| Render.FmSoundKeys | soundplayer.cpp:444-493 | An FM note keys on exactly when it is neither a rest nor a special rest. |
| Render.FmNoteTiming | soundplayer.cpp:410-493 | A marker takes no frames and mixes nothing; any other note advances by its sounding and tail frames, mixes all the sounding part and at most 44100 frames of the tail, and keys on and off as its kind says. |
| Render.SsgSoundFacts | soundplayer.cpp:524-546 | An SSG note mixes all the frames it takes, inside them, and keys as its kind says. |
| Render.SsgNoteTiming | soundplayer.cpp:496-546 | A special action is scheduled at its gate; other markers only write registers; other notes mix all their frames. |
| Render.SsgRenderKeeps | soundplayer.cpp:496-546 | The SSG branch leaves the timbre and the LFO alone. |
| Render.FmRenderFrames | soundplayer.cpp:410-493 | The FM note loop only appends to the log and advances by the frames of its notes, mixing inside them. |
| Render.SsgRenderFrames | soundplayer.cpp:496-546 | The SSG note loop does the same and schedules the notes' special actions in order. |
| Render.FramesBound | soundplayer.cpp:451-458 | The frames of a list of notes fit in the samples its seconds hold. |
| Render.WithGatesSumSec | soundplayer.cpp:342-349 | calc_total keeps the total seconds. |
| Render.MergeTiesFit | soundplayer.cpp:317-340 | Merging ties keeps every note's seconds and quantity in range, and every tone index valid. |
| Render.RenderedNotesFacts | soundplayer.cpp:390-391 | The notes realize renders keep the ranges and the total seconds. |
| Render.BufferSize | soundplayer.cpp:402-407 | The buffer holds (goal+1)*44100*2 samples, rounded to an even count. |
| Render.RealizeFitsBuffer | soundplayer.cpp:388-549 | Every frame realize mixes lies inside the buffer it allocates; the SSG branch schedules the rendered notes' special actions in order, and the FM branch none. |
| Render.FmNoteShift | soundplayer.cpp:410-493 | An FM note renders the same whatever the log before it. |
| Render.SsgNoteShift | soundplayer.cpp:496-546 | An SSG note renders the same whatever the log before it. |
| Render.Chip.Emit | soundplayer.cpp:402-547 | The abstract chip appends one event. |
| Render.MixChunks | soundplayer.cpp:460-477 | The while loop emits the specified chunks and advances by n frames. |
| Render.MixChunk | soundplayer.cpp:461-476 | One LFO-interval chunk: it takes at most the remaining samples, never none, and the events logged plus the chunks still to come remain the whole specified output. |
| Render.MixPass | soundplayer.cpp:460-477 | One pass emits its events and steps the LFO when keyed. |
| Render.FmNoteStep | soundplayer.cpp:410-493 | The FM loop body does what one FM note specifies. |
| Render.FmSoundStep | soundplayer.cpp:444-493 | A sounding FM note emits the specified events. |
| Render.KeyOnStep | soundplayer.cpp:444-450 | The key-on half emits its events and runs init_for_keyon. |
| Render.TailStep | soundplayer.cpp:478-493 | The clock, key off and the tail, as specified. |
| Render.SsgNoteStep | soundplayer.cpp:496-546 | The SSG loop body does what one SSG note specifies. |
| Render.SsgSoundStep | soundplayer.cpp:524-546 | A sounding SSG note logs its key on (unless it is a rest), its sounding mix and count, its key off (unless it is a special rest) and its tail mix and count, and advances the sample index by the sounding and tail sample counts. |
| Render.RenderFmNotes | soundplayer.cpp:410-493 | The FM note loop emits what the FM render specifies. |
| Render.RenderSsgNotes | soundplayer.cpp:496-546 | The SSG note loop emits what the SSG render specifies. |
| Render.Prepare | soundplayer.cpp:390-391 | calc_total then rescan_notes: gated and merged notes, and the goal is the total seconds. |
| Render.Realize | soundplayer.cpp:388-549 | realize leaves the rendered notes and the goal, returns the buffer size, and emits what the render specifies. |
| Wav.Le32 | soundplayer.cpp:574-578 | A uint32 store writes four bytes. |
| Wav.Le16 | soundplayer.cpp:641-645 | A sample store writes two bytes. |
| Wav.Le32RoundTrip | soundplayer.cpp:574-578 | A uint32 store reads back as the value mod 2^32. |
| Wav.Le16RoundTrip | soundplayer.cpp:641-645 | A sample reads back, as a signed value, as itself. |
| Wav.Store32 | soundplayer.cpp:574-578 | Writes the four bytes at the offset and changes no other byte. |
| Wav.ReadStored | soundplayer.cpp:574-578 | A stored field reads back as the value mod 2^32. |
| Wav.HeaderKeepsTemplate | soundplayer.cpp:557-580 | Only the four stored fields differ from the template. |
| Wav.HeaderStoredFields | soundplayer.cpp:574-578 | Offsets 4, 24, 28 and 40 read back data_size+36, 2*sample_rate, clock and data_size. |
| Wav.TemplateFixedFields | soundplayer.cpp:557-573 | The template has the RIFF/WAVE tags, a 16-byte PCM `fmt ` chunk, one channel, 16 bits and the `data` tag. |
| Wav.FixedFieldsKept | soundplayer.cpp:557-580 | A header that agrees with the template outside the stored fields has the fixed fields. |
| Wav.WavHeaderFields | soundplayer.cpp:557-580 | The header is 44 bytes of a mono 16-bit PCM RIFF/WAVE header, with data+36 at offset 4, 2*rate at 24, the clock at 28 and the data size at 40. |
| Wav.PlayerHeaderRates | soundplayer.cpp:640 | With the player's constants, offset 24 reads 88200 and offset 28 reads 8000000. |
| Wav.Clip | soundplayer.cpp:621-625 | A sum is clamped to [-32768, 32767] and kept as is inside that range. |
| Wav.LongestLength | soundplayer.cpp:606-610 | The length of the longest buffer: no buffer is longer, and one reaches it. |
| Wav.Mixed | soundplayer.cpp:612-630 | As long as the longest buffer; each sample is the clipped sum of the buffers that reach that index. |
| Wav.MixOne | soundplayer.cpp:612-630 | One buffer mixes to itself. |
| Wav.MixSwap | soundplayer.cpp:612-630 | The order of the buffers does not matter. |
| Wav.MixSilence | soundplayer.cpp:612-630 | A silent buffer adds nothing to any sample. |
| Wav.MixBuffers | soundplayer.cpp:606-630 | The loops of save_as_wav compute exactly the mix. |
| Wav.SampleSum | soundplayer.cpp:616-620 | The inner loop adds, at one sample index, the sample of every buffer long enough to hold it and nothing from the shorter ones. |
| Wav.SampleBytes | soundplayer.cpp:641-645 | Each sample's two bytes, in order. |
| Wav.SaveAsWav | soundplayer.cpp:591-650 | Fails exactly when the file cannot be opened; otherwise writes the header for the mixed data, then the data. |
| Wav.ReadAfterAppend | soundplayer.cpp:640-645 | Data appended after the header leaves the header's fields readable. |
| Wav.WavFileLayout | soundplayer.cpp:591-650 | The file is 44 header bytes announcing exactly the data that follows, whose every sample reads back as the clipped mix. |
| Player.IdsAtMissing | soundplayer.cpp:279-282 | A gate absent from the map has no ids. |
| Player.GatesCons | soundplayer.cpp:279-282 | The gates of a map are its first gate and those of the rest. |
| Player.InsertGates | soundplayer.cpp:279-282 | Inserting adds the gate to the map's keys. |
| Player.InsertAscending | soundplayer.cpp:279-282 | Inserting keeps the keys strictly ascending. |
| Player.InsertIds | soundplayer.cpp:279-282 | Inserting appends the id to the vector of its gate and to no other. |
| Player.InsertFlatten | soundplayer.cpp:279-282 | Inserting adds exactly one id to the map's contents. |
| Player.InsertFacts | soundplayer.cpp:279-282 | Inserting keeps the keys ascending, adds the gate, appends the id at its gate and adds it once. |
| Player.GroupByGateFacts | soundplayer.cpp:279-289 | The groups iterate the gates in ascending order, one per distinct gate; each holds the ids scheduled at its gate in schedule order; together they hold every id exactly once. |
| Player.GroupActions | soundplayer.cpp:279-282 | The loop builds exactly the specified grouping. |
| Player.WaitMs | soundplayer.cpp:292 | The wait is a 32-bit millisecond count. |
| Player.WaitWholeSeconds | soundplayer.cpp:292 | For gaps of a few days at most, the wait is the whole seconds of the gap, in milliseconds. |
| Player.Waits | soundplayer.cpp:287-311 | One wait per group. |
| Player.FiredCount | soundplayer.cpp:292-295 | Groups are fired up to the first wait that a stop ends. |
| Player.FlattenSnoc | soundplayer.cpp:287-311 | One more group adds its ids at the end. |
| Player.WaitsSnoc | soundplayer.cpp:287-311 | One more group adds the wait from the previous gate. |
| Player.Dispatch | soundplayer.cpp:804-811 | The registered, non-null function is called exactly when there is one; otherwise the default. |
| Player.DispatchAll | soundplayer.cpp:298-306 | One call per id, in order. |
| Player.RegisterThenDispatch | soundplayer.cpp:799-811 | A registration decides the dispatch of its id and of no other. |
| Player.GoalIsMax | soundplayer.cpp:687-695 | A block's goal is at least every phrase's goal and is 0 or one of them. |
| Player.BlockGoal | soundplayer.cpp:687-695 | The goal loop computes Goal: the largest goal of the block's phrases, or 0 when there is none. |
| Player.GoalWaitMs | soundplayer.cpp:704 | `uint32_t(goal * 1000)`: a 32-bit unsigned number of milliseconds. |
| Player.GoalWaitsAt | soundplayer.cpp:704 | The i-th goal wait is the wait for block i's goal. |
| Player.GoalWaitWholeMs | soundplayer.cpp:704 | For goals below 2^32 ms the wait is the goal's whole milliseconds, short of it by less than one. |
| Player.BlockFiredWithoutStop | soundplayer.cpp:697-703 | With no stop, playing a block performs as many actions as its phrases schedule. |
| Player.DrainedWithoutStop | soundplayer.cpp:671-737 | With no stop, draining performs as many actions as all played blocks schedule. |
| Player.SoundPlayer.constructor | soundplayer.h:237-263 | Not playing, no queued blocks, no registered actions. |
| Player.SoundPlayer.Play | soundplayer.cpp:652-669 | The block joins the back of the queue; a consumer starts only when none is playing. |
| Player.SoundPlayer.NextBlock | soundplayer.cpp:676-685 | The front block leaves the queue; an empty queue stops playing. |
| Player.SoundPlayer.Drain | soundplayer.cpp:671-737 | The consumer plays the queued blocks in FIFO order and stops; per block it waits the goal's milliseconds, the calls are those of execute_special_actions for every phrase of every block, in order, and the registered functions are unchanged. |
| Player.SoundPlayer.PlayBlock | soundplayer.cpp:697-703 | The phrase loop of one block appends the dispatches of each present phrase's fired actions, in channel order. |
| Player.SoundPlayer.Turn | soundplayer.cpp:674-704 | One turn: the front block leaves the queue and is played, or an empty queue stops the player. |
| Player.SoundPlayer.PlayQueued | soundplayer.cpp:687-704 | The goal is taken, the phrases are played, and the goal wait is appended. |
| Player.SoundPlayer.PlayPhrase | soundplayer.cpp:698-702 | A present phrase's execute_special_actions appends the dispatches of its fired actions; an absent one does nothing. |
| Player.SoundPlayer.Stop | soundplayer.cpp:740-751 | Not playing, and the queue is empty. |
| Player.SoundPlayer.RegisterSpecialAction | soundplayer.cpp:799-802 | Only the action's entry changes. |
| Player.SoundPlayer.DoSpecialAction | soundplayer.cpp:804-811 | Records the dispatch; an unknown id gains a null entry, which changes no dispatch. |
| Player.SoundPlayer.DoSpecialActions | soundplayer.cpp:298-306 | The ids of a group are dispatched in order. |
| Player.SoundPlayer.ExecuteSpecialActions | soundplayer.cpp:259-315 | The groups fire in ascending gate order until a wait is ended by a stop; the remaining count drops by each fired group's size; the waits are those of the gate gaps. |
| Player.SoundPlayer.FireGroups | soundplayer.cpp:287-311 | The loop over the groups, as specified. |
| Player.SoundPlayer.FireOne | soundplayer.cpp:298-306 | One group's actions are appended to the calls. |
| Player.DispatchAppend | soundplayer.cpp:298-306 | Dispatching a concatenation is dispatching each part. |
| Player.AllFiredWithoutStop | soundplayer.cpp:259-315 | When no wait is ended by a stop, every scheduled action is performed exactly once and none remains. |
| Player.ActionIdsLength | soundplayer.cpp:279-282 | One id per scheduled action. |

## Left out

- Threads, OpenAL buffers and sources, `Sleep`, `play_async` and the asynchronous sound map that `stop` clears: their point is concurrency or audio output. The consumer thread of `play` is modelled as a method run to its end (`Drain`), and the detached threads that run actions as direct calls, so a stop cannot interleave with them.
- The polling of `m_remaining_actions` by callers, and concurrency between the group threads: not modelled.
- `wait_for_stop` and the stopping event: an oracle sequence (`awake`) says whether each wait ran to its end. The `m_stopping_event.pulse()` calls are not modelled.
- The chip emulator (OPNA `Mix`, `Count`, `SetReg`, `Reset`): an append-only event log. Sample values are not modelled.
- Floating-point rounding: lengths and seconds are reals, and sample counts are floors of real products.
- The float magnitudes of the LFO adjustments (`m_adj_p`, `m_adj_v`) and the `rand()` sample-and-hold values: only the integer phase/count machine is modelled.
- The byte-level `memcpy` of a setting into and out of the blob: the blob carries its size and the setting it images.
- Printing: the circular-reference message and the default message of `do_special_action`.
- Wrap-around of the int32 sum in the mixing loop: sums are unbounded integers before clipping.
- The character predicates `vsk_isblank`, `vsk_isdigit` and `vsk_toupper`, the tone table `ym2203_tone_table` and `NUM_TONES`, the `OPERATOR_n` and `ALGORITHM_n` constants, and the default timbre are not part of this model. They are ASCII predicates, parameters, or taken as OPERATOR_1..4 = 0..3 and ALGORITHM_n = n.
- `vsk_eval_cmd_play_text` is not part of this model: PLAY parameters are evaluated with atoi, as `vsk_eval_text` does.
- The `stereo` flag: the soundplayer.cpp definitions shown do not take it.
- Player.SoundPlayer.Drain: the `alSourcePlay` calls, the wait for the goal's milliseconds on the stopping event, the polling of the remaining actions and the wait for the sources to stop are not modelled; the wait asked for is stated (`goalWaits`), and the waits and remaining counts of each phrase are stated by ExecuteSpecialActions but not collected by Drain.
- Integer width: `std::atoi` returns an `int`, and its overflow is not modelled. Ast.Atoi is unbounded, so a parameter out of the `int` range (`T4294967416`, which glibc reads as 120) is rejected by the model's range checks where the source may accept its wrapped value.
- Render.BufferSize: the `uint32_t` cast of the buffer size (soundplayer.cpp:402) is not wrapped; the size is an unbounded integer.
- Zero tempos: the PLAY entry points (PlayBuilder.ChannelStep, PlayChannels, BuildChannel, PlayChannel, SoundCmdPlay, PlayAndCollect, SoundCmdPlaySave) require `AllTempos`, that every stored setting has a non-zero tempo. `SetSetting` can store a blob with tempo 0 (cmd_play.cpp:44-59); a note built from it reaches `get_sec`'s `assert(tempo != 0)` (soundplayer.cpp:182), or a division by zero in a release build. That state is outside the model.
- PLAY items that reach the builder's `default: assert(0)` (`Z`, and a `{` or `}` left unmatched by the tuplet pass) are ignored, as in a release build.
- The file write of `save_as_wav` and of the `_save` commands: an oracle says whether the file opens.
- Everything in main.cpp except the two expanders, server/, cmd_sing.cpp and the historical fmgon/soundplayer.h.
- Render.FmNote: its own contract states only that the schedule is unchanged; its timing is stated by Render.FmNoteTiming.
- Render.SsgNote: its own contract states only that the timbre and the LFO are unchanged; its timing is stated by Render.SsgNoteTiming.
- PlayBuilder.BuildPlay: its own contract states only that the tempo stays non-zero; what building does is stated by the PlayBuilder lemmas.
