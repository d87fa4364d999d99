# Drum loop renderer and chart builder, modelled in Dafny

The repository renders a drum loop and writes a rhythm-game chart for it. Both
come from the same schedule: a sequence of 32-bit page words, one page per
second. Bit 31 - j of page i marks slot j (0..31) of that page as active.

- **Audio** (music.cc). `music()` walks the pages and, within a page, the
  slots in ascending order. Each active slot triggers a voice at sample
  `48000 i + 6000 (j div 4)`, chosen from `[kick, hat, tambourine, hat][j mod 4]`.
  Every voice adds its samples into a growable buffer (`Samples`). `dump`
  clamps each sample to [-1, 1], scales it by 32767, truncates it to 16 bits
  and emits it low byte first. The hat and tambourine play an 8192-sample
  band-noise table under the decay (1 - t)^2. The kick plays a
  saturated, enveloped waveform until its envelope 1 - exp(8 (t - 0.5)) is no
  longer positive. The noise tables come from an xorshift random source, an
  FFT, a linear-ramp band-pass mask and an inverse FFT.
- **Chart** (chart.cc). `generate_chart` builds a JSON tree (`JSONObject`)
  through chained `operator[]` assignments that create entries on demand:
  - a header (time base 480 ticks per page, offset, one tempo);
  - one page object per page word (start tick, end tick, scan-line direction);
  - one note object per active slot, numbered in visiting order, with its page,
    tick, lane and fixed flags;
  - an empty event list.
  It then serialises the tree through `StreamIteratorAdaptor`, an output
  iterator that holds back the last character written.

## How the model is organised

| module | file | models |
|---|---|---|
| `Schedule` | schedule.dfy | the page words as a sequence of notes, in visiting order; shared by both halves |
| `SampleBuffer` | samples.dfy | `Samples`: a class over an `array<real>`, proved against the value-level `Store` functions |
| `Pcm` | pcm.dfy | `dump` and the byte layout it produces |
| `Voices` | voices.dfy | `kick`, `hat`, `tambourine`: write loops proved against the run of samples they add; the saturation shaper |
| `BandNoise` | bandnoise.dfy | the xorshift state, the float bit pattern of `rnd`, the fill loop, the band-edge bins and the masking loop |
| `Sequencer` | sequencer.dfy | `music()`: the nested page/slot loop, proved to produce the buffer of the notes played in order |
| `JsonValue` | json.dfy | `JSONObject` as a value: both `operator[]`, chains of them as `Assign` along a path, the serialised text `Stringify` and the reference definition `Join` |
| `Stream` | stream.dfy | `StreamIteratorAdaptor` as a class with the fields `c` and `flushed`; the serialiser writing through it |
| `Chart` | chart.cc's `generate_chart` | in chart.dfy: one method per kind of assignment, the page and note loops, and what a reader of the finished chart finds in it |

Floats are modelled as reals. The transcendental parts are inputs in a
`Voices.Kit`: the two noise tables, the kick's raw waveform per sample, and an
exponential function. The kit only carries the sign facts of `exp` the kick's
stopping rule depends on. The page words are an input `seq<bv32>`. A number's
text in JSON is a parameter `num: real -> string`.

Points where the code behaves differently from what its names and comments
suggest:
- The random source keeps only 19 fraction bits (mask `0x007FFFF`). So `rnd()`
  lies in [1, 1.0625) (`BandNoise.Rnd`). The bit-cast float always lies in
  [1, 2), so `rnd() * 2 - 1` is never below 1. With the mask it lies in
  [1, 1.125) (`BandNoise.Draw`); with a full fraction it would lie in [1, 3).
  A value centred on 0 would need the float minus 1 before the scaling, not a
  wider mask.
- Every non-const `operator[](i)` sets the logical length to i + 1, also below
  the old length. So the rendered length is set by the last note alone
  (`Sequencer.RenderedLength`), and the order of the notes changes it. On the
  page 0x84000000, the hat one beat after the kick ends the output at sample
  14192, so the kick's samples 14192..23999 are not emitted
  (`Sequencer.KickTailCut`). They stay in the allocation: when a later note
  extends the length past them, they are emitted after all
  (`Sequencer.KickTailRestored`, pages 0x84000000 then 0x80000000).
- The band test is inclusive at both ends, but the ramp gives the bottom bin
  gain 0, so of the two edges only the top one passes, at full gain
  (`BandNoise.Amp`, `BandNoise.AmpEdges`).
- Strings are serialised without escaping, so two different trees can give the
  same text (`JsonValue.UnescapedCollision`).

`JSONObject` objects are `std::unordered_map`s, whose iteration order is
unspecified. The model keeps an object as a sequence of members in insertion
order. All its statements about the text of an object hold for that one
order.

## Model

| member | source | states |
|---|---|---|
| `Schedule.Active` | music.cc:204 | a slot is active iff bit 31 - j of its word is set: no slot of an empty word, every slot of a full one, slot 0 iff the word is at least 2^31, slot 31 iff the word is odd |
| `Schedule.PageNotes` | music.cc:203-205 | the notes found among the first n slots of a page are at most n, all on that page and below slot n |
| `Schedule.Notes` | music.cc:202-205 | the schedule has at most 32 notes per page, each on an existing page at one of its 32 slots |
| `Schedule.PageNotesGrow` | music.cc:203-205 | one more slot keeps every note found so far, and adds that slot when it is active |
| `Schedule.PageNotesSound` | music.cc:203-205 | every note found on a page is at a slot whose bit 31 - j is set |
| `Schedule.PageNotesComplete` | music.cc:203-205 | every slot whose bit is set is found as a note of its page |
| `Schedule.PageNotesOrdered` | music.cc:203-205 | the notes of a page come in ascending slot order |
| `Schedule.PageNotesExact` | music.cc:203-205 | a page yields exactly its active slots, in ascending order |
| `Schedule.NotesExact` | music.cc:202-205 | a note is scheduled iff its page exists, its slot is one of 32 and its bit is set; notes come page-major, then slot-ascending |
| `Schedule.PageNotesSkip` | music.cc:203-204 | a stretch of inactive slots adds no note |
| `Schedule.NotesStep` | music.cc:202-205 | one more page adds exactly that page's notes at the end |
| `SampleBuffer.Empty` | music.cc:28-33 | a fresh buffer has length 0 and 65536 zeroed cells |
| `SampleBuffer.Read` | music.cc:60-64 | a const read gives the stored value below the logical length and 0 at or past it |
| `SampleBuffer.Contents` | music.cc:66-79 | the logical contents have the logical length, and entry k is what a const read at k gives |
| `SampleBuffer.Accomodated` | music.cc:40-52 | the allocation grows only when i is past its end, to max(i + 1, 2 real_size); the logical prefix is kept and the new cells are 0; the length becomes i + 1 in every case, so it can shrink |
| `SampleBuffer.Added` | music.cc:54-58 | after `s[i] += x` the length is i + 1 and cell i is allocated |
| `SampleBuffer.AddedRun` | music.cc:178-183 | a run of additions keeps the object invariant size <= real_size |
| `SampleBuffer.AddedRunStep` | music.cc:178-183 | one more addition extends a run by its next sample |
| `SampleBuffer.AddedRunEffect` | music.cc:40-58 | a run at `start` leaves length start + n; it adds its values to exactly the cells it covers; no other cell changes, except cells past the old length when the run starts past the allocation |
| `SampleBuffer.AddedRunReads` | music.cc:40-64 | after a run, reads below both the old length and the start are unchanged; inside the run they give the old content plus the run; past the run they give 0 |
| `SampleBuffer.Samples.constructor` | music.cc:28-33 | the new object's state is `Empty()` over a fresh array |
| `SampleBuffer.Samples.Accomodate` | music.cc:40-52 | the regrowth and copy loop produce exactly `Accomodated` of the old state |
| `SampleBuffer.Samples.Add` | music.cc:54-58 | the non-const `operator[]` followed by `+=` produces exactly `Added` of the old state |
| `SampleBuffer.Samples.Get` | music.cc:60-64 | the const `operator[]` returns `Read` of the object's state |
| `SampleBuffer.Samples.Length` | music.cc:66-69 | `length()` is the length of the logical contents, the number of samples `dump` emits |
| `Pcm.Clamp` | music.cc:75 | the result lies in [-1, 1], equals x inside it and the nearer bound outside |
| `Pcm.TruncateTowardZero` | music.cc:75 | the float-to-int conversion drops the fraction toward zero, for both signs |
| `Pcm.Quantize` | music.cc:75 | the 16-bit value lies in [-32767, 32767], saturates at plus or minus 1, and is within one step of 32767 times the clamped sample, on the zero side |
| `Pcm.Low` | music.cc:76 | the low byte of a 16-bit value is the value itself for 0..255 and the value plus 256 for -128..-1 |
| `Pcm.High` | music.cc:77 | the high byte of a 16-bit value has its top bit set iff the value is negative, and with the low byte it gives the value modulo 65536 |
| `Pcm.Decode16` | music.cc:76-77 | a 16-bit two's-complement reading of two bytes lies in [-32768, 32768) |
| `Pcm.PairRoundTrip` | music.cc:76-77 | the low byte then the high byte rebuild every 16-bit value in two's complement |
| `Pcm.Encode` | music.cc:71-79 | the output has two bytes per sample |
| `Pcm.EncodeLayout` | music.cc:71-79 | the output has two bytes per sample; sample k sits at bytes 2k (low) and 2k + 1 (high) |
| `Pcm.EncodeDecodes` | music.cc:71-79 | a reader recovers, for every sample, exactly the 16-bit value computed for it |
| `Pcm.EncodeSnoc` | music.cc:73-78 | one more sample appends exactly its two bytes |
| `Pcm.EncodeExample` | music.cc:71-79 | 0.5, -1, 0, 1 encode as FF 3F, 01 80, 00 00, FF 7F |
| `Pcm.Dump` | music.cc:71-79 | the loop over the logical length emits exactly the encoding of the buffer's contents |
| `Voices.NoiseSample` | music.cc:180-182 | a noise sample is the table entry attenuated: same sign, never larger in magnitude |
| `Voices.NoiseRun` | music.cc:178-183 | a noise voice adds one sample per table entry, each the entry attenuated |
| `Voices.NoiseEnvelope` | music.cc:180-181 | the decay at sample k is (1 - t)^2 with t = k / 8192, and lies in (0, 1] over the note's 8192 samples |
| `Voices.PlayNoise` | music.cc:178-183 | the write loop adds table[k] times the envelope at st + k, for k = 0..8191 in order |
| `Voices.AddNext` | music.cc:182 | adding the next sample of a run extends the buffer's state by that sample |
| `Voices.Hat` | music.cc:174-184 | `hat` adds the run of the 1000-8000 Hz table at st |
| `Voices.Tambourine` | music.cc:186-196 | `tambourine` adds the run of the 4000-8000 Hz table at st |
| `Voices.KickEnvelope` | music.cc:101-102 | the envelope is positive exactly for the first 24000 samples and is always below 1 |
| `Voices.Saturate` | music.cc:88-100 | the shaper maps 1 to 1 and -1 to -1, is the identity at sat = 0.5, and for sat in [0, 0.5] maps [-1, 1] into [-1, 1] (no clipping) |
| `Voices.SaturateSlopeIsDerivative` | music.cc:98-100 | the stated slope is the derivative of the shaper |
| `Voices.SaturateDesign` | music.cc:98-100 | the shaper maps 1 to 1 with slope 2 sat there, and is odd |
| `Voices.Shaped` | music.cc:103 | an envelope in [0, 1] times a shaped body in [-1, 1] times the gain stays within the gain 0.2 in magnitude |
| `Voices.KickSample` | music.cc:100-103 | with a waveform in [-1, 1], a kick sample never exceeds the gain 0.2 in magnitude |
| `Voices.KickRun` | music.cc:90-104 | the kick adds a sample at offset k iff its envelope at k is positive; every sample with a waveform in [-1, 1] stays within the gain |
| `Voices.Kick` | music.cc:81-105 | the loop adds the first 24000 enveloped, shaped samples at st, in order, and stops at the first non-positive envelope |
| `BandNoise.XorShift` | music.cc:114-116 | the three shift steps give 0 iff the state was 0 |
| `BandNoise.Scramble` | music.cc:117 | the multiplication by the odd constant keeps the lowest bit, so it gives 0 iff the state was 0 |
| `BandNoise.ShiftStep1Nonzero` | music.cc:114 | `state ^= state >> 12` never turns a nonzero state into 0 |
| `BandNoise.ShiftStep2Nonzero` | music.cc:115 | `state ^= state << 25` never turns a nonzero state into 0 |
| `BandNoise.ShiftStep3Nonzero` | music.cc:116 | `state ^= state << 27` never turns a nonzero state into 0 |
| `BandNoise.Pattern` | music.cc:118-119 | the bit pattern is a positive float of exponent 127 whose fraction field is the 19 kept bits; the top four fraction bits are always clear |
| `BandNoise.Value` | music.cc:118-119 | the float the pattern encodes lies in [1, 1.0625) |
| `BandNoise.Rnd` | music.cc:112-120 | one call of `rnd()` lies in [1, 1.0625) |
| `BandNoise.StateAfter` | music.cc:112-120 | from a nonzero seed every later state is nonzero |
| `BandNoise.SeedsNeverZero` | music.cc:176-188 | the hat seed 0x696969 and the tambourine seed 0x420420 never reach the all-zero state, which would make every draw 1 |
| `BandNoise.Draw` | music.cc:129-130 | every value stored before filtering lies in [1, 1.125), not around 0 |
| `BandNoise.FillNoise` | music.cc:129-130 | the fill loop stores the (k + 1)-th draw, mapped by x * 2 - 1, at index k, and threads the state through all 8192 draws |
| `BandNoise.BinOf` | music.cc:121-122 | a frequency's bin is its frequency times 8192 over 48000, rounded down |
| `BandNoise.BandEdges` | music.cc:121-122 | the hat band covers bins 170 to 1365, the tambourine band 682 to 1365 |
| `BandNoise.Fold` | music.cc:138-139 | the folded bin lies in [0, 4096]; bins past 4096 mirror those below |
| `BandNoise.FoldSymmetric` | music.cc:138-139 | bin i and bin 8192 - i fold to the same frequency |
| `BandNoise.Amp` | music.cc:140-142 | the gain lies in [0, 1]; it is 0 outside [lo, hi]; inside, it is the linear ramp (f - lo)/(hi - lo), 0 at lo and 1 at hi |
| `BandNoise.AmpSymmetric` | music.cc:136-145 | a bin and its mirror get the same gain |
| `BandNoise.AmpEdges` | music.cc:140-142 | the top bin of the band passes at full gain; every bin below the band, the constant term included, is removed |
| `BandNoise.Masked` | music.cc:136-145 | masking keeps the length, and a bin becomes 0 iff it was 0 or its gain is 0 |
| `BandNoise.MaskedBand` | music.cc:136-145 | masking removes every bin outside the band and scales those inside by their ramp |
| `BandNoise.MaskedKeepsEven` | music.cc:136-145 | masking keeps an even real part even |
| `BandNoise.MaskedKeepsOdd` | music.cc:136-145 | masking keeps an odd imaginary part odd, so the inverse transform is again real |
| `BandNoise.ApplyBandMask` | music.cc:136-145 | the in-place loop leaves both arrays equal to the masked spectrum |
| `Sequencer.InstrumentOf` | music.cc:201-205 | the slot's position in its beat selects the voice: kick at 0, hat at 1 and 3, tambourine at 2 |
| `Sequencer.StartSample` | music.cc:205 | a note starts within its page's second, at most 42000 samples in |
| `Sequencer.StartSampleIsTriggerTime` | music.cc:205 | the start sample is the trigger time times 48000, exactly |
| `Sequencer.StartSampleMonotone` | music.cc:202-205 | start samples never decrease in visiting order; they are equal exactly for slots of the same beat |
| `Sequencer.InstrumentRun` | music.cc:81-196 | a kick adds 24000 samples, a hat or a tambourine 8192 |
| `Sequencer.Played` | music.cc:205 | playing a note keeps the buffer's invariant |
| `Sequencer.Rendered` | music.cc:198-205 | playing the notes in order keeps the buffer's invariant |
| `Sequencer.RenderedStep` | music.cc:202-205 | playing one more note extends the rendering by that note |
| `Sequencer.RenderedLength` | music.cc:198-206 | the rendered length is set by the last note alone: its start plus its run length |
| `Sequencer.KickHatPage` | music.cc:203-204 | the page word 0x84000000 holds exactly the notes at slots 0 and 5 |
| `Sequencer.KickTailCut` | music.cc:198-206 | for that page, the output is 14192 samples long and the kick's samples 14192..23999 are never emitted |
| `Sequencer.KickOnlyPage` | music.cc:203-204 | the page word 0x80000000 holds only the note at slot 0 |
| `Sequencer.KickHatKickPages` | music.cc:202-205 | the pages 0x84000000, 0x80000000 schedule a kick, a hat one beat later, and a kick on the next page |
| `Sequencer.KickHatKickRuns` | music.cc:40-58 | runs of 24000 at 0, 8192 at 6000 and 24000 at 48000 leave 72000 samples, and samples 14192..23999 read back as the first run wrote them |
| `Sequencer.KickHatKickRendered` | music.cc:198-205 | kick, hat, kick play their runs at samples 0, 6000 and 48000, in that order |
| `Sequencer.KickTailRestored` | music.cc:198-206 | for those pages the output is 72000 samples long and the kick tail 14192..23999 that the hat hid is emitted as the kick wrote it |
| `Sequencer.SlotStep` | music.cc:203-205 | an active slot plays its note; an inactive one leaves the rendering unchanged |
| `Sequencer.Trigger` | music.cc:201-205 | the call through the instrument table plays the note |
| `Sequencer.PlayPage` | music.cc:203-205 | the inner loop over a page's 32 slots plays exactly that page's notes, in slot order |
| `Sequencer.Music` | music.cc:198-207 | the nested loop renders every scheduled note in visiting order, and the bytes are the encoding of that rendering |
| `JsonValue.KeyIndex` | chart.cc:153-155 | the lookup finds the first member with the key, or reports that none has it |
| `JsonValue.AtKey` | chart.cc:150-156 | the object `operator[]` inserts a null value under k only when k is absent, keeps every other entry where it is, and designates k's value |
| `JsonValue.AtIndex` | chart.cc:157-165 | the array `operator[]` grows the array to x + 1 with null elements when it is shorter, keeps earlier elements, and designates element x |
| `JsonValue.GetMember` | chart.cc:150-156 | reading a key gives the value of the first member with that key |
| `JsonValue.GetThroughKey` | chart.cc:150-156 | reading through a key the object holds reads inside that member's value |
| `JsonValue.GetThroughIndex` | chart.cc:157-165 | reading through an index the array holds reads inside that element |
| `JsonValue.Assign` | chart.cc:150-165 | a chained assignment through a key gives an object that keeps every key and adds at most one; through an index it gives an array of length max(n, x + 1) |
| `JsonValue.Get` | chart.cc:150-165 | reading without creating finds a value only through keys the object holds and indices inside the array, and only along a path an assignment can take |
| `JsonValue.AssignGet` | chart.cc:150-165 | after a chained assignment, reading the same path gives the assigned value |
| `JsonValue.AssignElsewhere` | chart.cc:150-165 | a chained assignment leaves every path through a different first step as it was |
| `JsonValue.AssignNewKey` | chart.cc:150-156 | assigning a key the object lacks appends the entry |
| `JsonValue.AssignThroughKey` | chart.cc:150-156 | assigning along a path through an existing key replaces only that member's value |
| `JsonValue.AssignThroughIndex` | chart.cc:157-165 | assigning along a path through an existing index replaces only that element |
| `JsonValue.AssignAppend` | chart.cc:157-165 | assigning at index n of an array of length n appends the value |
| `JsonValue.AssignFieldOfLast` | chart.cc:150-165 | assigning a new field of the last element of a listed array adds that field to that element only |
| `JsonValue.AssignAppendUnder` | chart.cc:150-165 | assigning at index n of an array of length n held under a key appends the value there |
| `JsonValue.AtKeyWellFormed` | chart.cc:150-156 | the object `operator[]` keeps every object's keys distinct, in the result and in the designated value |
| `JsonValue.AtIndexWellFormed` | chart.cc:157-165 | the array `operator[]` keeps every object's keys distinct |
| `JsonValue.ReplaceMemberWellFormed` | chart.cc:150-156 | writing through an existing key keeps the keys distinct |
| `JsonValue.AssignWellFormed` | chart.cc:150-165 | assignments keep every object's keys distinct |
| `JsonValue.Stringify` | chart.cc:74-144 | an array's text starts with `[` and ends with `]`, an object's with `{` and `}`; a string is its characters, unchanged, between two quotes |
| `JsonValue.Elements` | chart.cc:112-124 | nothing is written past the last element, and every element after the first starts with a comma |
| `JsonValue.Members` | chart.cc:125-142 | nothing is written past the last entry, and every entry after the first starts with a comma |
| `JsonValue.Join` | chart.cc:112-142 | the joined text starts with the first part and ends with the last |
| `JsonValue.ElementsJoin` | chart.cc:112-124 | the `nfirst` loop over elements writes the elements' texts with one comma between consecutive ones |
| `JsonValue.MembersJoin` | chart.cc:125-142 | the `nfirst` loop over entries writes the entries' texts with one comma between consecutive ones |
| `JsonValue.ArrayText` | chart.cc:112-124 | an array is its elements' texts, comma separated, inside brackets: no comma before the first or after the last |
| `JsonValue.ObjectText` | chart.cc:125-142 | an object is its `"key":value` entries, comma separated, inside braces |
| `JsonValue.ScalarTexts` | chart.cc:92-142 | null, true and false have their literal texts; a string is its raw characters in quotes; empty containers give `[]` and `{}` |
| `JsonValue.UnescapedSameText` | chart.cc:104-124 | without escaping, for any strings a and b the array of the one string `a","b` and the array of the two strings a and b have the same text |
| `JsonValue.UnescapedCollision` | chart.cc:104-111 | without escaping, two different arrays give the same text |
| `Stream.StreamIteratorAdaptor.constructor` | chart.cc:177-180 | a new adaptor holds nothing back |
| `Stream.StreamIteratorAdaptor.Set` | chart.cc:185-199 | the proxy's assignment holds the character back and sends nothing |
| `Stream.StreamIteratorAdaptor.PreIncrement` | chart.cc:200-206 | prefix `++` hands the held-back character, if any, to the stream and holds nothing back |
| `Stream.StreamIteratorAdaptor.PostIncrement` | chart.cc:207-213 | postfix `++` hands the held-back character, if any, to the stream and marks a 0 character as held back |
| `Stream.StreamIteratorAdaptor.Destroy` | chart.cc:181-184 | the destructor hands a held-back character to the stream |
| `Stream.StreamIteratorAdaptor.Put` | chart.cc:185-213 | `*out++ = ch` sends the previous character and holds ch back, so the written text grows by exactly ch |
| `Stream.PutAll` | chart.cc:92-111 | writing a string character by character adds exactly that string; with no characters nothing changes |
| `Stream.Emit` | chart.cc:180-213 | n writes and a destruction deliver exactly those n characters, in order, and nothing for none |
| `Stream.StringifyTo` | chart.cc:74-144 | the serialiser writes exactly `Stringify` of the tree |
| `Stream.ArrayTo` | chart.cc:112-124 | the array loop writes exactly the array's text |
| `Stream.ObjectTo` | chart.cc:125-142 | the object loop writes exactly the object's text |
| `Stream.ElementsTo` | chart.cc:115-121 | the element loop writes the elements' texts joined by commas |
| `Stream.ElementTo` | chart.cc:118-120 | one pass writes a comma unless it is the first, then the element's text |
| `Stream.MembersTo` | chart.cc:128-139 | the entry loop writes the entries' texts joined by commas |
| `Stream.MemberTo` | chart.cc:131-138 | one pass writes a comma unless it is the first, then the entry's text |
| `Stream.EntryTo` | chart.cc:133-138 | one entry writes its quoted key, a colon and its value's text |
| `Stream.StringifyToStream` | chart.cc:145-149 | through a fresh adaptor that is then destroyed, the stream receives exactly the text of the tree |
| `Chart.EndTick` | chart.cc:270 | a page ends where the next one starts, 480 ticks after its own start |
| `Chart.ScanDirection` | chart.cc:271 | the scan line goes up (1) on even pages and down (-1) on odd ones |
| `Chart.NoteTick` | chart.cc:284 | a note's tick lies on a beat boundary within its page, at most 420 ticks after the page's start |
| `Chart.TickIsTriggerTime` | chart.cc:284 | a note's tick over 480 is exactly its trigger time in the audio (music.cc:205) |
| `Chart.TickMatchesStartSample` | chart.cc:284 | the audio start sample is exactly 100 times the chart tick |
| `Chart.Lane` | chart.cc:285 | a note's lane lies in [0, 1] |
| `Chart.LanesDistinct` | chart.cc:285 | two notes whose slots differ in their place within the beat, or whose pages differ in parity, get different lanes |
| `Chart.Skipped` | chart.cc:279 | the skip test skips every slot of an empty word and none of a full one; slot 0 iff the word is below 2^31, slot 31 iff the word is even |
| `Chart.SkippedIffInactive` | chart.cc:279 | the chart skips a slot exactly when the audio leaves it silent (music.cc:204) |
| `Chart.PageJson` | chart.cc:268-271 | a page object has exactly the keys start_tick, end_tick and scan_line_direction, each once |
| `Chart.NoteJson` | chart.cc:280-289 | a note object has nine fields with distinct keys |
| `Chart.ChartDoc` | chart.cc:256-293 | the chart's keys, in the order written, are time_base, music_offset, tempo_list, page_list, note_list, event_order_list |
| `Chart.PageSlot` | chart.cc:268 | assigning an empty object at the end of the page list starts the next page |
| `Chart.PageField` | chart.cc:269-271 | assigning a new field of the page being written adds it to that page only |
| `Chart.PageFinished` | chart.cc:268-271 | a page with its three fields is the finished page |
| `Chart.NoteSlot` | chart.cc:280 | assigning an empty object at the end of the note list starts the next note |
| `Chart.NoteField` | chart.cc:281-289 | assigning a new field of the note being written adds it to that note only |
| `Chart.NoteFinished` | chart.cc:280-289 | a note with its nine fields is the finished note |
| `Chart.PageListNew` | chart.cc:265 | the empty page list is added after the header |
| `Chart.NoteListNew` | chart.cc:274 | the empty note list is added after the pages |
| `Chart.EventsNew` | chart.cc:293 | the empty event list completes the chart |
| `Chart.AddEvents` | chart.cc:293 | assigning the empty event list after the note list appends it as the last key |
| `Chart.TempoSlot` | chart.cc:262 | assigning an empty object at index 0 of the empty tempo list makes it the single tempo |
| `Chart.TempoField` | chart.cc:263-264 | assigning a new field of the tempo adds it to the tempo only |
| `Chart.SetKey` | chart.cc:259-261 | assigning a key the chart lacks appends it |
| `Chart.NewTempo` | chart.cc:262 | the tempo starts as an empty object |
| `Chart.SetTempoField` | chart.cc:263-264 | each tempo field is added to the tempo |
| `Chart.WriteHead` | chart.cc:258-264 | the header statements produce exactly the header |
| `Chart.NewPage` | chart.cc:268 | each page starts as an empty object at the end of the page list |
| `Chart.SetPageField` | chart.cc:269-271 | each page field is added to the page being written |
| `Chart.WritePage` | chart.cc:268-271 | one pass of the page loop appends exactly page i's object |
| `Chart.WritePages` | chart.cc:265-272 | the page loop produces exactly one object per page, in order |
| `Chart.SetNoteField` | chart.cc:281-289 | each note field is added to the note being written, in order |
| `Chart.NewNote` | chart.cc:280 | each note starts as an empty object at the end of the note list |
| `Chart.SetNotePlacement` | chart.cc:281-285 | the note's id, page, type, tick and lane are its first five fields |
| `Chart.SetNoteFlags` | chart.cc:286-289 | the four fixed flags complete the note |
| `Chart.WriteNote` | chart.cc:280-290 | an active slot appends exactly its note object, numbered by the notes before it |
| `Chart.WritePageNotes` | chart.cc:277-291 | the inner loop appends exactly the notes of page i and counts them |
| `Chart.WriteNotes` | chart.cc:273-292 | the note loops produce exactly one object per scheduled note, in visiting order |
| `Chart.GenerateChart` | chart.cc:256-296 | the builder produces exactly the chart document, and the file receives exactly its text |
| `Chart.PageListWellFormed` | chart.cc:268-271 | every page object has distinct keys |
| `Chart.NoteListWellFormed` | chart.cc:280-289 | every note object has distinct keys |
| `Chart.ChartWellFormed` | chart.cc:256-293 | every object in the chart has distinct keys |
| `Chart.NoteListRead` | chart.cc:274-292 | reading under note_list reads the note list |
| `Chart.PageListRead` | chart.cc:265-272 | reading under page_list reads the page list |
| `Chart.NoteRead` | chart.cc:280-289 | a field of note k is that field of the k-th scheduled note's object |
| `Chart.NoteListEnd` | chart.cc:273-292 | there is no note past the last scheduled one |
| `Chart.NoteJsonReadId` | chart.cc:281-282 | a note's id and page index read back as written |
| `Chart.NoteJsonReadPlace` | chart.cc:284-285 | a note's tick and lane read back as written |
| `Chart.ChartNoteRead` | chart.cc:273-292 | note k of the chart has id k, the page, tick and lane of the k-th scheduled note, and a tick that is its audio start sample over 100; no note follows the last scheduled one |
| `Chart.PageRead` | chart.cc:268-271 | a field of page i is that field of page i's object |
| `Chart.PageJsonRead` | chart.cc:269-271 | a page's fields read back as written |
| `Chart.ChartPageRead` | chart.cc:265-272 | page i of the chart starts at 480 i, ends at 480 i + 480, and scans up on even pages and down on odd ones |
| `Chart.TickOrder` | chart.cc:275-284 | ticks never decrease in visiting order, and rise strictly from page to page |
| `Chart.ChartNotesInTickOrder` | chart.cc:273-292 | the note list is in non-decreasing tick order |

## Left out

- The FFT, its twiddle tables and the final scaling by the band scale (music.cc:123-135, 146-153, 154-171). The noise tables enter as inputs of length 8192; only the mask between the transforms is modelled.
- The kick's waveform (phase sweep, `exp`, `log`, `sin`, music.cc:83-86, 92-97) is a per-sample input. `exp` is an input with the sign facts the stopping rule needs.
- Float rounding everywhere: samples, envelopes, the trigger time `float(i) + float(j/4) / 8.0f` and its product with the sample rate. The start sample is the exact integer 48000 i + 6000 (j div 4). The float computation gives it exactly while 375 (8 i + 7) < 2^24, that is for pages i <= 5591; past that, rounding can move a note's start.
- The double formatting of the JSON number case (chart.cc:79-91) is the parameter `num`. The conversion of the integer fields to doubles is taken as exact.
- `unordered_map` iteration order: objects keep insertion order, as said above. `shared_ptr` sharing between copies is replaced by value semantics.
- Vector capacity and `reserve` in the array `operator[]` (chart.cc:161-162) do not change any value and are not modelled.
- `JSONObject::get` (chart.cc:166-170) is not used by `generate_chart` and is not modelled. The constructors (chart.cc:28-73) are the `Json` datatype's constructors.
- The `assert`s on the node type in both `operator[]` are preconditions (`j.Obj?`, `j.Arr?`) of `AtKey` and `AtIndex`; the chart never violates them.
- In-place reference semantics of chained `operator[]`: each assignment statement of `generate_chart` is a method that maps the chart value before it to the chart value after it.
- I/O: `std::cout.put`, the `ofstream`s and the file names. The stream is the sequence of characters it has received.
- `generate_level_json` (constant metadata and a file write), bg.cc and main.cc.
- notes.hh is not part of this model; the page words are an input.
- 64-bit overflow of buffer indices and of `uint64_t` tick arithmetic: indices are unbounded naturals.
- BandNoise.Amp: requires lo != hi. With equal band edges the source divides zero by zero at the single in-band bin, a NaN that reals cannot represent.
- BandNoise.Masked: requires lo != hi, for the same reason.
