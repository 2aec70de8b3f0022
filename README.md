# Morse code tone scheduler

A model of the `Morse` object of the simple Morse code game (`morse.js`). The object
turns a text into a timeline of tone switches. It looks up each character, lower-cased,
in a fixed code table of dots (`.`) and dashes (`_`). Each dot or dash becomes a pair
of timeouts, tone on then tone off, placed after a running cursor, the message
`length`. Every character is followed by a 2-unit letter gap, and the playback ends
with one timeout that resets the object at the total length. `stop` and `reset` cancel
every pending timeout, zero the cursor and silence the tone.

The unit (`speed`) is 60 ms: `1000 * 60 / (wpm * 50)` at 20 words per minute, the
50-units-per-word rate. Inside a character the timing follows International Morse
element timing. A dot sounds for 1 unit and a dash for 3. Each element is followed by
1 silent unit, counted as the lead-in before the next element's tone. The 2-unit
letter gap plus that 1-unit lead-in gives the standard 3 units between letters.

Three modules:

- `MorseTable` (`morse_table.dfy`): the code table as `Lookup`, with an explicit
  not-found outcome, and the lower-casing applied before each lookup.
- `MorseTimeline` (`morse_timeline.dfy`): the `Event` and `Action` datatypes and the
  specification functions. Each level (element, code, sequence of letter codes, text)
  has an `End` function, the cursor after it, and an `Events` function, what it
  schedules. `Timeline(speed, text)` is what `play` leaves pending. The lemmas state
  the timing properties.
- `MorsePlayer` (`morse_player.dfy`): the class `Morse`. It has `const` fields `wpm`
  and `speed`, and mutable fields `length`, `timeouts` (a `seq<Event>`) and `toneOn`
  (the amplifier gain reduced to a boolean). Its methods follow the source step by step
  and are proved against the specification functions. A few client methods at the end
  each build a new object, call its methods in a given order, and state the result of
  that scenario in their `ensures`.

Where the code differs from standard Morse timing or from its own comments, the model
follows the code:

- A space, or a character missing from the table, still costs the 2-unit letter gap,
  because `play` calls `playLetterGap` after every character (morse.js:177-180). Such
  characters could be expected to advance nothing. As a result the silence
  between two words is 5 units, not the 7 units of a standard word space (`WordSpace`).
- The doc comments of `playLine` (morse.js:121-124) and `playLetterGap`
  (morse.js:137-140) both say "plays a dot". The code plays a dash (3 units of tone,
  `PlayLine`) and a 2-unit silence (`PlayLetterGap`) respectively.

The playback ends with the reset timeout, scheduled at the total length after the last
tone-off (`TimelineShape`).

## Model

| member | source | states |
|---|---|---|
| MorseTable.ToLower | morse.js:156 | lower-cases A–Z onto a–z and the Kelvin sign U+212A onto 'k', leaves every other character alone, and never returns an upper-case letter or the Kelvin sign |
| MorseTable.Lookup | morse.js:43-65 | the table is keyed by lower-case characters: every letter and digit is present, no upper-case letter is, the space maps to " ", and every other entry is a non-empty code of dots and dashes |
| MorsePlayer.Morse.constructor | morse.js:15-36 | a new object has wpm 20, a 60 ms unit, length 0, nothing pending and the tone off |
| MorsePlayer.Morse.StartGenerator | morse.js:79-81 | the tone is on afterwards |
| MorsePlayer.Morse.StopGenerator | morse.js:83-85 | the tone is off afterwards |
| MorsePlayer.Morse.PlayDot | morse.js:91-101 | appends tone-on at length+speed and tone-off at length+2·speed, advances length by 2·speed, and keeps pending timeouts ordered and no later than the cursor |
| MorsePlayer.Morse.PlayLine | morse.js:125-135 | appends tone-on at length+speed and tone-off at length+4·speed (3 units of tone), advances length by 4·speed, and keeps the invariant |
| MorsePlayer.Morse.PlayElement | morse.js:108-119 | '.' plays a dot, '_' a dash, and any other element changes neither the timeouts nor the length |
| MorsePlayer.Morse.PlayLetterGap | morse.js:141-144 | advances length by 2 units and schedules nothing |
| MorsePlayer.Morse.PlayLetter | morse.js:151-166 | appends exactly the events of the lower-cased letter's code, in order; an argument that is not one character, or a character not in the table, changes nothing; length advances by speed times the code's units |
| MorsePlayer.Morse.Play | morse.js:173-185 | resets first, then leaves exactly `Timeline(speed, text)` pending: this text's element events and one final reset at the total length, which equals speed × the text's units; the tone is off |
| MorsePlayer.Morse.Stop | morse.js:191-198 | from any valid state, leaves no timeout pending, length 0 and the tone off |
| MorsePlayer.Morse.Reset | morse.js:203-205 | same as stop |
| MorsePlayer.PlayOneDot | morse.js:173-185 | at 20 wpm, play("e") leaves on at 60 ms, off at 120 ms and the reset at 240 ms pending, and length is 240 |
| MorsePlayer.PlayRestarts | morse.js:173-174 | a second play while the first is pending leaves only the second text's timeline |
| MorsePlayer.StopTwice | morse.js:191-198 | after stop nothing is pending, length is 0 and the tone is off, even if it was sounding; a second stop leaves the same pending list, length and tone |
| MorsePlayer.PlayIgnoresCase | morse.js:156-161 | playing a text and playing its lower-cased form leave the same timeouts pending |
| MorseTimeline.CodeShape | morse.js:91-135 | with a positive unit, a code's events have strictly increasing offsets, alternate on/off, and lie after the start cursor and no later than the end cursor |
| MorseTimeline.CodesShape | morse.js:177-180 | the same for a sequence of letters, and every event comes at least the 2-unit letter gap before the end cursor |
| MorseTimeline.TimelineShape | morse.js:173-185 | with a positive unit, a timeline's offsets strictly increase, its actions run on, off, on, off, …, its length is odd, and its last event is the reset at the total length |
| MorseTimeline.EmptyTimeline | morse.js:182-184 | the empty text schedules only the reset, at offset 0 |
| MorseTimeline.CodeDuration | morse.js:91-135 | a code moves the cursor by exactly speed × its units |
| MorseTimeline.CodesDuration | morse.js:177-180 | a sequence of letters moves the cursor by exactly speed × (its codes' units + 2 per letter) |
| MorseTimeline.CodeUnitsCount | morse.js:91-135 | a code's units are 2 per dot plus 4 per dash, whatever else it holds |
| MorseTimeline.CodeEventsCount | morse.js:91-135 | a code schedules exactly two events per dot or dash |
| MorseTimeline.CodesCount | morse.js:177-180 | a sequence of letters lasts 2 units per dot, 4 per dash and 2 per letter, and schedules two events per dot or dash |
| MorseTimeline.TimelineDuration | morse.js:173-185 | the reset comes at speed × (2 per dot + 4 per dash of the codes played + 2 per character, found or not), and the timeline holds two events per dot or dash plus the reset |
| MorseTimeline.TimelineCaseInsensitive | morse.js:156-161 | a text and its lower-cased form have the same timeline |
| MorseTimeline.KelvinSignPlaysK | morse.js:156-161 | the Kelvin sign is looked up as 'k', so it plays dash, dot, dash, and its timeline is that of "k" |
| MorseTimeline.SkippedLetterIsSilent | morse.js:151-160 | a letter that is not one character, is not in the table, or is the space schedules nothing and does not move the cursor |
| MorseTimeline.CodesAppend | morse.js:177-180 | two sequences of letters played in turn give the first's events followed by the second's, played from where the first ends |
| MorseTimeline.TextStep | morse.js:177-180 | one more character adds its letter's events at the current cursor, then moves the cursor past them and 2 more units |
| MorseTimeline.TextAppend | morse.js:177-180 | a concatenated text plays its first part, then its second part starting from the first part's end |
| MorseTimeline.SilentCharacter | morse.js:177-180 | a space or a character missing from the table adds no events but moves the cursor by exactly the 2-unit letter gap |
| MorseTimeline.WorkedExample | morse.js:173-185 | at 60 ms per unit, "e" gives on at 60, off at 120 and the reset at 240 |
| MorseTimeline.WordSpace | morse.js:177-180 | in "e e" the tone is off from 2 to 7 units: 5 silent units between the words |

## Left out

- The AudioContext, oscillator and gain graph, the 700 Hz frequency and the 0.7 gain
  (morse.js:20-24, 67-85) are foreign audio calls. The generator is the boolean
  `toneOn`, which `StartGenerator` and `StopGenerator` set.
- The callbacks that `setTimeout` fires later are not run. The timer is concurrent
  with the caller. Scheduling is appending an `Event(offset, action)` to `timeouts`,
  and the model says nothing about what happens when a timeout fires.
- MorsePlayer.Morse.Stop: each handle's `clearTimeout` call is not modelled one by
  one. Cancelling is dropping the whole list, which is what `this.timeouts = []` leaves.
- The unit is a JavaScript number computed by division. At 20 wpm it is exactly 60, so
  the model uses integer division. `wpm` is never changed after construction in the
  source, so `wpm` and `speed` are `const`. The specification functions and lemmas take
  any positive integer unit.
- The `console.log` diagnostics for a bad letter (morse.js:153, 158) are output only.
  The model keeps their effect, an early return.
- MorseTable.ToLower: maps only A–Z and the Kelvin sign U+212A, the one other
  character whose lower-case form is a table key ('k'). JavaScript's `toLowerCase`
  also maps other characters, such as 'À' to 'à' or 'İ' to two characters, but none
  of those results is a table key. Such a character is skipped either way, so its
  timeline is the same, but the model's `ToLower` returns it unchanged.
- A character outside the Basic Multilingual Plane, such as U+1F600, is two UTF-16
  code units in the source, because `String(text).split('')` splits by code unit
  (morse.js:175). Each unit is looked up, missed and given a letter gap, so the
  character costs 4 silent units: the timeline of U+1F600 alone resets at 4 units
  (240 ms). The model's text is a sequence of Unicode scalar values, so the character
  costs 2 units and resets at 120 ms. Lone surrogates cannot be Dafny characters.
  Texts within the Basic Multilingual Plane are walked one character at a time in
  order, as `for...in` walks the array.
