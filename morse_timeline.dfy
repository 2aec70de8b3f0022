/**
 * The timeline a text is turned into: every dot or dash element becomes a tone-on
 * event one unit after the cursor and a tone-off event 1 (dot) or 3 (dash) units
 * later, every character is followed by a 2-unit letter gap, and the playback ends
 * with a reset event at the total length. Offsets are absolute milliseconds from the
 * start of playback; `speed` is the length of one unit in milliseconds.
 *
 * Each level has an "End" function (where the cursor stands afterwards, advanced by
 * additions as the generator does) and an "Events" function (what it schedules); the
 * "Units" functions count the same advance in units, and the lemmas tie the two.
 */
module MorseTimeline {
  import opened MorseTable

  /** What a scheduled timeout does when it fires. */
  datatype Action = ToneOn | ToneOff | Reset

  /** A pending timeout: the offset it was scheduled at and what it does. */
  datatype Event = Event(offset: int, action: Action)

  /** Gap units added after every character of a text, whatever the character. */
  const LetterGap: nat := 2

  // ---------------------------------------------------------------- elements

  /** Units of cursor advance for one element: a dot is 1 on + 1 off, a dash 3 on + 1 off. */
  function ElementUnits(e: char): nat {
    match e
    case '.' => 2
    case '_' => 4
    case _ => 0
  }

  /** Where the cursor stands after one element played from `start`. */
  function ElementEnd(start: int, speed: int, e: char): int {
    match e
    case '.' => start + 2 * speed
    case '_' => start + 4 * speed
    case _ => start
  }

  /** The events one element schedules when the cursor is at `start`. */
  function ElementEvents(start: int, speed: int, e: char): seq<Event> {
    match e
    case '.' => [Event(start + speed, ToneOn), Event(start + 2 * speed, ToneOff)]
    case '_' => [Event(start + speed, ToneOn), Event(start + 4 * speed, ToneOff)]
    case _ => []
  }

  // ------------------------------------------------------------------- codes

  function CodeUnits(code: string): nat {
    if code == [] then 0
    else CodeUnits(code[..|code| - 1]) + ElementUnits(code[|code| - 1])
  }

  function CodeEnd(start: int, speed: int, code: string): int {
    if code == [] then start
    else ElementEnd(CodeEnd(start, speed, code[..|code| - 1]), speed, code[|code| - 1])
  }

  /** The events of a code's elements, in order, starting with the cursor at `start`. */
  function CodeEvents(start: int, speed: int, code: string): seq<Event> {
    if code == [] then []
    else
      var init := code[..|code| - 1];
      CodeEvents(start, speed, init) + ElementEvents(CodeEnd(start, speed, init), speed, code[|code| - 1])
  }

  // ----------------------------------------------------------------- letters

  /**
   * The code a letter plays: its table entry after lower-casing, or None when the
   * argument is not exactly one character or the character is not in the table.
   */
  function LetterCode(letter: string): Option<string> {
    if |letter| != 1 then None else Lookup(ToLower(letter[0]))
  }

  /** The elements a letter plays; nothing when it is skipped. */
  function Elements(letter: string): string {
    match LetterCode(letter)
    case None => ""
    case Some(code) => code
  }

  function LetterUnits(letter: string): nat {
    CodeUnits(Elements(letter))
  }

  function LetterEnd(start: int, speed: int, letter: string): int {
    CodeEnd(start, speed, Elements(letter))
  }

  function LetterEvents(start: int, speed: int, letter: string): seq<Event> {
    CodeEvents(start, speed, Elements(letter))
  }

  // ------------------------------------------------------------------- texts

  /** The codes a text plays, one per character (empty for a skipped character). */
  function Letters(text: string): (codes: seq<string>)
    ensures |codes| == |text|
  {
    seq(|text|, k requires 0 <= k < |text| => Elements([text[k]]))
  }

  /** Units of a sequence of letter codes: each code's elements, then the letter gap. */
  function CodesUnits(codes: seq<string>): nat {
    if codes == [] then 0
    else CodesUnits(codes[..|codes| - 1]) + CodeUnits(codes[|codes| - 1]) + LetterGap
  }

  /** Where the cursor stands after a sequence of letter codes, each followed by the 2-unit gap. */
  function CodesEnd(start: int, speed: int, codes: seq<string>): int {
    if codes == [] then start
    else CodeEnd(CodesEnd(start, speed, codes[..|codes| - 1]), speed, codes[|codes| - 1]) + LetterGap * speed
  }

  /** The element events of a sequence of letter codes, the cursor starting at `start`. */
  function CodesEvents(start: int, speed: int, codes: seq<string>): seq<Event> {
    if codes == [] then []
    else
      var init := codes[..|codes| - 1];
      CodesEvents(start, speed, init) + CodeEvents(CodesEnd(start, speed, init), speed, codes[|codes| - 1])
  }

  function TextUnits(text: string): nat {
    CodesUnits(Letters(text))
  }

  function TextEnd(start: int, speed: int, text: string): int {
    CodesEnd(start, speed, Letters(text))
  }

  function TextEvents(start: int, speed: int, text: string): seq<Event> {
    CodesEvents(start, speed, Letters(text))
  }

  /** The full timeline of a playback: the text's events and a final reset at the total length. */
  function Timeline(speed: int, text: string): seq<Event> {
    TextEvents(0, speed, text) + [Event(TextEnd(0, speed, text), Reset)]
  }

  /** The concatenation of a sequence of codes. */
  function Flatten(codes: seq<string>): string {
    if codes == [] then ""
    else Flatten(codes[..|codes| - 1]) + codes[|codes| - 1]
  }

  /** Lower-cases every character of a text. */
  function LowerText(text: string): (r: string)
    ensures |r| == |text|
    ensures forall k :: 0 <= k < |text| ==> r[k] == ToLower(text[k])
  {
    if text == [] then "" else [ToLower(text[0])] + LowerText(text[1..])
  }

  // -------------------------------------------------------------- properties

  /** Offsets strictly increase along the sequence. */
  ghost predicate StrictlyIncreasing(events: seq<Event>) {
    forall i, j :: 0 <= i < j < |events| ==> events[i].offset < events[j].offset
  }

  /** Every offset lies in the half-open window (lo, hi]. */
  ghost predicate Within(events: seq<Event>, lo: int, hi: int) {
    forall i :: 0 <= i < |events| ==> lo < events[i].offset <= hi
  }

  /** Actions alternate on, off, on, off, ..., and the sequence ends with an off. */
  ghost predicate Alternating(events: seq<Event>) {
    |events| % 2 == 0 &&
    forall i :: 0 <= i < |events| ==> events[i].action == (if i % 2 == 0 then ToneOn else ToneOff)
  }

  lemma Distribute(speed: int, x: int, y: int)
    ensures speed * (x + y) == speed * x + speed * y
  {
  }

  lemma WithinWiden(events: seq<Event>, lo: int, hi: int, lo': int, hi': int)
    requires Within(events, lo, hi) && lo' <= lo && hi <= hi'
    ensures Within(events, lo', hi')
  {
  }

  lemma ConcatIncreasing(a: seq<Event>, b: seq<Event>, lo: int, mid: int, hi: int)
    requires lo <= mid <= hi
    requires StrictlyIncreasing(a) && Within(a, lo, mid)
    requires StrictlyIncreasing(b) && Within(b, mid, hi)
    ensures StrictlyIncreasing(a + b) && Within(a + b, lo, hi)
  {
  }

  /** Shifting an index by an even amount keeps its parity. */
  lemma EvenShift(i: int, n: int)
    requires n % 2 == 0
    ensures (i - n) % 2 == i % 2
  {
  }

  lemma ConcatAlternating(a: seq<Event>, b: seq<Event>)
    requires Alternating(a) && Alternating(b)
    ensures Alternating(a + b)
  {
    forall i | 0 <= i < |a| + |b|
      ensures (a + b)[i].action == (if i % 2 == 0 then ToneOn else ToneOff)
    {
      if i >= |a| {
        assert (a + b)[i] == b[i - |a|];
        EvenShift(i, |a|);
      }
    }
  }

  /** A code's events are ordered, alternate, and lie after `start` and no later than its end. */
  lemma {:induction false} CodeShape(start: int, speed: int, code: string)
    requires speed > 0
    ensures start <= CodeEnd(start, speed, code)
    ensures StrictlyIncreasing(CodeEvents(start, speed, code))
    ensures Within(CodeEvents(start, speed, code), start, CodeEnd(start, speed, code))
    ensures Alternating(CodeEvents(start, speed, code))
  {
    if code != [] {
      var init, last := code[..|code| - 1], code[|code| - 1];
      var mid := CodeEnd(start, speed, init);
      CodeShape(start, speed, init);
      ConcatIncreasing(CodeEvents(start, speed, init), ElementEvents(mid, speed, last),
                       start, mid, CodeEnd(start, speed, code));
      ConcatAlternating(CodeEvents(start, speed, init), ElementEvents(mid, speed, last));
    }
  }

  /**
   * The events of a sequence of codes are ordered, alternate, come after `start`, and
   * each leaves room for at least the 2-unit letter gap before the end.
   */
  lemma {:induction false} CodesShape(start: int, speed: int, codes: seq<string>)
    requires speed > 0
    ensures start <= CodesEnd(start, speed, codes)
    ensures StrictlyIncreasing(CodesEvents(start, speed, codes))
    ensures Within(CodesEvents(start, speed, codes), start, CodesEnd(start, speed, codes) - LetterGap * speed)
    ensures Alternating(CodesEvents(start, speed, codes))
  {
    if codes != [] {
      var init, last := codes[..|codes| - 1], codes[|codes| - 1];
      var mid := CodesEnd(start, speed, init);
      CodesShape(start, speed, init);
      CodeShape(mid, speed, last);
      var a, b := CodesEvents(start, speed, init), CodeEvents(mid, speed, last);
      WithinWiden(a, start, mid - LetterGap * speed, start, mid);
      ConcatIncreasing(a, b, start, mid, CodesEnd(start, speed, codes) - LetterGap * speed);
      ConcatAlternating(a, b);
    }
  }

  /** Appending an event later than all others to alternating, ordered events. */
  lemma AppendLast(events: seq<Event>, last: Event)
    requires StrictlyIncreasing(events) && Alternating(events)
    requires forall i :: 0 <= i < |events| ==> events[i].offset < last.offset
    ensures StrictlyIncreasing(events + [last])
    ensures |events + [last]| % 2 == 1
    ensures forall i :: 0 <= i < |events| ==>
              (events + [last])[i].action == (if i % 2 == 0 then ToneOn else ToneOff)
  {
    var t := events + [last];
    forall i | 0 <= i < |events|
      ensures t[i] == events[i]
    {
    }
  }

  /** The events of codes followed by a reset at their end: ordered, alternating, reset last. */
  lemma CodesTimelineShape(speed: int, codes: seq<string>)
    requires speed > 0
    ensures var t := CodesEvents(0, speed, codes) + [Event(CodesEnd(0, speed, codes), Reset)];
      StrictlyIncreasing(t) && |t| % 2 == 1 &&
      (forall i :: 0 <= i < |t| - 1 ==> t[i].action == (if i % 2 == 0 then ToneOn else ToneOff))
  {
    var events, total := CodesEvents(0, speed, codes), CodesEnd(0, speed, codes);
    CodesShape(0, speed, codes);
    AppendLast(events, Event(total, Reset));
  }

  /**
   * With a positive unit, a timeline's offsets strictly increase, its actions run
   * on, off, on, off, ..., and its last event, the reset, comes at the total length.
   */
  lemma TimelineShape(speed: int, text: string)
    requires speed > 0
    ensures StrictlyIncreasing(Timeline(speed, text))
    ensures |Timeline(speed, text)| % 2 == 1
    ensures forall i :: 0 <= i < |Timeline(speed, text)| - 1 ==>
              Timeline(speed, text)[i].action == (if i % 2 == 0 then ToneOn else ToneOff)
    ensures Timeline(speed, text)[|Timeline(speed, text)| - 1] == Event(TextEnd(0, speed, text), Reset)
  {
    CodesTimelineShape(speed, Letters(text));
  }

  /** Playing the empty text schedules only the reset, at offset 0. */
  lemma EmptyTimeline(speed: int)
    ensures Timeline(speed, "") == [Event(0, Reset)]
  {
    assert Letters("") == [];
  }

  /** Playing a code's prefix one element further. */
  lemma CodeStep(start: int, speed: int, code: string, i: int)
    requires 0 <= i < |code|
    ensures CodeEnd(start, speed, code[..i + 1]) == ElementEnd(CodeEnd(start, speed, code[..i]), speed, code[i])
    ensures CodeEvents(start, speed, code[..i + 1]) ==
              CodeEvents(start, speed, code[..i]) + ElementEvents(CodeEnd(start, speed, code[..i]), speed, code[i])
  {
    assert code[..i + 1][..i] == code[..i];
  }

  /** A code moves the cursor by exactly `speed` times its units. */
  lemma {:induction false} CodeDuration(start: int, speed: int, code: string)
    ensures CodeEnd(start, speed, code) == start + speed * CodeUnits(code)
  {
    if code != [] {
      var init := code[..|code| - 1];
      CodeDuration(start, speed, init);
      Distribute(speed, CodeUnits(init), ElementUnits(code[|code| - 1]));
    }
  }

  /** A sequence of letter codes moves the cursor by exactly `speed` times its units. */
  lemma {:induction false} CodesDuration(start: int, speed: int, codes: seq<string>)
    ensures CodesEnd(start, speed, codes) == start + speed * CodesUnits(codes)
  {
    if codes != [] {
      var init, last := codes[..|codes| - 1], codes[|codes| - 1];
      CodesDuration(start, speed, init);
      CodeDuration(CodesEnd(start, speed, init), speed, last);
      Distribute(speed, CodesUnits(init), CodeUnits(last) + LetterGap);
      Distribute(speed, CodeUnits(last), LetterGap);
    }
  }

  /** A code advances 2 units per dot and 4 per dash, whatever else it holds. */
  lemma {:induction false} CodeUnitsCount(code: string)
    ensures CodeUnits(code) == 2 * multiset(code)['.'] + 4 * multiset(code)['_']
  {
    if code != [] {
      var init, last := code[..|code| - 1], code[|code| - 1];
      CodeUnitsCount(init);
      assert multiset(code) == multiset(init) + multiset{last} by {
        assert code == init + [last];
      }
    }
  }

  /** A code schedules exactly two events per dot or dash. */
  lemma {:induction false} CodeEventsCount(start: int, speed: int, code: string)
    ensures |CodeEvents(start, speed, code)| == 2 * (multiset(code)['.'] + multiset(code)['_'])
  {
    if code != [] {
      var init, last := code[..|code| - 1], code[|code| - 1];
      CodeEventsCount(start, speed, init);
      assert |ElementEvents(CodeEnd(start, speed, init), speed, last)| == if last == '.' || last == '_' then 2 else 0;
      assert multiset(code) == multiset(init) + multiset{last} by {
        assert code == init + [last];
      }
    }
  }

  /**
   * A sequence of letter codes lasts 2 units per dot, 4 per dash and 2 units of letter
   * gap per letter, and schedules two events per dot or dash.
   */
  lemma {:induction false} CodesCount(start: int, speed: int, codes: seq<string>)
    ensures CodesUnits(codes) ==
              2 * multiset(Flatten(codes))['.'] + 4 * multiset(Flatten(codes))['_'] + LetterGap * |codes|
    ensures |CodesEvents(start, speed, codes)| ==
              2 * (multiset(Flatten(codes))['.'] + multiset(Flatten(codes))['_'])
  {
    if codes != [] {
      var init, last := codes[..|codes| - 1], codes[|codes| - 1];
      CodesCount(start, speed, init);
      CodeUnitsCount(last);
      CodeEventsCount(CodesEnd(start, speed, init), speed, last);
      assert multiset(Flatten(codes)) == multiset(Flatten(init)) + multiset(last);
    }
  }

  /**
   * The length of a playback and the number of events it schedules: the reset comes at
   * `speed` times (2 per dot + 4 per dash of the codes played + 2 per character, found
   * in the table or not), and there are two events per dot or dash plus the reset.
   */
  lemma TimelineDuration(speed: int, text: string)
    ensures TextEnd(0, speed, text) == speed * TextUnits(text)
    ensures TextUnits(text) ==
              2 * multiset(Flatten(Letters(text)))['.'] + 4 * multiset(Flatten(Letters(text)))['_'] + LetterGap * |text|
    ensures |Timeline(speed, text)| ==
              2 * (multiset(Flatten(Letters(text)))['.'] + multiset(Flatten(Letters(text)))['_']) + 1
  {
    CodesDuration(0, speed, Letters(text));
    CodesCount(0, speed, Letters(text));
  }

  /** Lower-casing is idempotent. */
  lemma LowerIdempotent(c: char)
    ensures ToLower(ToLower(c)) == ToLower(c)
  {
  }

  /** The lookup is case-insensitive: a text and its lower-cased form play the same timeline. */
  lemma TimelineCaseInsensitive(speed: int, text: string)
    ensures Timeline(speed, LowerText(text)) == Timeline(speed, text)
  {
    var lower := LowerText(text);
    forall k | 0 <= k < |text|
      ensures Letters(lower)[k] == Letters(text)[k]
    {
      LowerIdempotent(text[k]);
    }
    assert Letters(lower) == Letters(text);
  }

  /** The Kelvin sign plays as the letter k: dash, dot, dash. */
  lemma KelvinSignPlaysK(speed: int)
    ensures Elements([KelvinSign]) == "_._"
    ensures Timeline(speed, [KelvinSign]) == Timeline(speed, "k")
  {
    assert LowerText([KelvinSign]) == "k";
    TimelineCaseInsensitive(speed, [KelvinSign]);
  }

  /** A letter that is not one character, is missing from the table, or is the space plays nothing. */
  lemma SkippedLetterIsSilent(start: int, speed: int, letter: string)
    requires |letter| != 1 || ToLower(letter[0]) == ' ' || Lookup(ToLower(letter[0])) == None
    ensures Elements(letter) == "" || Elements(letter) == " "
    ensures LetterEvents(start, speed, letter) == []
    ensures LetterEnd(start, speed, letter) == start
    ensures LetterUnits(letter) == 0
  {
    if Elements(letter) == " " {
      assert " "[..0] == "" && " "[0] == ' ';
      assert CodeEvents(start, speed, " ") == CodeEvents(start, speed, "") + ElementEvents(start, speed, ' ');
    }
  }

  /** Letters of a concatenation are the concatenation of the letters. */
  lemma LettersAppend(a: string, b: string)
    ensures Letters(a + b) == Letters(a) + Letters(b)
  {
    forall k | 0 <= k < |a + b|
      ensures Letters(a + b)[k] == (Letters(a) + Letters(b))[k]
    {
      assert [(a + b)[k]] == if k < |a| then [a[k]] else [b[k - |a|]];
    }
  }

  /** The cursor after two code sequences played one after the other. */
  lemma {:induction false} CodesEndAppend(start: int, speed: int, x: seq<string>, y: seq<string>)
    ensures CodesEnd(start, speed, x + y) == CodesEnd(CodesEnd(start, speed, x), speed, y)
  {
    if y == [] {
      assert x + y == x;
    } else {
      var xy := x + y;
      assert xy[..|xy| - 1] == x + y[..|y| - 1] && xy[|xy| - 1] == y[|y| - 1];
      CodesEndAppend(start, speed, x, y[..|y| - 1]);
    }
  }

  /** The last code of a concatenation, and the codes before it. */
  lemma AppendSplit(x: seq<string>, y: seq<string>)
    requires y != []
    ensures (x + y)[..|x + y| - 1] == x + y[..|y| - 1]
    ensures (x + y)[|x + y| - 1] == y[|y| - 1]
  {
  }

  /** Playing two code sequences one after the other: the second starts where the first ends. */
  lemma {:induction false} CodesAppend(start: int, speed: int, x: seq<string>, y: seq<string>)
    ensures CodesEvents(start, speed, x + y) ==
              CodesEvents(start, speed, x) + CodesEvents(CodesEnd(start, speed, x), speed, y)
  {
    if y == [] {
      assert x + y == x;
    } else {
      var init, last := y[..|y| - 1], y[|y| - 1];
      var mid := CodesEnd(start, speed, x);
      var tail := CodeEvents(CodesEnd(mid, speed, init), speed, last);
      AppendSplit(x, y);
      CodesAppend(start, speed, x, init);
      CodesEndAppend(start, speed, x, init);
      assert CodesEvents(start, speed, x) + CodesEvents(mid, speed, init) + tail ==
             CodesEvents(start, speed, x) + (CodesEvents(mid, speed, init) + tail);
    }
  }

  /** Playing one more character: its code's events from the current end, then the letter gap. */
  lemma TextStep(start: int, speed: int, text: string, c: char)
    ensures TextEnd(start, speed, text + [c]) == LetterEnd(TextEnd(start, speed, text), speed, [c]) + LetterGap * speed
    ensures TextEvents(start, speed, text + [c]) ==
              TextEvents(start, speed, text) + LetterEvents(TextEnd(start, speed, text), speed, [c])
  {
    var x, code := Letters(text), Elements([c]);
    LettersAppend(text, [c]);
    assert Letters([c]) == [code];
    assert (x + [code])[..|x|] == x;
  }

  /** `TextStep` for the prefix of a text one character longer than `text[..i]`. */
  lemma TextPrefixStep(start: int, speed: int, text: string, i: int)
    requires 0 <= i < |text|
    ensures TextEnd(start, speed, text[..i + 1]) ==
              LetterEnd(TextEnd(start, speed, text[..i]), speed, [text[i]]) + LetterGap * speed
    ensures TextEvents(start, speed, text[..i + 1]) ==
              TextEvents(start, speed, text[..i]) + LetterEvents(TextEnd(start, speed, text[..i]), speed, [text[i]])
  {
    assert text[..i + 1] == text[..i] + [text[i]];
    TextStep(start, speed, text[..i], text[i]);
  }

  /** Playing two texts one after the other: the second starts where the first ends. */
  lemma TextAppend(start: int, speed: int, a: string, b: string)
    ensures TextEnd(start, speed, a + b) == TextEnd(TextEnd(start, speed, a), speed, b)
    ensures TextEvents(start, speed, a + b) ==
              TextEvents(start, speed, a) + TextEvents(TextEnd(start, speed, a), speed, b)
  {
    LettersAppend(a, b);
    CodesEndAppend(start, speed, Letters(a), Letters(b));
    CodesAppend(start, speed, Letters(a), Letters(b));
  }

  /**
   * A space, or a character missing from the table, plays no tone but still costs the
   * 2-unit letter gap; with TextAppend, whatever follows it is played 2 units later.
   */
  lemma SilentCharacter(start: int, speed: int, a: string, c: char)
    requires ToLower(c) == ' ' || Lookup(ToLower(c)) == None
    ensures TextEnd(start, speed, a + [c]) == TextEnd(start, speed, a) + LetterGap * speed
    ensures TextEvents(start, speed, a + [c]) == TextEvents(start, speed, a)
  {
    var x, code := Letters(a), Elements([c]);
    LettersAppend(a, [c]);
    SkippedLetterIsSilent(TextEnd(start, speed, a), speed, [c]);
    assert Letters([c]) == [code];
    assert (x + [code])[..|x|] == x;
  }

  /** At 20 words per minute a unit is 60 ms, and "e" (one dot) plays on at 60, off at 120, reset at 240. */
  lemma WorkedExample()
    ensures Timeline(60, "e") == [Event(60, ToneOn), Event(120, ToneOff), Event(240, Reset)]
  {
    assert Letters("e") == ["."];
    assert ["."][..0] == [];
    assert "."[..0] == "";
  }

  /**
   * Between two words the silence is 5 units, not the 7 of a standard word space: the
   * dot's trailing unit, its letter gap, the space's own letter gap, and the 1-unit
   * lead-in of the next element.
   */
  lemma WordSpace(speed: int)
    ensures Timeline(speed, "e e") ==
              [Event(speed, ToneOn), Event(2 * speed, ToneOff),
               Event(7 * speed, ToneOn), Event(8 * speed, ToneOff), Event(10 * speed, Reset)]
  {
    var dot := [Event(speed, ToneOn), Event(2 * speed, ToneOff)];
    WordThenSpace(speed);
    PlayE(6 * speed, speed);
    assert "e " + ['e'] == "e e" && ['e'] == "e";
    TextStep(0, speed, "e ", 'e');
    assert TextEvents(0, speed, "e e") == dot + [Event(7 * speed, ToneOn), Event(8 * speed, ToneOff)];
  }

  /** "e" followed by a space: the dot, then 2 units of gap for the "e" and 2 for the space. */
  lemma WordThenSpace(speed: int)
    ensures TextEvents(0, speed, "e ") == [Event(speed, ToneOn), Event(2 * speed, ToneOff)]
    ensures TextEnd(0, speed, "e ") == 6 * speed
  {
    assert "" + ['e'] == "e" && "e" + [' '] == "e " && ['e'] == "e";
    assert Letters("") == [];
    PlayE(0, speed);
    TextStep(0, speed, "", 'e');
    SilentCharacter(0, speed, "e", ' ');
  }

  /** The letter "e" is a single dot: on one unit after the cursor, off one unit later. */
  lemma PlayE(start: int, speed: int)
    ensures LetterEvents(start, speed, "e") == [Event(start + speed, ToneOn), Event(start + 2 * speed, ToneOff)]
    ensures LetterEnd(start, speed, "e") == start + 2 * speed
  {
    assert Elements("e") == ".";
    assert "."[..0] == "" && "."[0] == '.';
    assert CodeEvents(start, speed, ".") == CodeEvents(start, speed, "") + ElementEvents(start, speed, '.');
  }
}
