/**
 * The Morse generator object. Its unit length is fixed at construction; `play` walks a
 * text one character at a time, appending a timeout per tone switch and advancing the
 * message length; `stop` and `reset` drop every pending timeout, zero the length and
 * silence the tone. Scheduling a timeout is appending an Event; the oscillator and
 * amplifier are reduced to whether the tone is on.
 */
module MorsePlayer {
  import opened MorseTable
  import opened MorseTimeline

  class Morse {
    /** Words per minute. */
    const wpm: int
    /** Length of one unit in milliseconds, computed once from wpm at 50 units per word. */
    const speed: int
    /** The message length so far, in milliseconds: the cursor new events are placed after. */
    var length: int
    /** The pending timeouts, in the order they were scheduled. */
    var timeouts: seq<Event>
    /** Whether the generator sounds, i.e. the amplifier's gain is up. */
    var toneOn: bool

    /** Pending timeouts are in strictly increasing order and none lies past the cursor. */
    ghost predicate Valid()
      reads this`length, this`timeouts
    {
      speed > 0 && 0 <= length &&
      StrictlyIncreasing(timeouts) &&
      forall i :: 0 <= i < |timeouts| ==> 0 <= timeouts[i].offset <= length
    }

    constructor ()
      ensures Valid()
      ensures wpm == 20 && speed == 60
      ensures length == 0 && timeouts == [] && !toneOn
    {
      var rate := 20;
      wpm := rate;
      speed := 1000 * 60 / (rate * 50);
      length := 0;
      timeouts := [];
      toneOn := false;
    }

    method StartGenerator()
      modifies this`toneOn
      ensures toneOn
    {
      toneOn := true;
    }

    method StopGenerator()
      modifies this`toneOn
      ensures !toneOn
    {
      toneOn := false;
    }

    /** A dot: tone on one unit after the cursor, off one unit later; the cursor moves 2 units. */
    method PlayDot()
      requires Valid()
      modifies this`length, this`timeouts
      ensures Valid()
      ensures timeouts == old(timeouts) + [Event(old(length) + speed, ToneOn), Event(old(length) + 2 * speed, ToneOff)]
      ensures length == old(length) + 2 * speed
    {
      timeouts := timeouts + [Event(length + speed, ToneOn)];
      length := length + speed;
      timeouts := timeouts + [Event(length + speed, ToneOff)];
      length := length + speed;
    }

    /** A dash: tone on one unit after the cursor, off three units later; the cursor moves 4 units. */
    method PlayLine()
      requires Valid()
      modifies this`length, this`timeouts
      ensures Valid()
      ensures timeouts == old(timeouts) + [Event(old(length) + speed, ToneOn), Event(old(length) + 4 * speed, ToneOff)]
      ensures length == old(length) + 4 * speed
    {
      timeouts := timeouts + [Event(length + speed, ToneOn)];
      length := length + speed;
      timeouts := timeouts + [Event(length + 3 * speed, ToneOff)];
      length := length + 3 * speed;
    }

    /** Plays a dot for '.', a dash for '_', and nothing for any other element. */
    method PlayElement(element: char)
      requires Valid()
      modifies this`length, this`timeouts
      ensures Valid()
      ensures timeouts == old(timeouts) + ElementEvents(old(length), speed, element)
      ensures length == ElementEnd(old(length), speed, element)
      ensures element != '.' && element != '_' ==> timeouts == old(timeouts) && length == old(length)
    {
      match element
      case '.' => PlayDot();
      case '_' => PlayLine();
      case _ =>
    }

    /** The gap after a letter: 2 more silent units. */
    method PlayLetterGap()
      requires Valid()
      modifies this`length
      ensures Valid()
      ensures length == old(length) + LetterGap * speed
    {
      length := length + LetterGap * speed;
    }

    /**
     * Plays the elements of a letter's code, looked up after lower-casing; an argument
     * that is not one character, or a character missing from the table, plays nothing.
     */
    method PlayLetter(letter: string)
      requires Valid()
      modifies this`length, this`timeouts
      ensures Valid()
      ensures timeouts == old(timeouts) + LetterEvents(old(length), speed, letter)
      ensures length == LetterEnd(old(length), speed, letter)
      ensures length == old(length) + speed * LetterUnits(letter)
    {
      if |letter| != 1 {
        CodeDuration(length, speed, Elements(letter));
        return;
      }
      var lower := ToLower(letter[0]);
      var entry := Lookup(lower);
      if entry.None? {
        CodeDuration(length, speed, Elements(letter));
        return;
      }
      var elements := entry.value;
      var i := 0;
      while i < |elements|
        invariant 0 <= i <= |elements|
        invariant Valid()
        invariant timeouts == old(timeouts) + CodeEvents(old(length), speed, elements[..i])
        invariant length == CodeEnd(old(length), speed, elements[..i])
      {
        CodeStep(old(length), speed, elements, i);
        PlayElement(elements[i]);
        i := i + 1;
      }
      assert elements[..i] == elements;
      CodeDuration(old(length), speed, elements);
    }

    /**
     * Resets, then plays every character of the text followed by the letter gap, and
     * schedules a final reset at the total length.
     */
    method Play(text: string)
      requires Valid()
      modifies this`length, this`timeouts, this`toneOn
      ensures Valid() && !toneOn
      ensures timeouts == Timeline(speed, text)
      ensures length == TextEnd(0, speed, text)
      ensures length == speed * TextUnits(text)
    {
      Reset();
      var i := 0;
      while i < |text|
        invariant 0 <= i <= |text|
        invariant Valid() && !toneOn
        invariant timeouts == TextEvents(0, speed, text[..i])
        invariant length == TextEnd(0, speed, text[..i])
      {
        TextPrefixStep(0, speed, text, i);
        PlayLetter([text[i]]);
        PlayLetterGap();
        i := i + 1;
      }
      assert text[..i] == text;
      CodesDuration(0, speed, Letters(text));
      TimelineShape(speed, text);
      timeouts := timeouts + [Event(length, Action.Reset)];
    }

    /** Cancels every pending timeout, zeroes the length and silences the tone. */
    method Stop()
      requires Valid()
      modifies this`timeouts, this`length, this`toneOn
      ensures Valid()
      ensures timeouts == [] && length == 0 && !toneOn
    {
      timeouts := [];
      length := 0;
      StopGenerator();
    }

    method Reset()
      requires Valid()
      modifies this`timeouts, this`length, this`toneOn
      ensures Valid()
      ensures timeouts == [] && length == 0 && !toneOn
    {
      Stop();
    }
  }

  /** A new generator runs at 60 ms per unit; playing "e" schedules on at 60, off at 120, reset at 240. */
  method PlayOneDot() returns (events: seq<Event>, total: int)
    ensures events == [Event(60, ToneOn), Event(120, ToneOff), Event(240, Action.Reset)]
    ensures total == 240
  {
    var m := new Morse();
    m.Play("e");
    WorkedExample();
    events, total := m.timeouts, m.length;
  }

  /** Playing while a playback is pending drops the first timeline entirely. */
  method PlayRestarts(first: string, second: string) returns (events: seq<Event>, total: int)
    ensures events == Timeline(60, second)
    ensures total == 60 * TextUnits(second)
  {
    var m := new Morse();
    m.Play(first);
    m.Play(second);
    events, total := m.timeouts, m.length;
  }

  /** Stopping leaves nothing pending, the length at zero and the tone off; stopping again changes nothing. */
  method StopTwice(text: string) returns (once: seq<Event>, onceTotal: int, onceSounding: bool,
                                          twice: seq<Event>, total: int, sounding: bool)
    ensures once == [] && onceTotal == 0 && !onceSounding
    ensures twice == once && total == onceTotal && sounding == onceSounding
  {
    var m := new Morse();
    m.Play(text);
    m.StartGenerator();
    m.Stop();
    once, onceTotal, onceSounding := m.timeouts, m.length, m.toneOn;
    m.Stop();
    twice, total, sounding := m.timeouts, m.length, m.toneOn;
  }

  /** Playing a text and playing its lower-cased form schedule the same timeouts. */
  method PlayIgnoresCase(text: string) returns (asGiven: seq<Event>, lowered: seq<Event>)
    ensures asGiven == lowered
  {
    var m := new Morse();
    m.Play(text);
    asGiven := m.timeouts;
    m.Play(LowerText(text));
    lowered := m.timeouts;
    TimelineCaseInsensitive(60, text);
  }
}
