/** The "hear the difference" audio picker
    (src/components/sections/InstantDemo.tsx): industry cards that select a
    recording, a play/pause button, a seek bar and the `m:ss` clock. Audio
    times are whole seconds; the audio element is outside the model, and the
    handlers return what they ask of it. */
module InstantDemo {
  import opened Optional
  import opened Decimal

  /** `formatTime`: whole minutes, a colon, and the seconds padded to two
      digits with '0'. */
  function FormatTime(time: nat): (text: string)
    ensures |text| >= 4 && text[|text| - 3] == ':'
    ensures text[..|text| - 3] == NatToString(time / 60)
  {
    NatToString(time / 60) + ":" + PadStart(NatToString(time % 60), 2, '0')
  }

  /** Two digit characters read back as their two-digit number. */
  lemma TwoDigitValue(tens: nat, units: nat)
    requires tens < 10 && units < 10
    ensures AllDigits([DigitChar(tens), DigitChar(units)])
    ensures DigitsValue([DigitChar(tens), DigitChar(units)]) == 10 * tens + units
  {
    var text := [DigitChar(tens), DigitChar(units)];
    var head := [DigitChar(tens)];
    assert text[..1] == head && head[..0] == [];
    assert DigitsValue(head) == DigitsValue([]) * 10 + tens;
    assert DigitsValue(text) == DigitsValue(head) * 10 + units;
  }

  /** The text of the seconds: one digit below 10, two from 10 on. */
  lemma SecondsDigits(seconds: nat)
    requires seconds < 60
    ensures PadStart(NatToString(seconds), 2, '0') == [DigitChar(seconds / 10), DigitChar(seconds % 10)]
  {
    var digits := NatToString(seconds);
    if seconds < 10 {
      assert digits == [DigitChar(seconds)];
      assert PadStart(digits, 2, '0') == ['0'] + digits;
    } else {
      assert NatToString(seconds / 10) == [DigitChar(seconds / 10)];
      assert digits == [DigitChar(seconds / 10), DigitChar(seconds % 10)];
    }
  }

  /** The seconds of the clock: always the two digits of the seconds, the
      first at most '5', reading back as the seconds. */
  lemma SecondsField(seconds: nat)
    requires seconds < 60
    ensures var text := PadStart(NatToString(seconds), 2, '0');
      && text == [DigitChar(seconds / 10), DigitChar(seconds % 10)]
      && AllDigits(text) && text[0] <= '5'
      && DigitsValue(text) == seconds
  {
    SecondsDigits(seconds);
    TwoDigitValue(seconds / 10, seconds % 10);
  }

  /** Reads an `m:ss` clock back into seconds: decimal minutes, a colon and
      exactly two digits of seconds below 60; anything else is `None`. */
  function ParseClock(text: string): (r: Option<nat>)
    ensures r.Some? ==> |text| >= 4 && text[|text| - 3] == ':'
  {
    if |text| < 4 || text[|text| - 3] != ':' then None
    else
      var minutes := ParseNat(text[..|text| - 3]);
      var seconds := ParseNat(text[|text| - 2..]);
      if minutes.Some? && seconds.Some? && seconds.value < 60
      then Some(minutes.value * 60 + seconds.value)
      else None
  }

  /** `ParseClock` reads `minutes:ss` text field by field: the minutes
      before the colon and the two characters after it. */
  lemma ClockFields(minutesText: string, secondsText: string, minutes: nat, seconds: nat)
    requires |secondsText| == 2 && seconds < 60
    requires ParseNat(minutesText) == Some(minutes)
    requires ParseNat(secondsText) == Some(seconds)
    ensures ParseClock(minutesText + ":" + secondsText) == Some(minutes * 60 + seconds)
  {
    var text := minutesText + ":" + secondsText;
    assert text[..|text| - 3] == minutesText;
    assert text[|text| - 2..] == secondsText;
  }

  /** A clock built from whole minutes and seconds below 60 reads back as
      their total in seconds. */
  lemma ClockParts(minutes: nat, seconds: nat)
    requires seconds < 60
    ensures ParseClock(NatToString(minutes) + ":" + PadStart(NatToString(seconds), 2, '0'))
            == Some(minutes * 60 + seconds)
  {
    NatRoundTrip(minutes);
    SecondsField(seconds);
    ClockFields(NatToString(minutes), PadStart(NatToString(seconds), 2, '0'), minutes, seconds);
  }

  /** The clock loses nothing: reading it back gives the time shown, so no
      two times share a clock. */
  lemma ClockRoundTrip(time: nat)
    ensures ParseClock(FormatTime(time)) == Some(time)
  {
    var minutes, seconds := time / 60, time % 60;
    var text := NatToString(minutes) + ":" + PadStart(NatToString(seconds), 2, '0');
    calc {
      ParseClock(FormatTime(time));
      ParseClock(text);
      { ClockParts(minutes, seconds); }
      Some(minutes * 60 + seconds);
      { assert minutes * 60 + seconds == time; }
      Some(time);
    }
  }

  /** The minutes are not capped at 59. */
  lemma FormatTimeExamples()
    ensures FormatTime(0) == "0:00"
    ensures FormatTime(65) == "1:05"
    ensures FormatTime(3600) == "60:00"
  {
    SecondsDigits(0);
    SecondsDigits(5);
    assert NatToString(0) == "0" && NatToString(1) == "1";
    assert NatToString(60) == NatToString(6) + [DigitChar(0)];
  }

  /** What a handler asks of the audio element. */
  datatype AudioCommand = NoCommand | Play | Pause | Rewind | SeekTo(position: nat)

  class AudioPicker {
    /** The ids of the industry cards. */
    const industries: set<string>
    var selectedIndustry: Option<string>
    var isPlaying: bool
    var currentTime: nat
    var duration: nat

    /** Only a card's industry is selected, and only a selected recording
        plays. */
    ghost predicate Valid()
      reads this
    {
      && (selectedIndustry.Some? ==> selectedIndustry.value in industries)
      && (isPlaying ==> selectedIndustry.Some?)
    }

    /** The player, and with it the audio element, is shown exactly when an
        industry is selected. */
    predicate HasAudio()
      reads this
    {
      selectedIndustry.Some? && selectedIndustry.value in industries
    }

    constructor (industries: set<string>)
      ensures Valid() && this.industries == industries
      ensures selectedIndustry == None && !isPlaying && currentTime == 0 && duration == 0
    {
      this.industries := industries;
      selectedIndustry, isPlaying, currentTime, duration := None, false, 0, 0;
    }

    /** `handleIndustryClick`: the selected card closes and rewinds its
        recording; any other card is selected with the clock at 0. Either
        way playback stops. */
    method IndustryClick(id: string) returns (command: AudioCommand)
      requires Valid() && id in industries
      modifies this
      ensures Valid() && !isPlaying && duration == old(duration)
      ensures old(selectedIndustry) == Some(id) ==>
                selectedIndustry == None && command == Rewind && currentTime == old(currentTime)
      ensures old(selectedIndustry) != Some(id) ==>
                selectedIndustry == Some(id) && command == NoCommand && currentTime == 0
    {
      if selectedIndustry == Some(id) {
        selectedIndustry := None;
        isPlaying := false;
        command := Rewind;
      } else {
        selectedIndustry := Some(id);
        isPlaying := false;
        currentTime := 0;
        command := NoCommand;
      }
    }

    /** `handlePlayPause`: with a recording, flips between playing and
        paused; without one, does nothing. */
    method PlayPause() returns (command: AudioCommand)
      requires Valid()
      modifies this`isPlaying
      ensures Valid()
      ensures HasAudio() ==> isPlaying == !old(isPlaying) && command == (if old(isPlaying) then Pause else Play)
      ensures !HasAudio() ==> isPlaying == old(isPlaying) && command == NoCommand
    {
      if HasAudio() {
        command := if isPlaying then Pause else Play;
        isPlaying := !isPlaying;
      } else {
        command := NoCommand;
      }
    }

    /** `handleSeek`: with a recording, moves it and the clock to `time`. */
    method Seek(time: nat) returns (command: AudioCommand)
      requires Valid()
      modifies this`currentTime
      ensures Valid()
      ensures HasAudio() ==> currentTime == time && command == SeekTo(time)
      ensures !HasAudio() ==> currentTime == old(currentTime) && command == NoCommand
    {
      if HasAudio() {
        currentTime := time;
        command := SeekTo(time);
      } else {
        command := NoCommand;
      }
    }

    /** The audio element's `timeupdate` event. */
    method OnTimeUpdate(time: nat)
      requires Valid() && HasAudio()
      modifies this`currentTime
      ensures Valid() && currentTime == time
    {
      currentTime := time;
    }

    /** The audio element's `loadedmetadata` event. */
    method OnLoadedMetadata(length: nat)
      requires Valid() && HasAudio()
      modifies this`duration
      ensures Valid() && duration == length
    {
      duration := length;
    }

    /** The audio element's `ended` event: playback stops at 0. */
    method OnEnded()
      requires Valid() && HasAudio()
      modifies this
      ensures Valid() && !isPlaying && currentTime == 0
      ensures selectedIndustry == old(selectedIndustry) && duration == old(duration)
    {
      isPlaying := false;
      currentTime := 0;
    }
  }
}
