/** The third screen of the wizard: room count, operating days and hours, bar-menu
    attachments and a free-text description. */
module ReceptionHours {
  import opened Outcomes
  import opened Text
  import opened Hours

  /** An attachment, as far as the screen looks at it: its name, MIME type and size in bytes. */
  datatype File = File(name: string, mimeType: string, size: nat)

  /** The MIME types the attachment filter lets through. */
  const AcceptedTypes: seq<string> := ["application/pdf", "image/jpeg", "image/png"]

  /** 10 MiB, the largest size the attachment filter lets through. */
  const MaxFileSize: nat := 10 * 1024 * 1024

  /** The filter callback: the type must be listed, then the size must not exceed the limit. */
  predicate Accepted(f: File) {
    f.mimeType in AcceptedTypes && f.size <= MaxFileSize
  }

  /** The limit is inclusive: a listed file of exactly 10 MiB (10485760 bytes) is kept and
      one byte more is dropped. */
  lemma SizeLimitInclusive(name: string, mimeType: string)
    requires mimeType in AcceptedTypes
    ensures MaxFileSize == 10485760
    ensures Accepted(File(name, mimeType, MaxFileSize))
    ensures !Accepted(File(name, mimeType, MaxFileSize + 1))
  {
  }

  /** `filesArray.filter(...)`: the accepted files, in their original order. */
  function KeepAccepted(files: seq<File>): (r: seq<File>)
    ensures |r| <= |files|
    ensures forall f :: f in r <==> f in files && Accepted(f)
  {
    if files == [] then []
    else (if Accepted(files[0]) then [files[0]] else []) + KeepAccepted(files[1..])
  }

  /** Filtering a concatenation filters each part in turn: the order among kept files is the
      order of the selection. */
  lemma {:induction false} KeepAcceptedAppend(a: seq<File>, b: seq<File>)
    ensures KeepAccepted(a + b) == KeepAccepted(a) + KeepAccepted(b)
    decreases |a|
  {
    if a == [] {
      assert a + b == b;
    } else {
      assert (a + b)[1..] == a[1..] + b;
      KeepAcceptedAppend(a[1..], b);
    }
  }

  /** The filter keeps every copy of an accepted file and no copy of a refused one. */
  lemma {:induction false} KeepAcceptedCounts(files: seq<File>, f: File)
    ensures multiset(KeepAccepted(files))[f] == if Accepted(f) then multiset(files)[f] else 0
    decreases |files|
  {
    if files != [] {
      KeepAcceptedCounts(files[1..], f);
      assert files == [files[0]] + files[1..];
    }
  }

  /** The filter as the handlers run it: one pass over the selection, keeping each file
      that passes both checks. */
  method FilterAccepted(files: seq<File>) returns (validFiles: seq<File>)
    ensures validFiles == KeepAccepted(files)
  {
    validFiles := [];
    var i := 0;
    while i < |files|
      invariant 0 <= i <= |files|
      invariant validFiles == KeepAccepted(files[..i])
    {
      var file := files[i];
      KeepAcceptedAppend(files[..i], [file]);
      assert files[..i + 1] == files[..i] + [file];
      if file.mimeType in AcceptedTypes && file.size <= MaxFileSize {
        validFiles := validFiles + [file];
      }
      i := i + 1;
    }
    assert files[..i] == files;
  }

  /** `prev.filter((_, i) => i !== index)`, walking the list with `position` the index of
      its first element. */
  function DropPosition(files: seq<File>, index: int, position: int): seq<File>
    decreases |files|
  {
    if files == [] then []
    else (if position != index then [files[0]] else []) + DropPosition(files[1..], index, position + 1)
  }

  /** The index filter removes the one entry at `index` when there is one, and nothing otherwise. */
  lemma {:induction false} DropPositionRemovesOne(files: seq<File>, index: int, position: int)
    ensures position <= index < position + |files| ==>
      DropPosition(files, index, position) == files[..index - position] + files[index - position + 1..]
    ensures !(position <= index < position + |files|) ==> DropPosition(files, index, position) == files
    decreases |files|
  {
    if files != [] {
      DropPositionRemovesOne(files[1..], index, position + 1);
      if position == index {
        assert files[..0] == [];
      } else if position < index < position + |files| {
        assert files[..index - position] == [files[0]] + files[1..][..index - position - 1];
        assert files[index - position + 1..] == files[1..][index - position..];
      } else {
        assert files == [files[0]] + files[1..];
      }
    }
  }

  /** `handleRemoveFile`'s update: the entry at `index` goes, the rest keep their order, and an
      index outside the list changes nothing. */
  function RemoveAt(files: seq<File>, index: int): (r: seq<File>)
    ensures 0 <= index < |files| ==> r == files[..index] + files[index + 1..]
    ensures !(0 <= index < |files|) ==> r == files
  {
    DropPositionRemovesOne(files, index, 0);
    DropPosition(files, index, 0)
  }

  /** `handleTotalRoomsChange`: a parse that failed (NaN) or gave a negative number becomes 0. */
  function ClampRooms(parsed: Option<int>): (n: int)
    ensures n >= 0
    ensures parsed.Some? && parsed.value >= 0 ==> n == parsed.value
    ensures n != 0 ==> parsed == Some(n)
  {
    match parsed
    case None => 0
    case Some(v) => if v < 0 then 0 else v
  }

  /** What the screen hands to `onNext`; the attachments are not part of it. */
  datatype ReceptionData = ReceptionData(totalRooms: int, receptionOperatingHours: OperatingHours, description: string)

  /** The initial state cells: `initialData?.totalRooms || 0`, the stored hours or
      `initialOperatingHours`, and `initialData?.description || ''`. */
  function Seed(initialData: Option<ReceptionData>): (d: ReceptionData)
    ensures initialData.None? ==> d == ReceptionData(0, InitialOperatingHours(), "")
    ensures initialData.Some? ==> d == initialData.value
  {
    match initialData
    case None => ReceptionData(0, InitialOperatingHours(), "")
    case Some(x) =>
      ReceptionData(if x.totalRooms != 0 then x.totalRooms else 0,
                    x.receptionOperatingHours,
                    if x.description != "" then x.description else "")
  }

  /** `anyDaySelected`: one of the seven days or one of the three group flags. The stray
      `custom` flag is not consulted. */
  predicate AnyDaySelected(h: OperatingHours) {
    h.mon || h.tue || h.wed || h.thu || h.fri || h.sat || h.sun || h.allDays || h.weekdays || h.weekend
  }

  /** The gate of `handleSubmit`, its three checks in order. */
  function Validate(totalRooms: int, hours: OperatingHours, description: string): (r: Result<ReceptionData, ValidationError>)
    ensures r.Ok? <==>
      && totalRooms > 0
      && (SelectedDays(hours) != {} || hours.allDays || hours.weekdays || hours.weekend)
      && hours.from != "" && hours.to != ""
    ensures totalRooms <= 0 ==> r == Err(InvalidRoomCount)
    ensures totalRooms > 0 && SelectedDays(hours) == {} && !hours.allDays && !hours.weekdays && !hours.weekend ==>
      r == Err(NoOperatingDay)
    ensures && totalRooms > 0
            && (SelectedDays(hours) != {} || hours.allDays || hours.weekdays || hours.weekend)
            && (hours.from == "" || hours.to == "") ==>
      r == Err(NoOperatingHours)
    ensures r.Ok? ==> r.value == ReceptionData(totalRooms, hours, description)
  {
    AnyDayIsSelection(hours);
    if totalRooms <= 0 then Err(InvalidRoomCount)
    else if !AnyDaySelected(hours) then Err(NoOperatingDay)
    else if hours.from == "" || hours.to == "" then Err(NoOperatingHours)
    else Ok(ReceptionData(totalRooms, hours, description))
  }

  /** The ten-way disjunction in set terms. */
  lemma AnyDayIsSelection(h: OperatingHours)
    ensures AnyDaySelected(h) <==> SelectedDays(h) != {} || h.allDays || h.weekdays || h.weekend
  {
    if h.mon || h.tue || h.wed || h.thu || h.fri || h.sat || h.sun {
      assert h.mon ==> Mon in SelectedDays(h);
      assert h.tue ==> Tue in SelectedDays(h);
      assert h.wed ==> Wed in SelectedDays(h);
      assert h.thu ==> Thu in SelectedDays(h);
      assert h.fri ==> Fri in SelectedDays(h);
      assert h.sat ==> Sat in SelectedDays(h);
      assert h.sun ==> Sun in SelectedDays(h);
    } else {
      assert SelectedDays(h) == {};
    }
  }

  /** On a coherent record the group flags add nothing to the day check: the gate's day
      test passes exactly when some individual day is on. */
  lemma CoherentDayCheck(h: OperatingHours)
    requires Coherent(h)
    ensures AnyDaySelected(h) <==> SelectedDays(h) != {}
  {
    AnyDayIsSelection(h);
    if h.allDays || h.weekdays || h.weekend {
      assert h.mon || h.sat;
      assert h.mon ==> Mon in SelectedDays(h);
      assert h.sat ==> Sat in SelectedDays(h);
    }
  }

  /** Pressing "Custom" on an empty selection does not get past the day check. */
  lemma CustomAloneIsNoDay(totalRooms: int, description: string)
    requires totalRooms > 0
    ensures Validate(totalRooms, Toggle(InitialOperatingHours(), CustomKey), description) == Err(NoOperatingDay)
  {
    var h := Toggle(InitialOperatingHours(), CustomKey);
    assert h.custom;
    SameDaysSelectSame(h, InitialOperatingHours());
  }

  /** The value of an `<input type="time">` that holds a time: two digits, a colon, two digits. */
  predicate IsClockText(t: string) {
    |t| == 5 && IsDigit(t[0]) && IsDigit(t[1]) && t[2] == ':' && IsDigit(t[3]) && IsDigit(t[4])
  }

  /** `Number` of the part before the colon. */
  function ClockHours(t: string): nat
    requires IsClockText(t)
  {
    DecimalValue(t[..2])
  }

  /** `Number` of the part after the colon. */
  function ClockMinutes(t: string): nat
    requires IsClockText(t)
  {
    DecimalValue(t[3..])
  }

  /** Two digits denote ten times the first plus the second. */
  lemma TwoDigitValue(t: string)
    requires |t| == 2 && IsDigit(t[0]) && IsDigit(t[1])
    ensures DecimalValue(t) == 10 * DigitValue(t[0]) + DigitValue(t[1])
  {
    var first := t[..1];
    assert first[..0] == [];
    assert DecimalValue(first) == DigitValue(first[0]);
    assert t[..|t| - 1] == first;
  }

  /** Writing the value of two digits back with `padStart(2, '0')` gives the two digits again. */
  lemma PaddedTwoDigits(t: string)
    requires |t| == 2 && IsDigit(t[0]) && IsDigit(t[1])
    ensures DecimalValue(t) < 100 && PadStart2(ShortDecimalText(DecimalValue(t))) == t
  {
    var a, b := DigitValue(t[0]), DigitValue(t[1]);
    TwoDigitValue(t);
    assert DigitChar(a) == t[0] && DigitChar(b) == t[1];
    if a == 0 {
      assert ShortDecimalText(DecimalValue(t)) == [t[1]];
    } else {
      assert (10 * a + b) / 10 == a && (10 * a + b) % 10 == b;
      assert ShortDecimalText(DecimalValue(t)) == t;
    }
  }

  /** The template literal `${hours}:${minutes} ${ampm}` and where its parts end up. */
  function DisplayText(hourText: string, minuteText: string, suffix: string): (r: string)
    requires |minuteText| == 2 && |suffix| == 2
    ensures |r| == |hourText| + 6
    ensures r[..|r| - 6] == hourText && r[|r| - 6] == ':' && r[|r| - 3] == ' '
    ensures r[|r| - 5..|r| - 3] == minuteText && r[|r| - 2..] == suffix
  {
    hourText + ":" + minuteText + " " + suffix
  }

  /** `displayHours`: the hour on a 12-hour clock face, where 0 and 12 both read 12. */
  function ClockFace(hours: nat): (shown: nat)
    ensures 1 <= shown <= 12
    ensures shown % 12 == hours % 12
  {
    if hours % 12 == 0 then 12 else hours % 12
  }

  /** `ampm`. */
  function Meridiem(hours: nat): (suffix: string)
    ensures |suffix| == 2
  {
    if hours >= 12 then "PM" else "AM"
  }

  /** `formatTimeForDisplay`: 24-hour `HH:MM` to 12-hour text such as `9:05 PM`; the empty
      string (no time chosen) gives the empty string. */
  function FormatTimeForDisplay(time: string): (r: string)
    requires time == "" || IsClockText(time)
    ensures r == "" <==> time == ""
    ensures time != "" ==> 7 <= |r|
  {
    if time == "" then ""
    else
      var hours := ClockHours(time);
      var minutes := ClockMinutes(time);
      TwoDigitValue(time[3..]);
      PaddedTwoDigits(time[3..]);
      DisplayText(ShortDecimalText(ClockFace(hours)), PadStart2(ShortDecimalText(minutes)), Meridiem(hours))
  }

  /** The pieces `FormatTimeForDisplay` assembles for a clock value; the minutes are the
      two digits typed. */
  lemma FormatTimeParts(time: string)
    requires IsClockText(time)
    ensures FormatTimeForDisplay(time) ==
      DisplayText(ShortDecimalText(ClockFace(ClockHours(time))), time[3..], Meridiem(ClockHours(time)))
  {
    PaddedTwoDigits(time[3..]);
  }

  /** The suffix is `PM` from hour 12 on and `AM` before. */
  lemma FormatTimeSuffix(time: string)
    requires IsClockText(time)
    ensures var r := FormatTimeForDisplay(time);
      && (r[|r| - 2..] == "PM" <==> ClockHours(time) >= 12)
      && (r[|r| - 2..] == "AM" <==> ClockHours(time) < 12)
  {
    FormatTimeParts(time);
  }

  /** The minutes come out as the two digits typed, zero padding included, between the
      colon and the space. */
  lemma FormatTimeMinutes(time: string)
    requires IsClockText(time)
    ensures var r := FormatTimeForDisplay(time);
      r[|r| - 5..|r| - 3] == time[3..]
  {
    FormatTimeParts(time);
  }
  /** A colon separates the hour from the minutes and a space the minutes from the suffix. */
  lemma FormatTimeSeparators(time: string)
    requires IsClockText(time)
    ensures var r := FormatTimeForDisplay(time);
      r[|r| - 6] == ':' && r[|r| - 3] == ' '
  {
    FormatTimeParts(time);
  }

  /** The displayed hour is the clock face of the hour, written in decimal without padding. */
  lemma DisplayedHour(time: string)
    requires IsClockText(time)
    ensures var r := FormatTimeForDisplay(time);
      r[..|r| - 6] == DecimalText(ClockFace(ClockHours(time)))
  {
    var shown := ClockFace(ClockHours(time));
    FormatTimeParts(time);
    assert ShortDecimalText(shown) == DecimalText(shown);
  }

  /** A time of day as read back from display text: the 24-hour hour and the minutes. */
  datatype ClockReading = ClockReading(hours: nat, minutes: nat)

  /** Reads 12-hour display text back into a 24-hour reading; `None` when it is not of the
      shape `FormatTimeForDisplay` writes. */
  function ParseDisplayTime(s: string): Option<ClockReading> {
    if |s| < 7 then None
    else
      var hourText := s[..|s| - 6];
      var minuteText := s[|s| - 5..|s| - 3];
      var suffix := s[|s| - 2..];
      if || !(forall i :: 0 <= i < |hourText| ==> IsDigit(hourText[i]))
         || s[|s| - 6] != ':' || !IsDigit(minuteText[0]) || !IsDigit(minuteText[1]) || s[|s| - 3] != ' '
         || (suffix != "AM" && suffix != "PM")
      then None
      else
        var h := DecimalValue(hourText);
        if h < 1 || h > 12 then None
        else Some(ClockReading(h % 12 + (if suffix == "PM" then 12 else 0), DecimalValue(minuteText)))
  }

  /** `ParseDisplayTime` reads each piece of `DisplayText` back, for any hour of the day. */
  lemma ParseDisplayText(hours: nat, minuteText: string)
    requires hours < 24
    requires |minuteText| == 2 && IsDigit(minuteText[0]) && IsDigit(minuteText[1])
    ensures ParseDisplayTime(DisplayText(ShortDecimalText(ClockFace(hours)), minuteText, Meridiem(hours))) ==
      Some(ClockReading(hours, DecimalValue(minuteText)))
  {
    var hourText := ShortDecimalText(ClockFace(hours));
    assert DecimalValue(hourText) == ClockFace(hours);
  }

  /** For every time of day the display text determines the time: reading it back gives the
      original hours and minutes. In particular hours 0 and 12 both show as 12, told apart by
      the suffix. */
  lemma FormatTimeRoundTrip(time: string)
    requires IsClockText(time) && ClockHours(time) < 24
    ensures ParseDisplayTime(FormatTimeForDisplay(time)) == Some(ClockReading(ClockHours(time), ClockMinutes(time)))
  {
    FormatTimeParts(time);
    ParseDisplayText(ClockHours(time), time[3..]);
  }

  /** The updater `handleDayToggle` passes to `setOperatingHours`: copy the record, then
      assign its fields branch by branch. */
  method ToggledHours(prev: OperatingHours, key: ToggleKey) returns (newState: OperatingHours)
    ensures newState == Toggle(prev, key)
  {
    newState := prev;
    match key {
      case AllDaysKey =>
        newState := newState.(allDays := !prev.allDays);
        if newState.allDays {
          newState := newState.(weekdays := false, weekend := false);
          newState := newState.(mon := true, tue := true, wed := true, thu := true, fri := true, sat := true, sun := true);
        } else {
          newState := newState.(mon := false, tue := false, wed := false, thu := false, fri := false, sat := false, sun := false);
        }
      case WeekdaysKey =>
        newState := newState.(weekdays := !prev.weekdays);
        if newState.weekdays {
          newState := newState.(allDays := false, weekend := false);
          newState := newState.(mon := true, tue := true, wed := true, thu := true, fri := true);
          newState := newState.(sat := false, sun := false);
        } else {
          newState := newState.(mon := false, tue := false, wed := false, thu := false, fri := false);
        }
      case WeekendKey =>
        newState := newState.(weekend := !prev.weekend);
        if newState.weekend {
          newState := newState.(allDays := false, weekdays := false);
          newState := newState.(sat := true, sun := true);
          newState := newState.(mon := false, tue := false, wed := false, thu := false, fri := false);
        } else {
          newState := newState.(sat := false, sun := false);
        }
      case DayKey(d) =>
        newState := SetDay(newState, d, !DayOn(prev, d));
        newState := newState.(allDays := false, weekdays := false, weekend := false);
        if AllSevenOn(newState) {
          newState := newState.(allDays := true);
        }
      case CustomKey =>
        newState := newState.(custom := !prev.custom);
        newState := newState.(allDays := false, weekdays := false, weekend := false);
        if AllSevenOn(newState) {
          newState := newState.(allDays := true);
        }
    }
  }

  /** The component's four state cells and their handlers. */
  class ReceptionHoursForm {
    var totalRooms: int
    var operatingHours: OperatingHours
    var barMenuFiles: seq<File>
    var description: string

    constructor (initialData: Option<ReceptionData>)
      ensures ReceptionData(totalRooms, operatingHours, description) == Seed(initialData)
      ensures barMenuFiles == []
    {
      var seed := Seed(initialData);
      totalRooms := seed.totalRooms;
      operatingHours := seed.receptionOperatingHours;
      barMenuFiles := [];
      description := seed.description;
    }

    /** `handleTotalRoomsChange`, given what `parseInt` made of the input. */
    method ChangeTotalRooms(parsed: Option<int>)
      modifies this
      ensures totalRooms == ClampRooms(parsed)
      ensures operatingHours == old(operatingHours) && barMenuFiles == old(barMenuFiles)
      ensures description == old(description)
    {
      if parsed.None? || parsed.value < 0 {
        totalRooms := 0;
      } else {
        totalRooms := parsed.value;
      }
    }

    /** `handleDayToggle`. */
    method ToggleDay(key: ToggleKey)
      modifies this
      ensures operatingHours == Toggle(old(operatingHours), key)
      ensures Coherent(old(operatingHours)) ==> Coherent(operatingHours)
      ensures totalRooms == old(totalRooms) && barMenuFiles == old(barMenuFiles)
      ensures description == old(description)
    {
      var next := ToggledHours(operatingHours, key);
      if Coherent(operatingHours) {
        ToggleKeepsCoherent(operatingHours, key);
      }
      operatingHours := next;
    }

    /** `handleTimeChange`: only the named bound changes. */
    method ChangeTime(bound: Bound, value: string)
      modifies this
      ensures operatingHours == SetTime(old(operatingHours), bound, value)
      ensures totalRooms == old(totalRooms) && barMenuFiles == old(barMenuFiles)
      ensures description == old(description)
    {
      match bound {
        case From => operatingHours := operatingHours.(from := value);
        case To => operatingHours := operatingHours.(to := value);
      }
    }

    /** `handleFileChange` and `handleDrop`: when the event carries a file list, its accepted
        files are appended after the ones already held; otherwise nothing happens. */
    method AddFiles(selection: Option<seq<File>>)
      modifies this
      ensures selection.None? ==> barMenuFiles == old(barMenuFiles)
      ensures selection.Some? ==> barMenuFiles == old(barMenuFiles) + KeepAccepted(selection.value)
      ensures totalRooms == old(totalRooms) && operatingHours == old(operatingHours)
      ensures description == old(description)
    {
      if selection.Some? {
        var validFiles := FilterAccepted(selection.value);
        barMenuFiles := barMenuFiles + validFiles;
      }
    }

    /** `handleRemoveFile`. */
    method RemoveFile(index: int)
      modifies this
      ensures barMenuFiles == RemoveAt(old(barMenuFiles), index)
      ensures totalRooms == old(totalRooms) && operatingHours == old(operatingHours)
      ensures description == old(description)
    {
      barMenuFiles := RemoveAt(barMenuFiles, index);
    }

    /** The description `<textarea>`'s `onChange`. */
    method ChangeDescription(value: string)
      modifies this
      ensures description == value
      ensures totalRooms == old(totalRooms) && operatingHours == old(operatingHours)
      ensures barMenuFiles == old(barMenuFiles)
    {
      description := value;
    }

    /** `handleSubmit`: what reaches `onNext`, or the first rejection; the cells stay as they are. */
    method Submit() returns (r: Result<ReceptionData, ValidationError>)
      ensures r == Validate(totalRooms, operatingHours, description)
    {
      if totalRooms <= 0 {
        return Err(InvalidRoomCount);
      }
      var anyDaySelected := AnyDaySelected(operatingHours);
      if !anyDaySelected {
        return Err(NoOperatingDay);
      }
      if operatingHours.from == "" || operatingHours.to == "" {
        return Err(NoOperatingHours);
      }
      r := Ok(ReceptionData(totalRooms, operatingHours, description));
    }
  }
}
