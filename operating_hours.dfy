/** The operating-hours record of the reception step and the reducer behind its day
    buttons (`handleDayToggle`), the time inputs (`handleTimeChange`), and the mapping from
    button labels to the keys the reducer receives. */
module Hours {
  import opened Outcomes
  import opened Text

  datatype Day = Mon | Tue | Wed | Thu | Fri | Sat | Sun

  /** Ten booleans and two `HH:MM` strings, as declared; `custom` is the stray field the
      "Custom" button creates (its key is `custom`, which the declaration does not list).
      An absent `custom` reads as `undefined`, which `!` treats like `false`. */
  datatype OperatingHours = OperatingHours(
    allDays: bool, weekdays: bool, weekend: bool,
    mon: bool, tue: bool, wed: bool, thu: bool, fri: bool, sat: bool, sun: bool,
    from: string, to: string,
    custom: bool)

  function DayOn(h: OperatingHours, d: Day): bool {
    match d
    case Mon => h.mon
    case Tue => h.tue
    case Wed => h.wed
    case Thu => h.thu
    case Fri => h.fri
    case Sat => h.sat
    case Sun => h.sun
  }

  /** `newState[dayKey] = v`. */
  function SetDay(h: OperatingHours, d: Day, v: bool): (r: OperatingHours)
    ensures DayOn(r, d) == v
    ensures r.allDays == h.allDays && r.weekdays == h.weekdays && r.weekend == h.weekend
    ensures r.from == h.from && r.to == h.to && r.custom == h.custom
  {
    match d
    case Mon => h.(mon := v)
    case Tue => h.(tue := v)
    case Wed => h.(wed := v)
    case Thu => h.(thu := v)
    case Fri => h.(fri := v)
    case Sat => h.(sat := v)
    case Sun => h.(sun := v)
  }

  const AllWeek: set<Day> := {Mon, Tue, Wed, Thu, Fri, Sat, Sun}
  const WorkWeek: set<Day> := {Mon, Tue, Wed, Thu, Fri}
  const WeekendDays: set<Day> := {Sat, Sun}

  /** Every day is one of the seven. */
  lemma InWeek(d: Day)
    ensures d in AllWeek
  {
  }

  /** The individual days that are switched on, as a set. */
  function SelectedDays(h: OperatingHours): (s: set<Day>)
    ensures forall d :: d in s <==> DayOn(h, d)
  {
    forall d ensures d in AllWeek { InWeek(d); }
    set d | d in AllWeek && DayOn(h, d)
  }

  /** Monday to Friday all equal `v`. */
  predicate WorkWeekIs(h: OperatingHours, v: bool) {
    h.mon == v && h.tue == v && h.wed == v && h.thu == v && h.fri == v
  }

  /** Saturday and Sunday both equal `v`. */
  predicate WeekendIs(h: OperatingHours, v: bool) {
    h.sat == v && h.sun == v
  }

  /** `a` and `b` agree on every individual day. */
  predicate SameDays(a: OperatingHours, b: OperatingHours) {
    && a.mon == b.mon && a.tue == b.tue && a.wed == b.wed && a.thu == b.thu && a.fri == b.fri
    && a.sat == b.sat && a.sun == b.sun
  }

  /** The `every` over the seven day keys. */
  predicate AllSevenOn(h: OperatingHours) {
    WorkWeekIs(h, true) && WeekendIs(h, true)
  }

  /** The invariant the buttons keep: `allDays` is exactly "all seven days are on", and a set
      `weekdays` or `weekend` flag stands for exactly its own days. */
  predicate Coherent(h: OperatingHours) {
    && (h.allDays <==> AllSevenOn(h))
    && (h.weekdays ==> WorkWeekIs(h, true) && WeekendIs(h, false))
    && (h.weekend ==> WorkWeekIs(h, false) && WeekendIs(h, true))
  }

  /** `initialOperatingHours`: nothing selected, open 09:00 to 21:00. */
  function InitialOperatingHours(): (h: OperatingHours)
    ensures Coherent(h)
    ensures SelectedDays(h) == {} && !h.allDays && !h.weekdays && !h.weekend && !h.custom
    ensures h.from == "09:00" && h.to == "21:00"
  {
    OperatingHours(false, false, false, false, false, false, false, false, false, false,
                   "09:00", "21:00", false)
  }

  /** The argument of `handleDayToggle`: the three group keys, a day key, or the key
      `custom` that the "Custom" button actually passes. */
  datatype ToggleKey = AllDaysKey | WeekdaysKey | WeekendKey | DayKey(day: Day) | CustomKey

  /** The tail of the individual-key branch: clear the three group flags, then set
      `allDays` again if all seven days are on. */
  function ClearGroupsAndRederive(h: OperatingHours): (r: OperatingHours)
    ensures SameDays(r, h) && !r.weekdays && !r.weekend && (r.allDays <==> AllSevenOn(h))
    ensures r.from == h.from && r.to == h.to && r.custom == h.custom
  {
    var cleared := h.(allDays := false, weekdays := false, weekend := false);
    if AllSevenOn(cleared) then cleared.(allDays := true) else cleared
  }

  /** The `allDays` branch: flip the flag; switched on, it clears the other two groups and
      switches every day on; switched off, it switches every day off and leaves the other
      two groups alone. */
  function PressAllDays(prev: OperatingHours): (r: OperatingHours)
    ensures r.allDays == !prev.allDays
    ensures WorkWeekIs(r, r.allDays) && WeekendIs(r, r.allDays)
    ensures if r.allDays then !r.weekdays && !r.weekend
            else r.weekdays == prev.weekdays && r.weekend == prev.weekend
    ensures r.from == prev.from && r.to == prev.to && r.custom == prev.custom
  {
    var flipped := prev.(allDays := !prev.allDays);
    if flipped.allDays then
      flipped.(weekdays := false, weekend := false)
             .(mon := true, tue := true, wed := true, thu := true, fri := true, sat := true, sun := true)
    else
      flipped.(mon := false, tue := false, wed := false, thu := false, fri := false, sat := false, sun := false)
  }

  /** The `weekdays` branch: flip the flag; switched on, it selects exactly Monday to Friday
      and clears the other two groups; switched off, it clears Monday to Friday and nothing
      else. */
  function PressWeekdays(prev: OperatingHours): (r: OperatingHours)
    ensures r.weekdays == !prev.weekdays
    ensures if r.weekdays then !r.allDays && !r.weekend && WorkWeekIs(r, true) && WeekendIs(r, false)
            else && r.allDays == prev.allDays && r.weekend == prev.weekend
                 && WorkWeekIs(r, false) && r.sat == prev.sat && r.sun == prev.sun
    ensures r.from == prev.from && r.to == prev.to && r.custom == prev.custom
  {
    var flipped := prev.(weekdays := !prev.weekdays);
    if flipped.weekdays then
      flipped.(allDays := false, weekend := false)
             .(mon := true, tue := true, wed := true, thu := true, fri := true)
             .(sat := false, sun := false)
    else
      flipped.(mon := false, tue := false, wed := false, thu := false, fri := false)
  }

  /** The `weekend` branch: flip the flag; switched on, it selects exactly Saturday and
      Sunday and clears the other two groups; switched off, it clears Saturday and Sunday
      and nothing else. */
  function PressWeekend(prev: OperatingHours): (r: OperatingHours)
    ensures r.weekend == !prev.weekend
    ensures if r.weekend then !r.allDays && !r.weekdays && WorkWeekIs(r, false) && WeekendIs(r, true)
            else && r.allDays == prev.allDays && r.weekdays == prev.weekdays
                 && WeekendIs(r, false) && SameDays(r.(sat := prev.sat, sun := prev.sun), prev)
    ensures r.from == prev.from && r.to == prev.to && r.custom == prev.custom
  {
    var flipped := prev.(weekend := !prev.weekend);
    if flipped.weekend then
      flipped.(allDays := false, weekdays := false)
             .(sat := true, sun := true)
             .(mon := false, tue := false, wed := false, thu := false, fri := false)
    else
      flipped.(sat := false, sun := false)
  }

  /** The individual-key branch for a day: flip that day, keep the other six, clear
      `weekdays` and `weekend`, and derive `allDays` from the seven days. */
  function PressDay(prev: OperatingHours, d: Day): (r: OperatingHours)
    ensures DayOn(r, d) == !DayOn(prev, d)
    ensures SameDays(r, SetDay(prev, d, !DayOn(prev, d)))
    ensures !r.weekdays && !r.weekend
    ensures r.allDays <==> AllSevenOn(r)
    ensures r.from == prev.from && r.to == prev.to && r.custom == prev.custom
  {
    ClearGroupsAndRederive(SetDay(prev, d, !DayOn(prev, d)))
  }

  /** The individual-key branch for the stray `custom` key: flip it, keep every day, clear
      `weekdays` and `weekend`, and derive `allDays` from the seven days. */
  function PressCustom(prev: OperatingHours): (r: OperatingHours)
    ensures r.custom == !prev.custom
    ensures SameDays(r, prev)
    ensures !r.weekdays && !r.weekend
    ensures r.allDays <==> AllSevenOn(r)
    ensures r.from == prev.from && r.to == prev.to
  {
    ClearGroupsAndRederive(prev.(custom := !prev.custom))
  }

  /** The state updater of `handleDayToggle`: an exhaustive dispatch on the key. Only
      `allDays` is derived again after an individual toggle; `weekdays` and `weekend` are
      simply cleared. Neither time bound is ever touched. */
  function Toggle(prev: OperatingHours, key: ToggleKey): (r: OperatingHours)
    ensures r.from == prev.from && r.to == prev.to
    ensures key != CustomKey ==> r.custom == prev.custom
  {
    match key
    case AllDaysKey => PressAllDays(prev)
    case WeekdaysKey => PressWeekdays(prev)
    case WeekendKey => PressWeekend(prev)
    case DayKey(d) => PressDay(prev, d)
    case CustomKey => PressCustom(prev)
  }

  /** Which bound `handleTimeChange` writes. */
  datatype Bound = From | To

  /** `handleTimeChange`: replace the named bound with whatever the input holds. The other
      bound is not consulted, so `to` may well end up earlier than `from`. */
  function SetTime(prev: OperatingHours, bound: Bound, value: string): (r: OperatingHours)
    ensures r.(from := prev.from, to := prev.to) == prev
    ensures bound == From ==> r.from == value && r.to == prev.to
    ensures bound == To ==> r.to == value && r.from == prev.from
  {
    match bound
    case From => prev.(from := value)
    case To => prev.(to := value)
  }

  /** A coherent record never has two group flags set at once. */
  lemma CoherentGroupsExclusive(h: OperatingHours)
    requires Coherent(h)
    ensures !(h.allDays && h.weekdays) && !(h.allDays && h.weekend) && !(h.weekdays && h.weekend)
  {
  }

  /** Every button press keeps the record coherent. */
  lemma ToggleKeepsCoherent(h: OperatingHours, key: ToggleKey)
    requires Coherent(h)
    ensures Coherent(Toggle(h, key))
  {
    var r := Toggle(h, key);
    if key.DayKey? {
      match key.day
      case Mon => assert r.mon != h.mon;
      case Tue => assert r.tue != h.tue;
      case Wed => assert r.wed != h.wed;
      case Thu => assert r.thu != h.thu;
      case Fri => assert r.fri != h.fri;
      case Sat => assert r.sat != h.sat;
      case Sun => assert r.sun != h.sun;
    }
  }

  /** Changing a time bound keeps the record coherent. */
  lemma SetTimeKeepsCoherent(h: OperatingHours, bound: Bound, value: string)
    requires Coherent(h)
    ensures Coherent(SetTime(h, bound, value))
  {
  }

  /** `SetDay` changes no other day. */
  lemma SetDayOthers(h: OperatingHours, d: Day, v: bool, e: Day)
    requires e != d
    ensures DayOn(SetDay(h, d, v), e) == DayOn(h, e)
  {
    match d
    case Mon => case Tue => case Wed => case Thu => case Fri => case Sat => case Sun =>
  }

  /** Records with the same days select the same set of days. */
  lemma SameDaysSelectSame(a: OperatingHours, b: OperatingHours)
    requires SameDays(a, b)
    ensures SelectedDays(a) == SelectedDays(b)
  {
  }

  /** A set whose members are those of `before` except that `d`'s membership is `v`. */
  lemma SetOneMember(before: set<Day>, after: set<Day>, d: Day, v: bool)
    requires forall e :: e in after <==> if e == d then v else e in before
    ensures after == if v then before + {d} else before - {d}
  {
  }

  /** Flipping one day adds it to or removes it from the selected set, and nothing else. */
  lemma FlipSelected(h: OperatingHours, d: Day)
    ensures SelectedDays(SetDay(h, d, !DayOn(h, d))) ==
      if d in SelectedDays(h) then SelectedDays(h) - {d} else SelectedDays(h) + {d}
  {
    var v := !DayOn(h, d);
    var before, after := SelectedDays(h), SelectedDays(SetDay(h, d, v));
    forall e ensures e in after <==> if e == d then v else e in before {
      if e != d {
        SetDayOthers(h, d, v, e);
      }
    }
    SetOneMember(before, after, d, v);
  }

  /** In set terms, an individual day toggle adds or removes exactly that day. */
  lemma DayToggleFlipsMembership(h: OperatingHours, d: Day)
    ensures SelectedDays(Toggle(h, DayKey(d))) ==
      if d in SelectedDays(h) then SelectedDays(h) - {d} else SelectedDays(h) + {d}
  {
    SameDaysSelectSame(Toggle(h, DayKey(d)), SetDay(h, d, !DayOn(h, d)));
    FlipSelected(h, d);
  }

  /** With `allDays` on in a coherent record, switching any single day off leaves
      `allDays` off and every other day on. */
  lemma DayToggleBreaksAllDays(h: OperatingHours, d: Day)
    requires Coherent(h) && h.allDays
    ensures var r := Toggle(h, DayKey(d));
      && !r.allDays && !DayOn(r, d)
      && SelectedDays(r) == AllWeek - {d}
  {
    assert SelectedDays(h) == AllWeek;
    DayToggleFlipsMembership(h, d);
  }

  /** Toggling `allDays` twice puts back the `allDays` flag, but leaves every day equal to
      that flag: whatever partial selection was there before is gone. */
  lemma AllDaysTwice(h: OperatingHours)
    ensures var r := Toggle(Toggle(h, AllDaysKey), AllDaysKey);
      && r.allDays == h.allDays
      && SelectedDays(r) == (if h.allDays then AllWeek else {})
      && (SelectedDays(r) == SelectedDays(h) <==> SelectedDays(h) == (if h.allDays then AllWeek else {}))
  {
  }

  /** A reachable record on which toggling `allDays` twice is not the identity on days:
      Monday alone, then "all days" on and off again, loses Monday. */
  lemma AllDaysTwiceForgetsPartialSelection()
    ensures var h := Toggle(InitialOperatingHours(), DayKey(Mon));
      && Coherent(h) && SelectedDays(h) == {Mon}
      && SelectedDays(Toggle(Toggle(h, AllDaysKey), AllDaysKey)) == {}
  {
    ToggleKeepsCoherent(InitialOperatingHours(), DayKey(Mon));
    DayToggleFlipsMembership(InitialOperatingHours(), Mon);
    AllDaysTwice(Toggle(InitialOperatingHours(), DayKey(Mon)));
  }

  /** Presses applied one after another, as successive clicks do. */
  function ApplyToggles(h: OperatingHours, keys: seq<ToggleKey>): OperatingHours
    decreases |keys|
  {
    if keys == [] then h else ApplyToggles(Toggle(h, keys[0]), keys[1..])
  }

  function DayKeys(days: seq<Day>): (keys: seq<ToggleKey>)
    ensures |keys| == |days| && forall i :: 0 <= i < |days| ==> keys[i] == DayKey(days[i])
  {
    if days == [] then [] else [DayKey(days[0])] + DayKeys(days[1..])
  }

  /** No day occurs twice. */
  predicate Distinct(days: seq<Day>) {
    days == [] || (days[0] !in days[1..] && Distinct(days[1..]))
  }

  /** Clicking distinct days that are all off, one by one, turns on exactly those days. */
  lemma {:induction false} DistinctDayClicks(h: OperatingHours, days: seq<Day>)
    requires Distinct(days)
    requires forall x :: x in days ==> x !in SelectedDays(h)
    ensures forall x :: x in SelectedDays(ApplyToggles(h, DayKeys(days))) <==> x in SelectedDays(h) || x in days
    decreases |days|
  {
    if days != [] {
      var first, rest := days[0], days[1..];
      var h' := Toggle(h, DayKey(first));
      assert DayKeys(days)[1..] == DayKeys(rest);
      assert ApplyToggles(h, DayKeys(days)) == ApplyToggles(h', DayKeys(rest));
      DayToggleFlipsMembership(h, first);
      assert SelectedDays(h') == SelectedDays(h) + {first};
      assert days == [first] + rest;
      DistinctDayClicks(h', rest);
      var r := ApplyToggles(h', DayKeys(rest));
      forall x ensures x in SelectedDays(r) <==> x in SelectedDays(h) || x in days {
        assert x in days <==> x == first || x in rest;
        assert x in SelectedDays(r) <==> x in SelectedDays(h') || x in rest;
      }
    }
  }

  /** After a non-empty run of day clicks, the last one decided the group flags: `allDays`
      is on exactly when all seven days are, and `weekdays` and `weekend` are off. */
  lemma {:induction false} LastDayClickDecidesGroups(h: OperatingHours, days: seq<Day>)
    requires days != []
    ensures var r := ApplyToggles(h, DayKeys(days));
      && (r.allDays <==> AllSevenOn(r))
      && !r.weekdays && !r.weekend
    decreases |days|
  {
    assert DayKeys(days)[1..] == DayKeys(days[1..]);
    if |days| > 1 {
      LastDayClickDecidesGroups(Toggle(h, DayKey(days[0])), days[1..]);
    }
  }

  /** All seven days are on exactly when the selected set is the whole week. */
  lemma AllSevenSelected(h: OperatingHours)
    ensures AllSevenOn(h) <==> SelectedDays(h) == AllWeek
  {
    if SelectedDays(h) == AllWeek {
      assert Mon in SelectedDays(h) && Tue in SelectedDays(h) && Wed in SelectedDays(h);
      assert Thu in SelectedDays(h) && Fri in SelectedDays(h) && Sat in SelectedDays(h) && Sun in SelectedDays(h);
    }
    if AllSevenOn(h) {
      forall d ensures d in SelectedDays(h) <==> d in AllWeek {
        InWeek(d);
        match d
        case Mon => case Tue => case Wed => case Thu => case Fri => case Sat => case Sun =>
      }
    }
  }

  /** From no day selected, clicking distinct days one by one selects exactly those days,
      leaves `weekdays` and `weekend` off, and turns `allDays` on exactly when the clicks
      covered the whole week. */
  lemma ClicksSelectExactly(h: OperatingHours, days: seq<Day>, target: set<Day>)
    requires SelectedDays(h) == {}
    requires Distinct(days) && days != []
    requires forall x :: x in days <==> x in target
    ensures var r := ApplyToggles(h, DayKeys(days));
      && SelectedDays(r) == target
      && !r.weekdays && !r.weekend
      && (r.allDays <==> target == AllWeek)
  {
    DistinctDayClicks(h, days);
    LastDayClickDecidesGroups(h, days);
    var r := ApplyToggles(h, DayKeys(days));
    assert SelectedDays(r) == target;
    AllSevenSelected(r);
  }

  /** From no day selected, clicking each of the seven days once, in any order, ends with
      `allDays` on. */
  lemma SevenClicksSelectAllDays(h: OperatingHours, days: seq<Day>)
    requires SelectedDays(h) == {}
    requires Distinct(days) && forall d: Day :: d in days
    ensures ApplyToggles(h, DayKeys(days)).allDays
  {
    assert Mon in days;
    forall x ensures x in days <==> x in AllWeek {
      InWeek(x);
    }
    ClicksSelectExactly(h, days, AllWeek);
  }

  /** Monday to Friday, listed once each. */
  lemma WorkWeekListed()
    ensures Distinct([Mon, Tue, Wed, Thu, Fri])
    ensures forall x :: x in [Mon, Tue, Wed, Thu, Fri] <==> x in WorkWeek
  {
  }

  /** The asymmetry of the reducer: from no day selected (as at the start), clicking Monday
      to Friday one by one selects exactly the working week, yet `weekdays` stays off,
      because only `allDays` is derived again. */
  lemma WorkWeekByClicksLeavesWeekdaysOff(h: OperatingHours)
    requires SelectedDays(h) == {}
    ensures var r := ApplyToggles(h, DayKeys([Mon, Tue, Wed, Thu, Fri]));
      SelectedDays(r) == WorkWeek && !r.weekdays && !r.allDays
  {
    WorkWeekListed();
    assert Sat !in WorkWeek;
    ClicksSelectExactly(h, [Mon, Tue, Wed, Thu, Fri], WorkWeek);
  }

  /** The captions of the three group buttons. */
  const GroupLabels: seq<string> := ["Custom", "Weekdays", "Weekend"]

  /** `dayGroup.replace(' ', '').toLowerCase()`. */
  function GroupButtonKey(caption: string): string {
    ToLowerAscii(RemoveFirstSpace(caption))
  }

  /** `day.toLowerCase()`. */
  function DayButtonKey(caption: string): string {
    ToLowerAscii(caption)
  }

  /** How the reducer's `===` tests classify a key string. Strings no button produces give
      `None`. */
  function ParseKey(name: string): Option<ToggleKey> {
    if name == "allDays" then Some(AllDaysKey)
    else if name == "weekdays" then Some(WeekdaysKey)
    else if name == "weekend" then Some(WeekendKey)
    else if name == "mon" then Some(DayKey(Mon))
    else if name == "tue" then Some(DayKey(Tue))
    else if name == "wed" then Some(DayKey(Wed))
    else if name == "thu" then Some(DayKey(Thu))
    else if name == "fri" then Some(DayKey(Fri))
    else if name == "sat" then Some(DayKey(Sat))
    else if name == "sun" then Some(DayKey(Sun))
    else if name == "custom" then Some(CustomKey)
    else None
  }

  /** A key with no upper-case letter is never classified as `allDays`. */
  lemma LowerCaseKeyIsNotAllDays(k: string)
    requires forall i :: 0 <= i < |k| ==> !IsAsciiUpper(k[i])
    ensures ParseKey(k) != Some(AllDaysKey)
  {
    if |k| == 7 {
      assert k[3] != "allDays"[3];
    }
  }

  /** No caption whatever, once lower-cased, is the key `allDays` (it has an upper-case
      `D`), so no button can reach the reducer's `allDays` branch. */
  lemma NoButtonReachesAllDays(caption: string)
    ensures ParseKey(GroupButtonKey(caption)) != Some(AllDaysKey)
    ensures ParseKey(DayButtonKey(caption)) != Some(AllDaysKey)
  {
    LowerCaseKeyIsNotAllDays(GroupButtonKey(caption));
    LowerCaseKeyIsNotAllDays(DayButtonKey(caption));
  }

  /** Lower-casing is determined character by character. */
  predicate LowerCased(s: string, t: string) {
    && |s| == |t|
    && forall i :: 0 <= i < |s| ==> if IsAsciiUpper(s[i]) then t[i] as int == s[i] as int + 32 else t[i] == s[i]
  }

  lemma LowerCaseOf(s: string, t: string)
    requires LowerCased(s, t)
    ensures ToLowerAscii(s) == t
  {
    var r := ToLowerAscii(s);
    forall i | 0 <= i < |s| ensures r[i] == t[i] {
      if IsAsciiUpper(s[i]) {
        assert r[i] as int == t[i] as int;
      }
    }
  }

  /** A caption without a space is only lower-cased. */
  lemma GroupCaptionKey(caption: string, key: string)
    requires ' ' !in caption && LowerCased(caption, key)
    ensures GroupButtonKey(caption) == key
  {
    LowerCaseOf(caption, key);
  }

  /** `custom` passes every one of the reducer's tests and lands in the individual branch. */
  lemma CustomKeyParses()
    ensures ParseKey("custom") == Some(CustomKey)
  {
  }

  lemma CustomButton()
    ensures ParseKey(GroupButtonKey("Custom")) == Some(CustomKey)
  {
    GroupCaptionKey("Custom", "custom");
    CustomKeyParses();
  }

  lemma WeekdaysButton()
    ensures ParseKey(GroupButtonKey("Weekdays")) == Some(WeekdaysKey)
  {
    GroupCaptionKey("Weekdays", "weekdays");
  }

  lemma WeekendButton()
    ensures ParseKey(GroupButtonKey("Weekend")) == Some(WeekendKey)
  {
    GroupCaptionKey("Weekend", "weekend");
  }

  /** The three group buttons send `custom`, `weekdays` and `weekend`, in that order: the
      "Custom" button reaches the individual-key branch with a key no day has. */
  lemma GroupButtonKeys(i: nat)
    requires i < |GroupLabels|
    ensures ParseKey(GroupButtonKey(GroupLabels[i])) == Some([CustomKey, WeekdaysKey, WeekendKey][i])
  {
    if i == 0 { CustomButton(); } else if i == 1 { WeekdaysButton(); } else { WeekendButton(); }
  }

  /** The caption of each day button, `MON` to `SUN`. */
  function DayCaption(d: Day): string {
    match d
    case Mon => "MON"
    case Tue => "TUE"
    case Wed => "WED"
    case Thu => "THU"
    case Fri => "FRI"
    case Sat => "SAT"
    case Sun => "SUN"
  }

  /** The reducer's key for each day, `mon` to `sun`. */
  function DayKeyName(d: Day): string {
    match d
    case Mon => "mon"
    case Tue => "tue"
    case Wed => "wed"
    case Thu => "thu"
    case Fri => "fri"
    case Sat => "sat"
    case Sun => "sun"
  }

  lemma DayKeyNameParses(d: Day)
    ensures ParseKey(DayKeyName(d)) == Some(DayKey(d))
  {
  }

  lemma DayCaptionLowerCased(d: Day)
    ensures DayButtonKey(DayCaption(d)) == DayKeyName(d)
  {
    match d
    case Mon => LowerCaseOf("MON", "mon");
    case Tue => LowerCaseOf("TUE", "tue");
    case Wed => LowerCaseOf("WED", "wed");
    case Thu => LowerCaseOf("THU", "thu");
    case Fri => LowerCaseOf("FRI", "fri");
    case Sat => LowerCaseOf("SAT", "sat");
    case Sun => LowerCaseOf("SUN", "sun");
  }

  /** Each day button sends its own day's key. */
  lemma DayButtonKeys(d: Day)
    ensures ParseKey(DayButtonKey(DayCaption(d))) == Some(DayKey(d))
  {
    DayCaptionLowerCased(d);
    DayKeyNameParses(d);
  }
}
