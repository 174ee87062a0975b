# Onboarding wizard: a Dafny model

This project models the logic of a three-screen hotel onboarding wizard written in React:

- the controller (`App`), which keeps the current step and the record the screens submit into;
- the contact screen (name and phone number);
- the hotel screen (name, size bracket and location);
- the reception screen, which holds:
  - the room count;
  - the operating days and hours, driven by a toggle reducer;
  - the bar-menu attachments;
  - a description.

Each screen keeps its inputs in React state cells. The model turns those cells into a Dafny `class`
whose handler methods say exactly what they change. The pure parts become functions: the submit
gates, the seeding from `initialData`, the toggle reducer, the attachment filter, the time
formatter, and `renderStep` / `getTitle` / `getSubtitle`. Lemmas relate them.

Files and modules:

| file | module | models |
|---|---|---|
| `outcomes.dfy` | `Outcomes` | `Option`, `Result`, and the rejections the gates raise (the source shows them with `alert`) |
| `text.dfy` | `Text` | the JavaScript string operations used: `trim`, `toLowerCase` on ASCII, `replace(' ', '')`, `toString` and `padStart(2, '0')` |
| `operating_hours.dfy` | `Hours` | the operating-hours record, the `handleDayToggle` reducer, `handleTimeChange`, and the mapping from button captions to reducer keys |
| `contact_info_step.dfy` | `ContactInfo` | `ContactInfoStep` |
| `hotel_details_step.dfy` | `HotelDetails` | `HotelDetailsStep` |
| `reception_hours_step.dfy` | `ReceptionHours` | `ReceptionHoursStep`: rooms, attachments, submit gate, time display, and its state cells |
| `app.dfy` | `App` | `App`: the record, the merges, `renderStep`, the step machine, the titles, and its state cells |

Main results:

- **The reducer.**
  - Each branch of the reducer has an exact contract (`PressAllDays`, `PressWeekdays`, `PressWeekend`, `PressDay` and `PressCustom`).
  - The reducer keeps an invariant, `Coherent`: `allDays` means exactly "all seven days on", and a set `weekdays` or `weekend` flag stands for exactly its own days.
  - An individual-day click re-derives only `allDays`, never `weekdays` or `weekend`. So clicking Monday to Friday one by one selects the working week but leaves `weekdays` off (`WorkWeekByClicksLeavesWeekdaysOff`).
- **The "Custom" button.**
  - Its caption is lower-cased to the key `custom`, which is not the reducer's `allDays`.
  - That key lands in the individual-day branch: it flips a stray `custom` field and clears the group flags.
  - No caption, once lower-cased, can be `allDays` (`NoButtonReachesAllDays`).
- **Toggling `allDays` twice** does not put the days back: a partial selection is lost (`AllDaysTwiceForgetsPartialSelection`).
- **Time display.** `formatTimeForDisplay` loses nothing. The 12-hour text it produces reads back to the original hours and minutes, and hours 0 and 12 are told apart by the suffix (`FormatTimeRoundTrip`).
- **The step machine.**
  - Its only transitions are 1→2, 2→1, 2→3, 3→2 and 3→4, and step 4 is terminal.
  - On any path of gated submissions and back-clicks, the record shown on step 4 passes all three gates (`CompletedRecordPassedEveryGate`).
  - Going back re-seeds the hotel and reception screens from the record. The contact screen, by contrast, comes back blank while the record keeps the contact data.

## Model

| member | source | states |
|---|---|---|
| Text.Trim | src/components/ContactInfoStep.tsx:19 | `trim()` returns the slice of the string left after a whitespace prefix and a whitespace suffix are removed; it is `''` exactly when every character is ECMAScript whitespace, and otherwise its first and last characters are not whitespace, so exactly the outer whitespace goes |
| Text.ToLowerAscii | src/components/ReceptionHoursStep.tsx:220 | lower-casing keeps the length, turns each ASCII capital into its small letter and leaves every other character alone |
| Text.IndexOfSpace | src/components/ReceptionHoursStep.tsx:220 | the search behind `replace(' ', '')`: -1 exactly when there is no space, otherwise a position holding a space with no space before it |
| Text.RemoveFirstSpace | src/components/ReceptionHoursStep.tsx:220 | `replace(' ', '')` with a string pattern deletes exactly the first space and keeps every other character in order; a string without a space is returned unchanged |
| Text.DecimalText | src/components/ReceptionHoursStep.tsx:194 | `toString` of a natural is a non-empty digit string without a leading zero whose value is the number; one digit exactly below 10 |
| Text.ShortDecimalText | src/components/ReceptionHoursStep.tsx:193-194 | for numbers below 100 the two-character spelling agrees with `DecimalText` |
| Text.PadStart2 | src/components/ReceptionHoursStep.tsx:194 | `padStart(2, '0')` ends with the original string, is at least two long, and only adds zeros in front |
| Hours.SetDay | src/components/ReceptionHoursStep.tsx:93 | writing one day key sets that day and leaves the three group flags, both bounds and `custom` as they were |
| Hours.SetDayOthers | src/components/ReceptionHoursStep.tsx:93 | writing one day key leaves every other day as it was |
| Hours.InitialOperatingHours | src/components/ReceptionHoursStep.tsx:29-42 | the default hours select no day and no group, are coherent, and run from `09:00` to `21:00` |
| Hours.ClearGroupsAndRederive | src/components/ReceptionHoursStep.tsx:94-101 | the tail of the individual branch keeps the days, clears `weekdays`/`weekend`, and sets `allDays` exactly when all seven days are on |
| Hours.PressAllDays | src/components/ReceptionHoursStep.tsx:62-70 | `allDays` flips; switched on, every day is on and the other groups are off; switched off, every day is off and the other groups are kept |
| Hours.PressWeekdays | src/components/ReceptionHoursStep.tsx:71-80 | `weekdays` flips; switched on, exactly Monday to Friday are on and the other groups are off; switched off, only Monday to Friday are cleared |
| Hours.PressWeekend | src/components/ReceptionHoursStep.tsx:81-90 | `weekend` flips; switched on, exactly Saturday and Sunday are on and the other groups are off; switched off, only Saturday and Sunday are cleared |
| Hours.PressDay | src/components/ReceptionHoursStep.tsx:91-101 | a day key flips exactly that day, keeps the other six, clears `weekdays` and `weekend`, and sets `allDays` iff all seven are on |
| Hours.PressCustom | src/components/ReceptionHoursStep.tsx:91-101 | the `custom` key flips the stray field, keeps every day, clears `weekdays` and `weekend`, and re-derives `allDays` |
| Hours.ParseKey | src/components/ReceptionHoursStep.tsx:62-93 | the reducer's `===` tests: `allDays`, `weekdays` and `weekend` pick their branches, the seven day names and `custom` fall to the individual branch, and strings no button produces give `None`; `CustomKeyParses`, `DayKeyNameParses` and `NoButtonReachesAllDays` state what the buttons' keys reach |
| Hours.Toggle | src/components/ReceptionHoursStep.tsx:59-105 | no key touches `from` or `to`; only the `custom` key touches `custom` |
| Hours.SetTime | src/components/ReceptionHoursStep.tsx:107-109 | the named bound takes the value, the other fields are unchanged, and the bounds are never compared |
| Hours.CoherentGroupsExclusive | src/components/ReceptionHoursStep.tsx:59-105 | in a coherent record at most one group flag is set |
| Hours.ToggleKeepsCoherent | src/components/ReceptionHoursStep.tsx:59-105 | every key, including `custom`, keeps the record coherent |
| Hours.SetTimeKeepsCoherent | src/components/ReceptionHoursStep.tsx:107-109 | changing a time keeps the record coherent |
| Hours.FlipSelected | src/components/ReceptionHoursStep.tsx:93 | flipping one day adds it to, or removes it from, the selected set and changes nothing else |
| Hours.DayToggleFlipsMembership | src/components/ReceptionHoursStep.tsx:91-101 | as a set, a day click adds or removes exactly that day |
| Hours.DayToggleBreaksAllDays | src/components/ReceptionHoursStep.tsx:91-101 | with `allDays` on, switching one day off leaves `allDays` off and the other six days on |
| Hours.AllDaysTwice | src/components/ReceptionHoursStep.tsx:62-70 | two `allDays` presses restore the flag but leave every day equal to it; the days come back only if they already matched the flag |
| Hours.AllDaysTwiceForgetsPartialSelection | src/components/ReceptionHoursStep.tsx:62-70 | from Monday alone, two `allDays` presses leave no day selected |
| Hours.DistinctDayClicks | src/components/ReceptionHoursStep.tsx:91-101 | clicking distinct unselected days one by one selects exactly those days in addition |
| Hours.LastDayClickDecidesGroups | src/components/ReceptionHoursStep.tsx:94-101 | after day clicks, `weekdays` and `weekend` are off and `allDays` is on iff all seven days are |
| Hours.AllSevenSelected | src/components/ReceptionHoursStep.tsx:98 | the `every` over the seven keys holds iff the selected set is the whole week |
| Hours.ClicksSelectExactly | src/components/ReceptionHoursStep.tsx:91-101 | from no selection, distinct day clicks select exactly the clicked days, and `allDays` comes on iff they cover the week |
| Hours.SevenClicksSelectAllDays | src/components/ReceptionHoursStep.tsx:98-101 | from no selection, clicking all seven days in any order turns `allDays` on |
| Hours.WorkWeekByClicksLeavesWeekdaysOff | src/components/ReceptionHoursStep.tsx:94-101 | from no selection, clicking Monday to Friday selects the working week yet leaves `weekdays` and `allDays` off |
| Hours.LowerCaseKeyIsNotAllDays | src/components/ReceptionHoursStep.tsx:62 | a key without capitals never equals `allDays` |
| Hours.NoButtonReachesAllDays | src/components/ReceptionHoursStep.tsx:219-240 | no caption, whether through the group or the day lower-casing, yields the key `allDays` |
| Hours.GroupButtonKey | src/components/ReceptionHoursStep.tsx:220 | a group button's key is its caption with the first space removed, then lower-cased; `GroupCaptionKey` and `GroupButtonKeys` give the three keys |
| Hours.DayButtonKey | src/components/ReceptionHoursStep.tsx:240 | a day button's key is its caption lower-cased; `DayCaptionLowerCased` gives `mon` to `sun` |
| Hours.GroupCaptionKey | src/components/ReceptionHoursStep.tsx:220 | a caption without a space becomes its lower-cased form |
| Hours.CustomKeyParses | src/components/ReceptionHoursStep.tsx:91-93 | `custom` fails the three group tests and reaches the individual branch |
| Hours.CustomButton | src/components/ReceptionHoursStep.tsx:219-220 | the "Custom" button sends `custom`, not `allDays` |
| Hours.WeekdaysButton | src/components/ReceptionHoursStep.tsx:219-220 | the "Weekdays" button sends `weekdays` |
| Hours.WeekendButton | src/components/ReceptionHoursStep.tsx:219-220 | the "Weekend" button sends `weekend` |
| Hours.GroupButtonKeys | src/components/ReceptionHoursStep.tsx:219-233 | the three group buttons send `custom`, `weekdays`, `weekend` in order |
| Hours.DayKeyNameParses | src/components/ReceptionHoursStep.tsx:91-93 | each day's key reaches the individual branch for that day |
| Hours.DayCaptionLowerCased | src/components/ReceptionHoursStep.tsx:239-240 | `MON` to `SUN` lower-case to `mon` to `sun` |
| Hours.DayButtonKeys | src/components/ReceptionHoursStep.tsx:239-253 | each day button toggles its own day |
| ReceptionHours.Accepted | src/components/ReceptionHoursStep.tsx:114-128 | the filter callback: the MIME type is one of PDF, JPEG and PNG, and the size is at most `10 * 1024 * 1024`; `SizeLimitInclusive` fixes the boundary |
| ReceptionHours.SizeLimitInclusive | src/components/ReceptionHoursStep.tsx:117-125 | a listed file of exactly 10485760 bytes is kept and one byte more is refused |
| ReceptionHours.KeepAccepted | src/components/ReceptionHoursStep.tsx:114-128 | a file is kept iff its type is PDF, JPEG or PNG and its size is at most 10 MiB; the result is never longer |
| ReceptionHours.KeepAcceptedAppend | src/components/ReceptionHoursStep.tsx:114-128 | filtering a concatenation filters each part in order, so kept files keep their relative order |
| ReceptionHours.KeepAcceptedCounts | src/components/ReceptionHoursStep.tsx:114-128 | every copy of an accepted file survives and no copy of a refused one does |
| ReceptionHours.FilterAccepted | src/components/ReceptionHoursStep.tsx:148-162 | the single pass over the selection yields exactly the filtered list |
| ReceptionHours.DropPositionRemovesOne | src/components/ReceptionHoursStep.tsx:136 | the index filter drops the entry at that index when there is one, and nothing otherwise |
| ReceptionHours.RemoveAt | src/components/ReceptionHoursStep.tsx:135-137 | removing index `i` gives the list without its `i`-th entry; an index outside the list changes nothing |
| ReceptionHours.ClampRooms | src/components/ReceptionHoursStep.tsx:54-57 | the room count is never negative, keeps a non-negative parse, and is non-zero only for that parse |
| ReceptionHours.Seed | src/components/ReceptionHoursStep.tsx:45-50 | absent `initialData` gives 0 rooms, the default hours and `''`; present, its values are taken unchanged |
| ReceptionHours.Validate | src/components/ReceptionHoursStep.tsx:168-187 | accepted iff rooms > 0, a day or group is on, and both bounds are non-empty; otherwise the first failing check in that order; on acceptance exactly rooms, hours and description |
| ReceptionHours.AnyDaySelected | src/components/ReceptionHoursStep.tsx:174-176 | `anyDaySelected`: one of the seven days or one of the three group flags is on, and the stray `custom` flag is not consulted; `AnyDayIsSelection` states it in set terms |
| ReceptionHours.AnyDayIsSelection | src/components/ReceptionHoursStep.tsx:174-176 | the ten-way `||` equals "some day selected or some group flag set" |
| ReceptionHours.CoherentDayCheck | src/components/ReceptionHoursStep.tsx:174-176 | on a coherent record the day check passes iff some individual day is on |
| ReceptionHours.CustomAloneIsNoDay | src/components/ReceptionHoursStep.tsx:174-180 | pressing "Custom" on the default hours still fails the day check |
| ReceptionHours.ClockHours | src/components/ReceptionHoursStep.tsx:191 | `Number` of the two digits before the colon; `TwoDigitValue` gives its value |
| ReceptionHours.ClockMinutes | src/components/ReceptionHoursStep.tsx:191 | `Number` of the two digits after the colon; `PaddedTwoDigits` shows the display gives those digits back |
| ReceptionHours.TwoDigitValue | src/components/ReceptionHoursStep.tsx:191 | `Number` of two digits is ten times the first plus the second |
| ReceptionHours.PaddedTwoDigits | src/components/ReceptionHoursStep.tsx:194 | padding the number of two typed digits gives those digits back |
| ReceptionHours.DisplayText | src/components/ReceptionHoursStep.tsx:194 | the template literal puts the hour first, then `:`, the minutes, a space and the suffix at fixed distances from the end |
| ReceptionHours.ClockFace | src/components/ReceptionHoursStep.tsx:193 | the displayed hour lies in 1..12 and agrees with the hour modulo 12 |
| ReceptionHours.Meridiem | src/components/ReceptionHoursStep.tsx:192 | the suffix is always two characters: `PM` from hour 12 on, otherwise `AM` (`FormatTimeSuffix`) |
| ReceptionHours.FormatTimeForDisplay | src/components/ReceptionHoursStep.tsx:189-195 | the output is empty exactly for empty input, and otherwise at least seven characters |
| ReceptionHours.FormatTimeParts | src/components/ReceptionHoursStep.tsx:189-195 | the output is the clock-face hour, the two typed minute digits and the suffix |
| ReceptionHours.FormatTimeSuffix | src/components/ReceptionHoursStep.tsx:192 | the suffix is `PM` iff hours ≥ 12 and `AM` iff hours < 12 |
| ReceptionHours.FormatTimeMinutes | src/components/ReceptionHoursStep.tsx:194 | the minutes appear as the two typed digits, zero padding included |
| ReceptionHours.FormatTimeSeparators | src/components/ReceptionHoursStep.tsx:194 | a colon separates the hour from the minutes and a space separates the minutes from the suffix |
| ReceptionHours.DisplayedHour | src/components/ReceptionHoursStep.tsx:193-194 | the displayed hour is the decimal clock face of the hour, without padding; 0 and 12 both show as 12 |
| ReceptionHours.ParseDisplayText | src/components/ReceptionHoursStep.tsx:192-194 | the display text of any hour below 24 reads back to that hour and minute |
| ReceptionHours.FormatTimeRoundTrip | src/components/ReceptionHoursStep.tsx:189-195 | for every valid time of day the display reads back to the original hours and minutes |
| ReceptionHours.ToggledHours | src/components/ReceptionHoursStep.tsx:60-104 | the field-by-field assignment of the updater computes the reducer `Toggle` |
| ReceptionHours.ReceptionHoursForm.constructor | src/components/ReceptionHoursStep.tsx:45-50 | the cells start from `Seed(initialData)` and no attachment |
| ReceptionHours.ReceptionHoursForm.ChangeTotalRooms | src/components/ReceptionHoursStep.tsx:54-57 | the room cell becomes the clamped parse; the other cells are unchanged |
| ReceptionHours.ReceptionHoursForm.ToggleDay | src/components/ReceptionHoursStep.tsx:59-105 | the hours cell becomes `Toggle` of the old one, stays coherent if it was, and no other cell changes |
| ReceptionHours.ReceptionHoursForm.ChangeTime | src/components/ReceptionHoursStep.tsx:107-109 | the hours cell gets the new bound and no other cell changes |
| ReceptionHours.ReceptionHoursForm.AddFiles | src/components/ReceptionHoursStep.tsx:111-133 | with a file list (also `handleDrop`, 143-166), the accepted files are appended after the held ones; without one, nothing changes |
| ReceptionHours.ReceptionHoursForm.RemoveFile | src/components/ReceptionHoursStep.tsx:135-137 | the attachment list becomes `RemoveAt` of the old one and no other cell changes |
| ReceptionHours.ReceptionHoursForm.ChangeDescription | src/components/ReceptionHoursStep.tsx:355 | the description cell takes the value and no other cell changes |
| ReceptionHours.ReceptionHoursForm.Submit | src/components/ReceptionHoursStep.tsx:168-187 | the early-return checks give exactly `Validate` of the cells |
| ContactInfo.Seed | src/components/ContactInfoStep.tsx:13-14 | absent `initialData` gives empty fields; present, the `\|\| ''` fallback leaves its values unchanged |
| ContactInfo.Validate | src/components/ContactInfoStep.tsx:16-24 | accepted iff name and phone number each hold a non-whitespace character; then both exactly as typed, untrimmed |
| ContactInfo.ContactInfoForm.constructor | src/components/ContactInfoStep.tsx:13-14 | the cells start from `Seed(initialData)` |
| ContactInfo.ContactInfoForm.SetName | src/components/ContactInfoStep.tsx:38 | the name cell takes the value; the phone cell is unchanged |
| ContactInfo.ContactInfoForm.SetPhoneNumber | src/components/ContactInfoStep.tsx:61 | the phone cell takes the value; the name cell is unchanged |
| ContactInfo.ContactInfoForm.Submit | src/components/ContactInfoStep.tsx:16-24 | the submit handler gives exactly `Validate` of the cells |
| HotelDetails.Seed | src/components/HotelDetailsStep.tsx:15-17 | absent `initialData` gives empty fields; present, its values unchanged |
| HotelDetails.Validate | src/components/HotelDetailsStep.tsx:19-27 | accepted iff all three fields hold a non-whitespace character; then the three exactly as held |
| HotelDetails.SizeOptionGate | src/components/HotelDetailsStep.tsx:58-61 | with name and location given, exactly the placeholder option `''` is rejected |
| HotelDetails.HotelDetailsForm.constructor | src/components/HotelDetailsStep.tsx:15-17 | the cells start from `Seed(initialData)` |
| HotelDetails.HotelDetailsForm.SetHotelName | src/components/HotelDetailsStep.tsx:41 | the name cell takes the value; the others are unchanged |
| HotelDetails.HotelDetailsForm.SetHotelSize | src/components/HotelDetailsStep.tsx:55 | the size cell takes the value; the others are unchanged |
| HotelDetails.HotelDetailsForm.SetHotelLocation | src/components/HotelDetailsStep.tsx:75 | the location cell takes the value; the others are unchanged |
| HotelDetails.HotelDetailsForm.Submit | src/components/HotelDetailsStep.tsx:19-27 | the submit handler gives exactly `Validate` of the cells |
| App.InitialFormData | src/App.tsx:42-52 | the starting record: empty contact and hotel fields, 0 rooms, the default hours and an empty description; `InitialRecordIsBlank` ties it to each screen's own defaults |
| App.PartsDetermineRecord | src/App.tsx:42-52 | the contact, hotel and reception parts together determine the record |
| App.InitialRecordIsBlank | src/App.tsx:24-52 | seeding any screen from the starting record gives the same cells as seeding it from nothing |
| App.MergeContact | src/App.tsx:54-56 | the contact part becomes the submitted data; the hotel and reception parts are unchanged |
| App.MergeHotel | src/App.tsx:60-62 | the hotel part becomes the submitted data; the other parts are unchanged |
| App.MergeReception | src/App.tsx:66-74 | rooms, hours and description become the submitted ones; the other parts are unchanged |
| App.ResubmitReplaces | src/App.tsx:54-74 | submitting a screen again keeps only the last submission |
| App.MergesCommute | src/App.tsx:54-74 | submissions of different screens commute |
| App.RenderStep | src/App.tsx:88-135 | the fallback text is shown exactly for steps outside 1..4 |
| App.Offers | src/App.tsx:90-111 | the callbacks each screen is given: `onNext` to the three screens, `onBack` to the hotel and reception screens, none to the summary or the fallback |
| App.Handle | src/App.tsx:54-86 | the five handlers: each sets its step, the submit handlers merge their screen's part, and the back handlers leave the record alone; `Fire`, `FireFollowsEdge` and `EdgeIsTaken` state the moves |
| App.Fire | src/App.tsx:88-135 | a handler fires iff the current screen was given it; the back handlers leave the record unchanged |
| App.FireFollowsEdge | src/App.tsx:88-135 | every possible handler moves 1→2, 2→1, 2→3, 3→2 or 3→4 |
| App.EdgeIsTaken | src/App.tsx:88-135 | each of those five moves is available from its step, whatever the record |
| App.CompleteIsTerminal | src/App.tsx:112-132 | the summary offers no handler, so step 4 is never left |
| App.FireKeepsPastGates | src/App.tsx:54-86 | a gated submission or a back-click keeps "every passed screen's data passes its gate" |
| App.RunKeepsPastGates | src/App.tsx:54-86 | any sequence of gated submissions and back-clicks keeps that invariant |
| App.CompletedRecordPassedEveryGate | src/App.tsx:112-130 | whatever the path, the record summarised on step 4 passes all three gates |
| App.BackShowsSubmittedHotel | src/App.tsx:93-98 | back from the reception screen, the hotel screen opens with the last submitted hotel data |
| App.ReturnShowsStoredReception | src/App.tsx:100-111 | back to the hotel screen and forward again, the reception screen opens with the stored reception data |
| App.BackToContactShowsBlank | src/App.tsx:90-91 | back to the contact screen, the inputs are blank while the record keeps the contact data |
| App.Title | src/App.tsx:139-151 | `getTitle`: the greeting title on steps 1 and 2, its own title on 3, on 4 and on any other step; `TitleNamesPhase` states that |
| App.Subtitle | src/App.tsx:153-163 | `getSubtitle`: the greeting subtitle on steps 1 and 2, the hours caption on 3, blank otherwise; `SubtitleFollowsPhase` states that |
| App.TitleNamesPhase | src/App.tsx:139-151 | two steps share a title iff they are in the same phase: 1 and 2 share the greeting, 3, 4 and any other value each have their own |
| App.SubtitleFollowsPhase | src/App.tsx:153-163 | the subtitle depends on the phase only, and is blank exactly from step 4 on and for unknown steps |
| App.Wizard.constructor | src/App.tsx:41-52 | the wizard starts on step 1 with the empty record and the default hours |
| App.Wizard.SubmitContact | src/App.tsx:54-58 | from step 1, go to step 2 with the contact part merged; this is `Fire` of the contact `onNext` |
| App.Wizard.SubmitHotel | src/App.tsx:60-64 | from step 2, go to step 3 with the hotel part merged; this is `Fire` of the hotel `onNext` |
| App.Wizard.SubmitReception | src/App.tsx:66-76 | from step 3, go to step 4 with the reception part merged; this is `Fire` of the reception `onNext` |
| App.Wizard.BackTo1 | src/App.tsx:80-82 | from step 2, go to step 1 with the record untouched |
| App.Wizard.BackTo2 | src/App.tsx:84-86 | from step 3, go to step 2 with the record untouched |

## Left out

- `src/components/OnboardingLayout.tsx` is not part of this model: it is layout without logic.
- JSX markup, CSS classes and button highlighting are not modelled.
- `alert` and `console.log` are not modelled. A rejection is a `Result.Err` naming the failed check, and a refused attachment is simply not kept.
- DOM and browser plumbing are not modelled: `useRef`, the hidden file input, drag-over, `preventDefault`, and clearing `e.target.value`. A `File` is only its name, MIME type and size.
- The `JSON.stringify` replacer on the summary screen is left out. It is a library call, and the record never holds `File` objects, so its `File` case never fires. The summary is modelled as the record itself (`CompleteView`).
- React's state scheduling is not modelled. Each handler is one atomic state change, and an updater passed to a setter is applied to the current value.
- The handler's requirement on the step: the wizard methods require the step on which their screen is shown. The source's handlers are only ever given to that screen, and `Fire` shows the same thing without a requirement.
- ReceptionHours.ReceptionHoursForm.ChangeTotalRooms: `parseInt(value, 10)` is an input of type `Option<int>`, with `None` for NaN. Parsing the text itself is not modelled.
- ReceptionHours.FormatTimeForDisplay: it is specified only for `''` and text of the shape `HH:MM`, which is what a time input produces. Malformed text (NaN arithmetic) is not modelled. The round trip is proved for hours below 24.
- Text.ToLowerAscii: it lowers ASCII letters only. The captions it is applied to are ASCII, and full Unicode case mapping is not modelled.
- Text.Trim: it uses the ECMAScript WhiteSpace and LineTerminator code points as a fixed set, written out in `IsWhitespace`.
- The attachments stay on the reception screen and are never part of what it submits. This matches the source, where the record has no files field.
- Hours.OperatingHours has a `custom` field that the source's type does not declare. The "Custom" button creates it at run time. Its absence (`undefined`) behaves like `false` under `!`, and that is how the model starts it.

## Findings

None. Where the code differs from a natural reading, the model follows the code and proves what it does:
- the "Custom" button never reaches the `allDays` branch;
- day clicks never set `weekdays` or `weekend`;
- toggling `allDays` twice loses a partial selection.
