# OOBE dashboards — a verified model of their core logic

OOBE is a set of React dashboards for devices managed by Astarte.
This project models the logic underneath those dashboards. A shared 20-point window holds the telemetry charts of the
industrial and medical alert-management pages. Each page dispatches updates by field, opens an alarm sidebar on a
"fault" status, and keeps an HH:MM clock (also kept by the main dashboard). The property chart has a colour map and a
capitalised real-time label. The smart-building app's history table shows ten rows a page. Its date-range selector
offers four presets and normalises the chosen end date. Three Astarte REST clients build request paths, query records,
authorisation headers and reply fallbacks.

The model is written in Dafny, with one module per source file or shared concept:

- `Wrappers`: Option and Result.
- `Decimal`: a number's decimal text, with its parse.
- `Clock`: the page clock.
- `PropertyChart`: the chart colours and the real-time label.
- `Telemetry`: the 20-point window.
- `IndustrialAlerts` and `MedicalAlerts`: the two alert-management pages.
- `CameraHistoryTable`: the paginated history table.
- `DateRanges`: the date-range selector.
- `Astarte`: what the three REST clients share.
- `SmartBuildingClient`, `IndustrialClient` and `MedicalClient`: the three REST clients.

Pages whose hooks update state cells in place are classes. Each such class has one field per state cell, and each
handler is a method. A handler's contract ties the new state to a pure function of the old one, and the properties
are proved as lemmas about that function. The clock (`Date.now()`, `new Date()`), `toISOString` and the HTTP call
are parameters of the operations that use them.

## Model

| member | source | states |
|---|---|---|
| Decimal.NatToString | oobe/src/pages/Dashboard.tsx:11 | `String(n)` of a natural number: at least one character, all of them digits, no leading zero, one digit below 10 and at most two below 100 |
| Decimal.IntToString | oobe-apps/smart-building-app/src/api/AstarteAPIClient.ts:79 | `limit.toString()` of an integer: digits, with a leading minus sign for negative values (for magnitudes below 10^21, see Left out) |
| Decimal.ParseNatToString | oobe/src/pages/Dashboard.tsx:11 | reading the decimal text back yields the number |
| Decimal.NatToStringInjective | oobe/src/pages/Dashboard.tsx:11 | different numbers have different decimal texts |
| Decimal.ParseIntToString | oobe-apps/smart-building-app/src/api/AstarteAPIClient.ts:79 | the limit's text reads back as the limit, with its sign |
| Clock.PadStart | oobe/src/pages/Dashboard.tsx:11-12 | `padStart(width, "0")`: the result is the input, preceded by just enough zeros to reach the width |
| Clock.FormatClock | oobe/src/pages/Dashboard.tsx:11-13 | the HH:MM text of an hour and a minute; its characters are stated by `Clock.ClockChars`, its shape by `Clock.ClockShape` and its inverse by `Clock.ClockRoundTrip` |
| Clock.TwoDigitField | oobe/src/pages/Dashboard.tsx:11-12 | a padded hour or minute below 100 is its tens digit followed by its units digit |
| Clock.ClockChars | oobe/src/pages/Dashboard.tsx:11-13 | the clock text `FormatClock` gives is the tens and units of the hour, a colon, then the tens and units of the minute |
| Clock.ClockShape | oobe/src/pages/Dashboard.tsx:11-13 | for an hour below 24 and a minute below 60, the clock is five characters, with a colon in the middle and digits elsewhere |
| Clock.ClockLeadingZeros | oobe/src/pages/Dashboard.tsx:11-13 | a field starts with 0 exactly when its value is below 10 |
| Clock.ClockRoundTrip | oobe/src/pages/Dashboard.tsx:11-13 | the hour and minute can be read back from the clock text |
| Clock.Dashboard.constructor | oobe/src/pages/Dashboard.tsx:7 | the dashboard clock starts empty |
| Clock.Dashboard.UpdateTime | oobe/src/pages/Dashboard.tsx:9-14 | `updateTime` stores the HH:MM text of the given hour and minute |
| PropertyChart.Colors | oobe/src/components/PropertyChart.tsx:55-62 | blue maps to #00C2FF, orange to #FF6B00, red to #FF0000, and anything else, absent included, to #0FFF00; each in both directions |
| PropertyChart.ColorsCollide | oobe/src/components/PropertyChart.tsx:55-62 | two colour choices draw alike exactly when they are equal or both fall to the green default |
| PropertyChart.ToUpper | oobe/src/components/PropertyChart.tsx:66 | lower-case ASCII letters become upper-case; every other character is kept |
| PropertyChart.JsString | oobe/src/components/PropertyChart.tsx:66 | `String(val)`: the text itself, or "undefined" when absent; `PropertyChart.DisplayFallback` states what it shows |
| PropertyChart.CapitalizeFirstLetter | oobe/src/components/PropertyChart.tsx:65-67 | same length as `String(val)`, an upper-cased first character, the rest unchanged |
| PropertyChart.CapitalizeIdempotent | oobe/src/components/PropertyChart.tsx:65-67 | capitalising twice is capitalising once |
| PropertyChart.DisplayText | oobe/src/components/PropertyChart.tsx:77 | the capitalised real-time text, or "Loading..." when that is empty; its three cases are stated by `PropertyChart.DisplayFallback` |
| PropertyChart.DisplayFallback | oobe/src/components/PropertyChart.tsx:77 | an empty label shows "Loading..."; an absent label shows "Undefined"; any other label shows its capitalised text |
| Telemetry.KeepLast | oobe/src/pages/IndustrialAlertManagement.tsx:91 | `slice(-k)` for k > 0: the last min(n, k) elements, in order |
| Telemetry.Window | oobe/src/pages/IndustrialAlertManagement.tsx:90-93 | the new series ends with the new point, keeps the newest earlier points in order, and has min(n + 1, 20) elements |
| Telemetry.StatusSample | oobe/src/pages/IndustrialAlertManagement.tsx:134 | a status sample is 1 exactly when the status is the good value, and 0 otherwise; the medical page uses it the same way at oobe/src/pages/MedicalAlertManagement.tsx:112 and 122 |
| Telemetry.KeepLastTwice | oobe/src/pages/IndustrialAlertManagement.tsx:91 | trimming to a window, then to a smaller non-empty one, is trimming to the smaller one |
| Telemetry.ReplayKeepsNewest | oobe/src/pages/IndustrialAlertManagement.tsx:90-93 | feeding points one by one through the window, starting from an empty series, leaves the last 20 of them, in order |
| Telemetry.WindowOfNewest | oobe/src/pages/IndustrialAlertManagement.tsx:90-93 | sliding the window of the last 20 points of a history by one new point gives the last 20 points of the longer history |
| IndustrialAlerts.ParseField | oobe/src/pages/IndustrialAlertManagement.tsx:87-139 | the case the `switch` takes is the field whose tag matches, and no field otherwise |
| IndustrialAlerts.Initial | oobe/src/pages/IndustrialAlertManagement.tsx:48-71 | all series start empty, the numeric cells start at 0, the status starts empty, the sidebar is closed |
| IndustrialAlerts.Sample | oobe/src/pages/IndustrialAlertManagement.tsx:89-136 | numeric fields plot their value; the status plots 1 for "working" and 0 otherwise |
| IndustrialAlerts.Apply | oobe/src/pages/IndustrialAlertManagement.tsx:86-141 | `handleUpdate` on the page state; stated by `IndustrialAlerts.ApplyUnknownField`, `ApplyOwnField`, `ApplyOtherFields`, `ApplyStatusPoint` and `ApplyKeepsWindowsBounded` |
| IndustrialAlerts.ApplyUnknownField | oobe/src/pages/IndustrialAlertManagement.tsx:138-139 | an update whose tag matches no field leaves the page unchanged |
| IndustrialAlerts.ApplyOwnField | oobe/src/pages/IndustrialAlertManagement.tsx:86-127 | an update sets its field's real-time cell and slides that field's window |
| IndustrialAlerts.ApplyOtherFields | oobe/src/pages/IndustrialAlertManagement.tsx:86-141 | an update leaves every other field, the sidebar and the clock unchanged |
| IndustrialAlerts.ApplyStatusPoint | oobe/src/pages/IndustrialAlertManagement.tsx:128-136 | a status update appends a point stamped `now`, whose value is 1 exactly when the status is "working" |
| IndustrialAlerts.ApplyKeepsWindowsBounded | oobe/src/pages/IndustrialAlertManagement.tsx:90-93 | an update keeps every series within 20 points |
| IndustrialAlerts.ApplyAllLast | oobe/src/pages/IndustrialAlertManagement.tsx:86-141 | after a run of updates, the last one, if it is to field f, slides f's window of the state before it and sets f's real-time cell |
| IndustrialAlerts.ApplyAllKeepsNewest | oobe/src/pages/IndustrialAlertManagement.tsx:86-141 | a run of `handleUpdate` calls, all to field f, leaves f's series as the last 20 of its old points followed by the new points stamped with their times, and f's real-time cell as the last value sent |
| IndustrialAlerts.ReplayFromInitial | oobe/src/pages/IndustrialAlertManagement.tsx:48-141 | from the initial page, a run of updates to one field leaves that field's chart as the last 20 of those updates' points, in order |
| IndustrialAlerts.Stamped | oobe/src/pages/IndustrialAlertManagement.tsx:88-136 | the points a run of updates to one field plots: one per update, stamped with its time and holding its sample |
| IndustrialAlerts.ClickStatusCard | oobe/src/pages/IndustrialAlertManagement.tsx:229-233 | clicking the status card opens the sidebar exactly when the status is "fault", and changes nothing else |
| IndustrialAlerts.StatusCardColors | oobe/src/pages/IndustrialAlertManagement.tsx:237 | the status card colour `IndustrialAlerts.StatusCardColor` gives is red exactly while the status is "fault", and green otherwise |
| IndustrialAlerts.StatusCardColor | oobe/src/pages/IndustrialAlertManagement.tsx:237 | the chart colour of the status card; its two cases are stated by `IndustrialAlerts.StatusCardColors` |
| IndustrialAlerts.IndustrialAlertManagement.constructor | oobe/src/pages/IndustrialAlertManagement.tsx:48-71 | the component starts in the initial state, with its windows bounded |
| IndustrialAlerts.IndustrialAlertManagement.SetCells | oobe/src/pages/IndustrialAlertManagement.tsx:86-137 | one branch's two setter calls replace that field's two cells and nothing else |
| IndustrialAlerts.IndustrialAlertManagement.HandleUpdate | oobe/src/pages/IndustrialAlertManagement.tsx:86-141 | `handleUpdate` moves the page to the state `Apply` gives, keeping every window within 20 points |
| IndustrialAlerts.IndustrialAlertManagement.OnStatusCardClick | oobe/src/pages/IndustrialAlertManagement.tsx:229-233 | the click handler moves the page to the state `ClickStatusCard` gives |
| IndustrialAlerts.IndustrialAlertManagement.OnSidebarHide | oobe/src/pages/IndustrialAlertManagement.tsx:245 | hiding the sidebar closes it and changes nothing else |
| IndustrialAlerts.IndustrialAlertManagement.UpdateTime | oobe/src/pages/IndustrialAlertManagement.tsx:73-78 | the clock cell becomes the HH:MM text, and nothing else changes |
| MedicalAlerts.ParseField | oobe/src/pages/MedicalAlertManagement.tsx:81-128 | the case the `switch` takes is the field whose tag matches, and no field otherwise |
| MedicalAlerts.Initial | oobe/src/pages/MedicalAlertManagement.tsx:42-65 | all series start empty, numeric cells start at 0, text cells start empty, the sidebar is closed |
| MedicalAlerts.Sample | oobe/src/pages/MedicalAlertManagement.tsx:85-124 | numeric fields plot their value; cooling plots 1 for "Running", the status plots 1 for "ready", and both plot 0 otherwise |
| MedicalAlerts.Apply | oobe/src/pages/MedicalAlertManagement.tsx:80-129 | `handleUpdate` on the page state; stated by `MedicalAlerts.ApplyUnknownField`, `ApplyTubeStatus`, `ApplyOwnField`, `ApplyOtherFields`, `ApplyCoolingPoint`, `ApplyStatusPoint` and `ApplyKeepsWindowsBounded` |
| MedicalAlerts.ApplyUnknownField | oobe/src/pages/MedicalAlertManagement.tsx:126-127 | an update whose tag matches no field leaves the page unchanged |
| MedicalAlerts.ApplyTubeStatus | oobe/src/pages/MedicalAlertManagement.tsx:82-84 | a tube-status update sets only the tube-status cell; no series changes |
| MedicalAlerts.ApplyOwnField | oobe/src/pages/MedicalAlertManagement.tsx:85-124 | a charted field's update sets its real-time cell and slides its window |
| MedicalAlerts.ApplyOtherFields | oobe/src/pages/MedicalAlertManagement.tsx:80-129 | an update leaves every other field, the sidebar and the clock unchanged |
| MedicalAlerts.ApplyCoolingPoint | oobe/src/pages/MedicalAlertManagement.tsx:106-114 | a cooling update appends a point stamped `now`, which is 1 exactly when the value is "Running" |
| MedicalAlerts.ApplyStatusPoint | oobe/src/pages/MedicalAlertManagement.tsx:116-124 | a status update appends a point stamped `now`, which is 1 exactly when the value is "ready" |
| MedicalAlerts.ApplyKeepsWindowsBounded | oobe/src/pages/MedicalAlertManagement.tsx:87-90 | an update keeps every series within 20 points |
| MedicalAlerts.ApplyAllLast | oobe/src/pages/MedicalAlertManagement.tsx:80-129 | after a run of updates, the last one, if it is to charted field f, slides f's window of the state before it and sets f's real-time cell |
| MedicalAlerts.ApplyAllKeepsNewest | oobe/src/pages/MedicalAlertManagement.tsx:80-129 | a run of `handleUpdate` calls, all to charted field f, leaves f's series as the last 20 of its old points followed by the new points stamped with their times, and f's real-time cell as the last value sent |
| MedicalAlerts.ReplayFromInitial | oobe/src/pages/MedicalAlertManagement.tsx:42-129 | from the initial page, a run of updates to one charted field leaves that field's chart as the last 20 of those updates' points, in order |
| MedicalAlerts.Stamped | oobe/src/pages/MedicalAlertManagement.tsx:84-124 | the points a run of updates to one field plots: one per update, stamped with its time and holding its sample |
| MedicalAlerts.ClickStatusCard | oobe/src/pages/MedicalAlertManagement.tsx:207-211 | clicking the status card opens the sidebar exactly when the status is "fault", and changes nothing else; the source repeats the industrial page's handler, so this is the same definition on the medical page state |
| MedicalAlerts.MedicalAlertManagement.constructor | oobe/src/pages/MedicalAlertManagement.tsx:42-65 | the component starts in the initial state, with its windows bounded |
| MedicalAlerts.MedicalAlertManagement.SetCells | oobe/src/pages/MedicalAlertManagement.tsx:85-125 | one branch's two setter calls replace that field's two cells and nothing else |
| MedicalAlerts.MedicalAlertManagement.HandleUpdate | oobe/src/pages/MedicalAlertManagement.tsx:80-129 | `handleUpdate` moves the page to the state `Apply` gives, keeping every window within 20 points |
| MedicalAlerts.MedicalAlertManagement.OnStatusCardClick | oobe/src/pages/MedicalAlertManagement.tsx:207-211 | the click handler moves the page to the state `ClickStatusCard` gives |
| MedicalAlerts.MedicalAlertManagement.OnSidebarHide | oobe/src/pages/MedicalAlertManagement.tsx:223 | hiding the sidebar closes it and changes nothing else |
| MedicalAlerts.MedicalAlertManagement.UpdateTime | oobe/src/pages/MedicalAlertManagement.tsx:67-72 | the clock cell becomes the HH:MM text, and nothing else changes |
| CameraHistoryTable.TotalPages | oobe-apps/smart-building-app/src/components/CameraHistroyTable.tsx:23 | `Math.ceil(n / 10)`: the fewest pages that hold n rows; zero exactly for no rows |
| CameraHistoryTable.PageSlice | oobe-apps/smart-building-app/src/components/CameraHistroyTable.tsx:25-29 | page p holds min(10, n - 10p) rows, none past the end, and its i-th row is row 10p + i |
| CameraHistoryTable.PageEmptyIff | oobe-apps/smart-building-app/src/components/CameraHistroyTable.tsx:25-29 | a page is empty exactly when its index is at or past the page count |
| CameraHistoryTable.InnerPagesFull | oobe-apps/smart-building-app/src/components/CameraHistroyTable.tsx:25-29 | every page before the last holds ten rows |
| CameraHistoryTable.PagesArePrefix | oobe-apps/smart-building-app/src/components/CameraHistroyTable.tsx:25-29 | the first k pages, laid end to end, are the first 10k rows |
| CameraHistoryTable.PagesCoverAll | oobe-apps/smart-building-app/src/components/CameraHistroyTable.tsx:23-29 | all pages together are exactly the rows, each once and in order |
| CameraHistoryTable.PagerShown | oobe-apps/smart-building-app/src/components/CameraHistroyTable.tsx:105 | `data.length > itemsPerPage`; stated by `CameraHistoryTable.PagerShownIff` |
| CameraHistoryTable.PagerShownIff | oobe-apps/smart-building-app/src/components/CameraHistroyTable.tsx:105 | the pager is shown exactly when there are more than ten rows |
| CameraHistoryTable.ViewRow | oobe-apps/smart-building-app/src/components/CameraHistroyTable.tsx:70-100 | the warning icon appears exactly for an "Incident"; the time and date cells are filled exactly when the row has a timestamp, with that timestamp |
| CameraHistoryTable.HistoryTable.constructor | oobe-apps/smart-building-app/src/components/CameraHistroyTable.tsx:16 | the table starts on page 0 |
| CameraHistoryTable.HistoryTable.PaginatedData | oobe-apps/smart-building-app/src/components/CameraHistroyTable.tsx:25-29 | the rows of the current page, as `CameraHistoryTable.PageSlice` states them |
| CameraHistoryTable.HistoryTable.SetData | oobe-apps/smart-building-app/src/components/CameraHistroyTable.tsx:19-21 | new rows reset the table to page 0, which then shows their first ten rows |
| CameraHistoryTable.HistoryTable.HandlePageChange | oobe-apps/smart-building-app/src/components/CameraHistroyTable.tsx:31-33 | picking a page sets the index and keeps the rows |
| DateRanges.IsRangePresetIff | oobe-apps/smart-building-app/src/components/RangeSelect.tsx:59-60 | `isRangePreset` holds exactly for the names Day, Week, Month and Year |
| DateRanges.IsRangePreset | oobe-apps/smart-building-app/src/components/RangeSelect.tsx:59-60 | the preset-name test; stated by `DateRanges.IsRangePresetIff` |
| DateRanges.SelectedPreset | oobe-apps/smart-building-app/src/components/RangeSelect.tsx:132 | the selected preset is the one the value names, and none for a date range |
| DateRanges.SelectedPresetOfName | oobe-apps/smart-building-app/src/components/RangeSelect.tsx:132 | a preset's name selects that preset |
| DateRanges.PresetToDateRange | oobe-apps/smart-building-app/src/components/RangeSelect.tsx:62-79 | the range ends now and reaches back 86 400 000, 604 800 000, 2 592 000 000 or 31 536 000 000 ms |
| DateRanges.PresetRangesOrdered | oobe-apps/smart-building-app/src/components/RangeSelect.tsx:64-77 | every range starts before it ends; starts are ordered Year < Month < Week < Day |
| DateRanges.MakeDateFields | oobe-apps/smart-building-app/src/components/RangeSelect.tsx:93-95 | a date built from in-range fields has exactly those fields |
| DateRanges.FieldsMakeDate | oobe-apps/smart-building-app/src/components/RangeSelect.tsx:93-95 | every time value is rebuilt from its own fields, all in range |
| DateRanges.SetHoursTime | oobe-apps/smart-building-app/src/components/RangeSelect.tsx:93 | the time value `setHours(h)` leaves; stated by `DateRanges.SetHoursFields` |
| DateRanges.SetMinutesTime | oobe-apps/smart-building-app/src/components/RangeSelect.tsx:94 | the time value `setMinutes(m)` leaves; stated by `DateRanges.SetMinutesFields` |
| DateRanges.SetSecondsTime | oobe-apps/smart-building-app/src/components/RangeSelect.tsx:95 | the time value `setSeconds(s)` leaves; stated by `DateRanges.SetSecondsFields` |
| DateRanges.SetHoursFields | oobe-apps/smart-building-app/src/components/RangeSelect.tsx:93 | `setHours(h)` for 0 <= h < 24 changes the hour and nothing else |
| DateRanges.SetMinutesFields | oobe-apps/smart-building-app/src/components/RangeSelect.tsx:94 | `setMinutes(m)` for 0 <= m < 60 changes the minute and nothing else |
| DateRanges.SetSecondsFields | oobe-apps/smart-building-app/src/components/RangeSelect.tsx:95 | `setSeconds(s)` for 0 <= s < 60 changes the second and nothing else |
| DateRanges.EndOfDay | oobe-apps/smart-building-app/src/components/RangeSelect.tsx:93-95 | the end date after `setHours(23)`, `setMinutes(59)`, `setSeconds(59)`; stated by `DateRanges.EndOfDayFields` and `DateRanges.EndOfDayIdempotent` |
| DateRanges.EndOfDayFields | oobe-apps/smart-building-app/src/components/RangeSelect.tsx:93-95 | the normalised end keeps its day and milliseconds and reads 23:59:59, the last second of that day |
| DateRanges.EndOfDayIdempotent | oobe-apps/smart-building-app/src/components/RangeSelect.tsx:93-95 | normalising an end date twice is normalising it once |
| DateRanges.JsDate.constructor | oobe-apps/smart-building-app/src/components/RangeSelect.tsx:91 | a date holds the time value it is made with |
| DateRanges.JsDate.SetHours | oobe-apps/smart-building-app/src/components/RangeSelect.tsx:93 | `setHours` replaces the time value by the one with the new hour |
| DateRanges.JsDate.SetMinutes | oobe-apps/smart-building-app/src/components/RangeSelect.tsx:94 | `setMinutes` replaces the time value by the one with the new minute |
| DateRanges.JsDate.SetSeconds | oobe-apps/smart-building-app/src/components/RangeSelect.tsx:95 | `setSeconds` replaces the time value by the one with the new second |
| DateRanges.RangeSelector.constructor | oobe-apps/smart-building-app/src/components/RangeSelect.tsx:88-89 | both picked ends start as null |
| DateRanges.RangeSelector.OnDateChange | oobe-apps/smart-building-app/src/components/RangeSelect.tsx:91-102 | the end, if present, is normalised in place; both ends are stored; `[start, end]` is emitted exactly when both are set |
| Astarte.Headers | oobe-apps/smart-building-app/src/api/AstarteAPIClient.ts:43-46 | exactly two headers: `Authorization: Bearer <token>` and the JSON content type; the same in oobe-apps/industrial-app/src/api/AstarteAPIClient.ts:43-46 and oobe-apps/medical-app/src/api/AstarteAPIClient.ts:28-31 |
| Astarte.TokenFromHeader | oobe-apps/smart-building-app/src/api/AstarteAPIClient.ts:44 | the token is recovered from the Authorization header |
| Astarte.InterfacePath | oobe-apps/smart-building-app/src/api/AstarteAPIClient.ts:57 | `v1/<realm>/devices/<device>/interfaces/<interface>`; its segments are stated by `Astarte.InterfacePathSegments` |
| Astarte.InterfacePathSegments | oobe-apps/smart-building-app/src/api/AstarteAPIClient.ts:57 | an interface path has the six segments v1, realm, devices, device, interfaces and interface, when the names have no "/" |
| Astarte.ItemPathSegments | oobe-apps/smart-building-app/src/api/AstarteAPIClient.ts:83 | an item path adds the item as a seventh segment |
| Astarte.TimeQueryUnique | oobe-apps/smart-building-app/src/api/AstarteAPIClient.ts:74-79 | the description of the query record fixes it completely |
| Astarte.Truthy | oobe-apps/smart-building-app/src/api/AstarteAPIClient.ts:79 | the `if (limit)` test: a present, non-zero limit; used by `Astarte.BuildQuery`, whose contract states when the limit is sent |
| Astarte.BuildQuery | oobe-apps/smart-building-app/src/api/AstarteAPIClient.ts:74-79 | each date given is sent as its ISO string; the limit is sent as its decimal text only when truthy; no other key is present; the same in oobe-apps/industrial-app/src/api/AstarteAPIClient.ts:72-76 |
| Astarte.Payload | oobe-apps/smart-building-app/src/api/AstarteAPIClient.ts:86 | `response.data?.data`: the payload of a present body; stated through `Astarte.ListOrEmpty` and `Astarte.KeysOrEmpty` |
| Astarte.ListOrEmpty | oobe-apps/smart-building-app/src/api/AstarteAPIClient.ts:86 | `response.data?.data ?? []`: the payload list, the empty list when it is absent, a failure passed on; the same in oobe-apps/industrial-app/src/api/AstarteAPIClient.ts:83 |
| Astarte.KeysOrEmpty | oobe-apps/smart-building-app/src/api/AstarteAPIClient.ts:58 | `Object.keys(response.data?.data ?? [])`: the payload's keys, none when absent, a failure passed on; the same in oobe-apps/industrial-app/src/api/AstarteAPIClient.ts:59 |
| SmartBuildingClient.CameraPaths | oobe-apps/smart-building-app/src/api/AstarteAPIClient.ts:83 | the ids path is the History interface of the device; the history path adds the camera id as its last segment |
| SmartBuildingClient.CameraIdsPath | oobe-apps/smart-building-app/src/api/AstarteAPIClient.ts:57 | the History interface path of a device; stated by `SmartBuildingClient.CameraPaths` |
| SmartBuildingClient.CameraHistoryPath | oobe-apps/smart-building-app/src/api/AstarteAPIClient.ts:83 | the History path of one camera; stated by `SmartBuildingClient.CameraPaths` |
| SmartBuildingClient.GetCameraIds | oobe-apps/smart-building-app/src/api/AstarteAPIClient.ts:53-62 | one GET of the device's History interface; its keys, none when absent, or the failure |
| SmartBuildingClient.GetCameraHistory | oobe-apps/smart-building-app/src/api/AstarteAPIClient.ts:64-90 | GET at the camera's path with the query record above; the payload, the empty list when absent, or the failure |
| IndustrialClient.ImagePaths | oobe-apps/industrial-app/src/api/AstarteAPIClient.ts:80 | the ids path is the Inspection interface of the device; the data path adds the image id as its last segment |
| IndustrialClient.ImagesIdsPath | oobe-apps/industrial-app/src/api/AstarteAPIClient.ts:56 | the Inspection interface path of a device; stated by `IndustrialClient.ImagePaths` |
| IndustrialClient.ImagesDataPath | oobe-apps/industrial-app/src/api/AstarteAPIClient.ts:80 | the Inspection path of one image; stated by `IndustrialClient.ImagePaths` |
| IndustrialClient.GetImagesIds | oobe-apps/industrial-app/src/api/AstarteAPIClient.ts:53-60 | one GET of the device's Inspection interface; its keys, none when absent, or the failure |
| IndustrialClient.GetImagesData | oobe-apps/industrial-app/src/api/AstarteAPIClient.ts:62-87 | GET at the image's path with the query record above; the payload, the empty list when absent, or the failure |
| MedicalClient.MedicalPaths | oobe-apps/medical-app/src/api/AstarteAPIClient.ts:43 | the overview and reports paths are the Overview and Reports interfaces of the device (reports at oobe-apps/medical-app/src/api/AstarteAPIClient.ts:68) |
| MedicalClient.OverviewPath | oobe-apps/medical-app/src/api/AstarteAPIClient.ts:43 | the Overview interface path of a device; stated by `MedicalClient.MedicalPaths` |
| MedicalClient.ReportsPath | oobe-apps/medical-app/src/api/AstarteAPIClient.ts:68 | the Reports interface path of a device; stated by `MedicalClient.MedicalPaths` |
| MedicalClient.ToPatientOverview | oobe-apps/medical-app/src/api/AstarteAPIClient.ts:47-55 | every field is copied, with `blood_type` renamed to `bloodType` |
| MedicalClient.PatientOverviewRoundTrip | oobe-apps/medical-app/src/api/AstarteAPIClient.ts:47-55 | the copy loses nothing; the reverse renaming undoes it |
| MedicalClient.GetPatientOverview | oobe-apps/medical-app/src/api/AstarteAPIClient.ts:38-61 | a failure is passed on; a missing body fails on `data`; a missing `data` fails on `name`; otherwise the renamed record |
| MedicalClient.ProjectReports | oobe-apps/medical-app/src/api/AstarteAPIClient.ts:71-75 | the same number of reports, in order, each keeping its type and facility and turning its date text into a date |
| MedicalClient.ProjectReportsAppend | oobe-apps/medical-app/src/api/AstarteAPIClient.ts:71-75 | projecting a concatenation projects each part |
| MedicalClient.GetMedicalReports | oobe-apps/medical-app/src/api/AstarteAPIClient.ts:63-81 | a failure is passed on; a missing body, `data` or `report` fails on `data`, `report` or `map`; otherwise the projected reports, one per raw report |

## Left out

- The realtime room client (`connectIndustrial`, `connectMedical`, `disconnectWebSocket`) is not part of this model. Its source is not among the files modelled; only the update records it delivers are modelled.
- Rendering (JSX, charts, the sidebar's content, `FormattedMessage`, `intl.formatTime` and `formatDate`) is left out; only the values the components compute for display are modelled.
- axios, qs and URL resolution (`new URL("appengine/", astarteUrl)`) are left out: a request is its relative path and its query record, and the HTTP call is the `fetch` parameter.
- `console.error` before a rethrow is left out, because it is logging only.
- `toISOString` is the `toIso` parameter, and `new Date(text)` in the medical reports is the opaque value `DateFrom(text)`.
- Invalid dates (NaN time values) are not modelled.
- SmartBuildingClient: a history entry's `datetime` is a present or absent time value; since any `Date` object is truthy, its cells are empty only when it is absent.
- The clock is a parameter: `now` for `Date.now()`, and the hour and minute for `updateTime`.
- DateRanges.PresetToDateRange: uses one instant for both ends of a range, whereas the source reads the clock separately for each bound.
- DateRanges: local time is taken to be UTC, with no time zones or daylight saving; `setHours` and its sibling setters follow the ECMAScript MakeTime/MakeDate arithmetic on integer milliseconds.
- Floating point is not modelled. Readings are exact reals, and the display formatting of numeric cells (`toFixed`, `Math.round`, unit suffixes) is left out.
- Telemetry readings are `Number` or `Text`, since the source's update value is untyped.
- CameraHistoryTable.HistoryTable.HandlePageChange: page indices are natural numbers, so JavaScript's negative slice indices are not modelled.
- CameraHistoryTable.HistoryTable.SetData: resets the page on every call. React resets it on a change of the `data` prop's identity.
- Astarte.KeysOrEmpty: returns a set, so the key order of `Object.keys` is not modelled.
- Decimal.IntToString: matches `toString` only for |n| < 10^21 (larger numbers print in exponent form); the precision of JavaScript numbers above 2^53 is not modelled.
- Astarte.BuildQuery: the limit is an integer, so non-integer `limit` values and their `toString` text are not modelled.
- PropertyChart.ToUpper: upper-cases ASCII letters only; Unicode case mapping is not modelled.
- A field named `type` in the medical reports is called `reportType` in this model, because `type` is a Dafny keyword.
- The CustomInput label of RangeSelect (`toLocaleDateString`) is left out, because it depends on the locale.
- The preset buttons (`ButtonsStack`) are left out, because they belong to another component; only the preset they show as selected is modelled.
- Fetch flags and wiring in the apps' entry points are not part of this model.
