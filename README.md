# Water-quality monitor: a verified model of the client logic

This project models, in Dafny, the logic of a React Native client for a
water-quality sensor product. The client keeps its data in a Firebase
backend: a `devices` collection, a `requests` collection, a `params`
collection with the newest reading, and per-device `readings`. The model
covers:

- the device ownership and access workflow of `src/services/DeviceService.js`:
  - claim a device by a typed MAC-like ID;
  - request access to someone else's device;
  - accept or reject a request;
  - list members, remove a member, list my devices and incoming requests;
- the live dashboard of `screens/HomeScreen.js` and its "new reading"
  notification decision;
- the history screen of `screens/RecordsScreen.js`: health colours, the newest-first list, the view modes and the count line;
- the chart of `src/components/SensorChart.js`: x-axis labels, chart points, statistics badges and y-axis range;
- the sign-in / registration form of `screens/LoginScreen.js`;
- the avatar initial and display name of `screens/ProfileScreen.js`;
- the "Add New Device" form (`src/components/AddDeviceModal.js`);
- the "Manage Access" sheet (`src/components/DeviceSettingsModal.js`);
- the date pickers of `src/components/DateRangeFilter.js`;
- the filtered-readings subscription hook of `src/hooks/useFilteredSensorData.js`.

There is one module per source file, plus two shared modules. `Common` holds
`Option`, `Result`, `Alert` and the JavaScript string behaviour the code relies
on. `Readings` holds reading documents and a clock given as a day plus a
millisecond of the day.

The backend store is a value, `DeviceService.Store`. Each service operation
is first a function from a store (and the signed-in user, and the server
time) to a `Step`: the result the caller sees and the new store. The class
`DeviceService.DeviceStore` holds the same maps as fields. Its methods update
the fields in place and are proved equal to those functions. State the
screens keep in React hooks is a class per screen with `modifies this`
handlers. The screens call the `DeviceStore` methods directly.

A screen's connection to the identity service becomes a parameter: the
outcome of `loginUser` / `registerUser`, the current user, or whether someone
is signed in. Snapshot delivery becomes a parameter too: the documents a
snapshot carries, and "now" for `new Date()` and `serverTimestamp()`.

`respondToRequest` (src/services/DeviceService.js:113-121) checks only that
someone is signed in; it does not look at who answers a request. In the app
only a request's owner is offered the Accept and Decline buttons:
screens/NotificationsScreen.js lists what `getIncomingRequests` returns
(line 26), which is the requests whose `ownerUid` is the caller, and calls
`respondToRequest` only from those rows (lines 81 and 94). The model follows
the service, and `DeviceService.RespondIgnoresCaller` states that its outcome
does not depend on the caller.

## Model

| member | source | states |
|---|---|---|
| DeviceService.ErrorMessage | src/services/DeviceService.js:7-206 | every thrown error has a non-empty `message`, one per failure kind |
| DeviceService.RoleText | src/services/DeviceService.js:171-174 | the role names "owner" and "member": "owner" exactly for the owner, and neither is the "You" of the viewer's own row |
| DeviceService.NormalizeDeviceId | src/services/DeviceService.js:10 | the normal ID is no longer than the input and holds no `:`, `-`, white space or lower-case ASCII letter |
| DeviceService.StripSeparators | src/services/DeviceService.js:10 | reference for `replaceAll(/[:\-\s]/g, "")`: a character is kept iff it is in the input and is not a separator |
| DeviceService.StripSeparatorsAppend | src/services/DeviceService.js:10 | stripping works piece by piece, so the kept characters stay in their order |
| DeviceService.NormalizeIsUpperOfStripped | src/services/DeviceService.js:10 | normalising equals stripping the separators and then upper-casing |
| DeviceService.NormalizeFixesNormal | src/services/DeviceService.js:10 | an ID already free of separators and lower-case letters is its own normal form |
| DeviceService.NormalizeIdempotent | src/services/DeviceService.js:10 | normalising twice equals normalising once |
| DeviceService.NormalizeEmptyIff | src/services/DeviceService.js:10-12 | the normal ID is empty (so "Invalid Device ID" is thrown) exactly when the input consists of separators only |
| DeviceService.ArrayUnion | src/services/DeviceService.js:32 | `arrayUnion(x)` keeps the old array as a prefix, adds at most one element, and afterwards holds exactly the old members plus `x` |
| DeviceService.ArrayUnionNoDuplicates | src/services/DeviceService.js:132 | a union into a duplicate-free member array stays duplicate-free |
| DeviceService.ArrayRemove | src/services/DeviceService.js:210 | `arrayRemove(x)` keeps exactly the members other than `x` |
| DeviceService.ArrayRemoveAppend | src/services/DeviceService.js:210 | removal distributes over concatenation, so the order of the remaining members is kept |
| DeviceService.ArrayRemoveAbsent | src/services/DeviceService.js:210 | removing a uid that is not a member changes nothing |
| DeviceService.ArrayRemoveNoDuplicates | src/services/DeviceService.js:210 | removal keeps a member array duplicate-free |
| DeviceService.OwnedByOther | src/services/DeviceService.js:18-25 | the ownership check: the document exists and has a truthy `owner_uid` other than the caller; `Claim` fails "Device already owned" exactly then |
| DeviceService.ClaimedDevice | src/services/DeviceService.js:29-38 | the merge-write sets the owner to the caller, keeps the old members as a prefix and adds the caller, names the device with the nickname or "My Water Sensor", stamps it, sets the type and keeps every other field |
| DeviceService.Claim | src/services/DeviceService.js:4-38 | no user: "Authentication required."; empty normal ID: "Invalid Device ID"; owned by someone else: "Device already owned", carrying the normal ID; each failure leaves the store unchanged; succeeds iff none of these holds, and then writes only the claimed device |
| DeviceService.ClaimEffects | src/services/DeviceService.js:29-38 | after a successful claim, the caller owns the device and is a member exactly once, old members and other fields are kept, the name is set, and every other device and all requests are unchanged |
| DeviceService.ClaimPreservesValid | src/services/DeviceService.js:29-38 | a claim keeps the store invariant: owner among the members, members without duplicates |
| DeviceService.ClaimKeepsOwner | src/services/DeviceService.js:19-38 | a claim never removes a device and never changes an owner that is already set |
| DeviceService.OthersKeepOwner | src/services/DeviceService.js:122-136 | requesting access, responding to a request and removing a member never remove a device or change its owner |
| DeviceService.HasPending | src/services/DeviceService.js:67-72 | the pending-request query is non-empty: some request for this device by the caller is pending; `RequestAccess` fails "Request already pending." exactly then |
| DeviceService.RequestAccess | src/services/DeviceService.js:52-87 | no user, missing device ("Device not found."), no owner, or an existing pending request from the caller for this device: that error and an unchanged store; otherwise exactly one new pending request addressed to the owner, with the caller's e-mail or "Unknown User", and the result "Request Sent" |
| DeviceService.RequestAccessEffects | src/services/DeviceService.js:67-85 | a request keeps the invariant and keeps pending requests unique per (device, requester); on success the one new request is pending for the caller and addressed to the device's owner |
| DeviceService.RequestAccessOnce | src/services/DeviceService.js:67-76 | asking again right after a successful request fails with "Request already pending." and changes nothing |
| DeviceService.IncomingRequests | src/services/DeviceService.js:94-106 | no user gives nothing; otherwise exactly the pending requests whose `ownerUid` is the caller, unchanged |
| DeviceService.MyDevices | src/services/DeviceService.js:223-237 | no user gives nothing; otherwise exactly the devices whose members contain the caller |
| DeviceService.OwnedDevicesAreMine | src/services/DeviceService.js:228-231 | under the invariant, a device the caller owns is among "my devices" |
| DeviceService.Respond | src/services/DeviceService.js:113-137 | no user: "Authentication required."; a missing request, or a missing device when accepting, fails the whole batch and changes nothing; otherwise the status is written, and on acceptance the requester is union-ed into the device's members |
| DeviceService.RespondEffects | src/services/DeviceService.js:129-134 | responding keeps the invariant; accepting makes the requester a member exactly once and keeps the owner; a non-pending response keeps pending requests unique |
| DeviceService.RespondIgnoresCaller | src/services/DeviceService.js:113-121 | any two signed-in callers get the same outcome, so the caller is never checked against the request's owner |
| DeviceService.AcceptedEmails | src/services/DeviceService.js:158-166 | the `emailMap` after the `forEach` over the first n requests; `AcceptedEmailsSound` states its keys and values |
| DeviceService.AcceptedEmailsSound | src/services/DeviceService.js:162-166 | every e-mail in the `emailMap` is the requester e-mail of an accepted request by that uid for this device |
| DeviceService.MemberEntryFor | src/services/DeviceService.js:169-181 | a member's role is "owner" iff the uid is the device's owner, whose e-mail shows "Owner"; the caller shows their e-mail or "Me"; anyone else shows the mapped e-mail or "Unknown" |
| DeviceService.MemberEntries | src/services/DeviceService.js:169-181 | one entry per member, in member order |
| DeviceService.Members | src/services/DeviceService.js:139-183 | no user, a missing device ("Device not found") and a caller who is not a member ("Access denied") fail; it succeeds iff none holds, with one entry per member in order |
| DeviceService.MembersRoles | src/services/DeviceService.js:162-181 | each entry of the members view: owner role iff owner, "Owner" for the owner, the caller's own e-mail or "Me", and any other shown e-mail comes from an accepted request of that member |
| DeviceService.MembersHaveOneOwner | src/services/DeviceService.js:169-181 | under the invariant, the members view of an owned device has exactly one owner entry |
| DeviceService.Remove | src/services/DeviceService.js:190-216 | no user, a missing device, a caller who is not the owner ("Only the owner can remove members.") and removing the owner ("Cannot remove the owner.") fail with that message and an unchanged store; otherwise only that device's members change, by `arrayRemove` |
| DeviceService.RemoveEffects | src/services/DeviceService.js:205-211 | removal keeps the invariant, drops the member and keeps every other member, the owner in particular |
| DeviceService.DeviceStore.ClaimDevice | src/services/DeviceService.js:4-38 | the in-place claim returns and stores exactly what `Claim` gives, and keeps the invariant |
| DeviceService.DeviceStore.RequestDeviceAccess | src/services/DeviceService.js:52-87 | the in-place request equals `RequestAccess` and keeps the invariant and pending uniqueness |
| DeviceService.DeviceStore.RespondToRequest | src/services/DeviceService.js:113-137 | the in-place batch equals `Respond` and keeps the invariant |
| DeviceService.DeviceStore.GetDeviceMembers | src/services/DeviceService.js:139-183 | the `forEach` loop that fills `emailMap`, and the members mapping after it, return exactly `Members` of the current store |
| DeviceService.DeviceStore.RemoveMember | src/services/DeviceService.js:190-216 | the in-place removal equals `Remove` and keeps the invariant |
| Common.OrDefault | src/services/DeviceService.js:170 | the logical-or default on strings: `s` unless it is empty, then `d` |
| Common.IsJsSpace | src/components/AddDeviceModal.js:21 | the ECMAScript white-space and line-terminator code points that `trim` and `\s` remove |
| Common.IsBlank | src/components/AddDeviceModal.js:21 | `!s.trim()`: the string holds white space only |
| Common.DecimalString | screens/RecordsScreen.js:234 | `String(n)` of a non-negative integer: at least one character, decimal digits only, no leading zero unless the number is zero |
| Common.DecimalRoundTrip | screens/RecordsScreen.js:234 | the digits `String(n)` prints denote n |
| Common.BeforeAt | screens/ProfileScreen.js:59 | `split("@")[0]` is the longest prefix without "@": a prefix of the input, "@"-free, and followed by "@" when shorter than the input |
| Common.Capitalize | screens/ProfileScreen.js:25 | `charAt(0).toUpperCase() + slice(1)` keeps the length and the tail and upper-cases the first character |
| Common.Upper | src/services/DeviceService.js:10 | `toUpperCase` keeps the length and maps every character through the letter case mapping |
| HomeScreen.HasChanged | screens/HomeScreen.js:56-60 | `hasChanged`: one of the four watched fields differs; `HasChangedOnlyWatched` states which |
| HomeScreen.HasChangedOnlyWatched | screens/HomeScreen.js:56-60 | a document counts as changed iff `temp`, `pH`, `ppm` or `millisiemenspermeter` differs |
| HomeScreen.UnwatchedChangeIsSilent | screens/HomeScreen.js:56-60 | changing any other field, such as `created_at`, never counts as a change |
| HomeScreen.ShouldNotify | screens/HomeScreen.js:50-66 | an empty snapshot, the first load and a missing stored reading never notify; otherwise the screen notifies iff the new document changed a watched field |
| HomeScreen.Dashboard.OnSnapshot | screens/HomeScreen.js:49-76 | returns the notification decision and records the notified document; a non-empty snapshot stores its document and clears the first-load flag; an empty one keeps both; loading ends; the flag is set exactly while nothing is stored |
| HomeScreen.Dashboard.OnError | screens/HomeScreen.js:77-80 | an error only ends loading |
| HomeScreen.Dashboard.View | screens/HomeScreen.js:86-102 | a spinner while loading, the empty state without data, else the cards of the stored reading |
| HomeScreen.Dashboard.constructor | screens/HomeScreen.js:14-16 | nothing stored, loading, first load, nothing notified |
| HomeScreen.FirstLoadIsSilent | screens/HomeScreen.js:53-73 | after mounting, the first document never notifies and the second notifies iff it changed a watched field of the first |
| RecordsScreen.TempColor | screens/RecordsScreen.js:64-69 | grey iff missing, green iff below 25, amber iff 25 to 35 inclusive, red iff above 35 |
| RecordsScreen.PhColor | screens/RecordsScreen.js:71-75 | grey iff missing, green iff within [6.5, 8.5], red otherwise |
| RecordsScreen.TdsColor | screens/RecordsScreen.js:77-81 | grey iff missing, green iff at most 600, red otherwise |
| RecordsScreen.EcColor | screens/RecordsScreen.js:83-87 | grey iff missing, green iff at most 109, red otherwise |
| RecordsScreen.Reverse | screens/RecordsScreen.js:38 | `[...records].reverse()`; `ReverseAt`, `ReverseLength` and `ReverseSameElements` state its contents |
| RecordsScreen.ReverseAt | screens/RecordsScreen.js:38 | position k of the list shows record number n-1-k |
| RecordsScreen.ReverseLength | screens/RecordsScreen.js:38 | the list has as many rows as there are records |
| RecordsScreen.ReverseSameElements | screens/RecordsScreen.js:38 | the list holds the same records as a multiset: a permutation |
| RecordsScreen.NewestFirst | screens/RecordsScreen.js:37-38 | records that arrive oldest first are listed newest first |
| RecordsScreen.CountLabel | screens/RecordsScreen.js:234 | the count line is the decimal digits of the count, which denote the count, followed by exactly " record", plus "s" iff the count is not one |
| RecordsScreen.Header | screens/RecordsScreen.js:213-239 | the chart block is shown iff the mode is chart or both, as a spinner while loading and the chart otherwise; the count line is shown iff the mode is list or both |
| RecordsScreen.Content | screens/RecordsScreen.js:156-309 | no device: the "No Device Selected" state; no records: loading or "no records"; otherwise a chart iff mode is chart or both, a count header iff mode is list or both, and the rows newest first unless only the chart is shown |
| RecordsScreen.RowColors | screens/RecordsScreen.js:106-152 | a row colours temp, ph, ppm and millisiemenspermeter with the four colour rules, in that order |
| Readings.Hours | src/components/SensorChart.js:53 | the hour of a time is below 24 |
| Readings.Minutes | src/components/SensorChart.js:54 | the minute of a time is below 60 |
| SensorChart.Pad2 | src/components/SensorChart.js:53-54 | `padStart(2, "0")` gives exactly two decimal digits, and they denote the number |
| SensorChart.LabelStep | src/components/SensorChart.js:57 | `Math.ceil(total / 10)`: at least 1 for a non-empty chart, and the least k with 10k >= total |
| SensorChart.FormatXLabel | src/components/SensorChart.js:51-60 | no date gives ""; up to 20 points every dated point is labelled "HH:MM"; above 20 a point is labelled iff dated and its index is a multiple of the step |
| SensorChart.XLabels | src/components/SensorChart.js:82 | one label per point, given by `formatXLabel(date, index, total)` |
| SensorChart.AtMostTenLabels | src/components/SensorChart.js:56-57 | with more than 20 points at most ten labels are shown |
| SensorChart.FirstPointLabelled | src/components/SensorChart.js:57 | the first point is labelled whenever it has a date |
| SensorChart.PointFor | src/components/SensorChart.js:75-88 | one point: the reading's x label, its value or 0 when the field is missing, and the value as text iff the field is present |
| SensorChart.ChartPoints | src/components/SensorChart.js:75-88 | one point per reading, in order; a missing field plots 0 with no text, a present one plots its value with that value as text |
| SensorChart.ChartLabelsAreXLabels | src/components/SensorChart.js:82 | the points' labels are the x labels of the readings' timestamps |
| SensorChart.NonZero | src/components/SensorChart.js:96 | `filter(v => v !== 0)` keeps exactly the non-zero values, and its last element is the last non-zero input value |
| SensorChart.Values | src/components/SensorChart.js:96 | `map((d) => d.value)`: one value per point, in order |
| SensorChart.NonZeroCounts | src/components/SensorChart.js:96 | the filter drops every zero and keeps every other value exactly as often as it occurs |
| SensorChart.NonZeroAppend | src/components/SensorChart.js:96 | the filter works piece by piece, so the kept values stay in their order |
| SensorChart.SeqMin | src/components/SensorChart.js:99 | `Math.min` is an element that is at most every value |
| SensorChart.SeqMax | src/components/SensorChart.js:100 | `Math.max` is an element that is at least every value |
| SensorChart.Sum | src/components/SensorChart.js:101 | the sum of the values; `SumAppend` and `SumBounds` state its properties |
| SensorChart.SumAppend | src/components/SensorChart.js:101 | `reduce((a, b) => a + b, 0)` adds left to right, and `Sum` agrees with each of its steps |
| SensorChart.AverageBetween | src/components/SensorChart.js:101-102 | the mean of values within [lo, hi] lies within [lo, hi] |
| SensorChart.ChartStats | src/components/SensorChart.js:91-111 | all zeros (or no points) give zero badges; otherwise latest is the last non-zero value, min and max are attained non-zero values bounding every non-zero value, and min <= avg, latest <= max |
| SensorChart.LatestIsLastNonZero | src/components/SensorChart.js:103 | the latest badge shows a point's value after which every value is zero |
| SensorChart.Ceil | src/components/SensorChart.js:126 | `Math.ceil(x)` is the integer c with x <= c < x + 1 |
| SensorChart.YAxisConfig | src/components/SensorChart.js:114-132 | no points: max 100 in 5 sections of 20; otherwise 5 sections of a step of at least 1, and every plotted value is at most the axis maximum |
| SensorChart.Chart | src/components/SensorChart.js:138-147 | the empty state iff there is no data; otherwise the points, badges and axis of the active metric, with data points hidden iff there are more than 30 |
| LoginScreen.LoginCheck | screens/LoginScreen.js:27-30 | the login goes through iff both fields are filled; otherwise "Missing Fields" |
| LoginScreen.RegisterCheck | screens/LoginScreen.js:44-57 | registration goes through iff all fields are filled, the password has at least 6 characters and the two match; otherwise "Missing Fields", "Weak Password" or "Password Mismatch", checked in that order |
| LoginScreen.RegisterErrorMessage | screens/LoginScreen.js:73-81 | the three known error codes get their own messages; any other code gets "Registration failed. Please try again." |
| LoginScreen.LoginErrorMessage | screens/LoginScreen.js:37 | the error's own message, or "Invalid email or password." when it is empty |
| LoginScreen.LoginForm.HandleLogin | screens/LoginScreen.js:26-41 | `loginUser` is called iff the check passes; success signs in, failure shows "Login Failed"; the check's alert otherwise; loading ends false after a call; the fields are unchanged |
| LoginScreen.LoginForm.HandleRegister | screens/LoginScreen.js:43-87 | `registerUser` is called iff the checks pass; success shows the success alert whose OK signs in; failure shows "Registration Failed" with the code's message; it never signs in directly |
| LoginScreen.LoginForm.PressAlertOk | screens/LoginScreen.js:62-71 | OK signs in only on the registration-success alert |
| LoginScreen.LoginForm.ToggleMode | screens/LoginScreen.js:89-95 | flips the mode and clears both passwords and both visibility toggles; the e-mail is kept |
| LoginScreen.LoginForm.constructor | screens/LoginScreen.js:18-24 | the initial form state |
| LoginScreen.LoginThenOk | screens/LoginScreen.js:26-41 | from a fresh form, a login signs in iff both fields are filled and the identity service accepts |
| LoginScreen.RegisterThenOk | screens/LoginScreen.js:43-87 | from a fresh form, registration and OK sign in iff the checks pass and the identity service accepts; the password then has 6 or more characters and matches |
| ProfileScreen.Initials | screens/ProfileScreen.js:57-61 | "U" for an empty e-mail, "" for an empty local part, else the upper-cased first character |
| ProfileScreen.DisplayName | screens/ProfileScreen.js:24-25 | never empty: "User" for an empty local part, else the local part with its first character upper-cased |
| ProfileScreen.ProfileFor | screens/ProfileScreen.js:16-27 | both fields stay "" without a user; with one, the e-mail is shown and the name is non-empty |
| ProfileScreen.InitialMatchesName | screens/ProfileScreen.js:57-61 | the avatar shows the name's first letter unless the e-mail is non-empty with an empty local part, where it is blank while the name is "User" |
| ProfileScreen.ShownForUser | screens/ProfileScreen.js:19-27 | for a signed-in user, the name is non-empty, the initial has at most one character, and it is the name's first letter when the local part is non-empty |
| DeviceSettingsModal.IsMe | src/components/DeviceSettingsModal.js:65 | `isMe`: the row's uid is the signed-in user's |
| DeviceSettingsModal.ShowsRemove | src/components/DeviceSettingsModal.js:91 | "Remove" is shown iff the viewer is the owner and the row is neither the owner's nor the viewer's own; `ShowsRemoveIffRemoveSucceeds` ties it to the service |
| DeviceSettingsModal.FindRole | src/components/DeviceSettingsModal.js:67 | `find` gives the role of the first entry with the viewer's uid, or none when there is no such entry or no user |
| DeviceSettingsModal.RoleLabel | src/components/DeviceSettingsModal.js:87 | "You" for the viewer's own row, else the role's name |
| DeviceSettingsModal.Icon | src/components/DeviceSettingsModal.js:80 | a crown iff the row is the owner's |
| DeviceSettingsModal.ShowsRemoveIffRemoveSucceeds | src/components/DeviceSettingsModal.js:91 | in a members view from the service, "Remove" is shown on a row iff `removeMember` would accept that member |
| DeviceSettingsModal.WithoutUid | src/components/DeviceSettingsModal.js:52 | the filter keeps exactly the entries with another uid |
| DeviceSettingsModal.WithoutUidAppend | src/components/DeviceSettingsModal.js:52 | the filter distributes over concatenation, so order is kept |
| DeviceSettingsModal.WithoutUidMatchesService | src/components/DeviceSettingsModal.js:51-52 | after a successful removal, the filtered list equals the members view a fresh fetch returns |
| DeviceSettingsModal.SettingsPanel.Refresh | src/components/DeviceSettingsModal.js:21-38 | fetches iff visible with a device ID; success shows the members, failure keeps them and alerts "Failed to load members."; loading ends false |
| DeviceSettingsModal.SettingsPanel.Kick | src/components/DeviceSettingsModal.js:40-61 | the store changes exactly as `Remove`; success filters the member out and alerts "User removed."; failure keeps the list and alerts the error's message |
| DeviceSettingsModal.SettingsPanel.constructor | src/components/DeviceSettingsModal.js:17-18 | no members, loading |
| DeviceSettingsModal.OpenAndKick | src/components/DeviceSettingsModal.js:91-93 | opening the sheet and pressing a shown "Remove" always succeeds, and the list left on screen is the service's new members view |
| AddDeviceModal.ClaimFailed | src/components/AddDeviceModal.js:34 | a failed claim is shown as "Failed to Add Device" with the error's message |
| AddDeviceModal.AddDeviceForm.HandleClaim | src/components/AddDeviceModal.js:20-38 | a blank ID alerts "Please enter a Device ID." and leaves the store alone; otherwise the store changes exactly as `Claim`; success alerts, clears both fields and calls `onSuccess` once; failure keeps both fields; loading ends false |
| AddDeviceModal.AddDeviceForm.constructor | src/components/AddDeviceModal.js:16-18 | empty fields, not loading |
| AddDeviceModal.SeparatorsOnlyPassBlankCheck | src/components/AddDeviceModal.js:21 | an ID of colons and dashes only passes the blank check and the claim then fails "Invalid Device ID" with the store unchanged |
| AddDeviceModal.ColonsAndDashesRejected | src/components/AddDeviceModal.js:21 | "::--" passes the blank check and is shown as "Invalid Device ID" |
| AddDeviceModal.BlankNormalizesEmpty | src/components/AddDeviceModal.js:21 | a white-space-only ID would normalise to the empty ID, so the blank check only pre-empts the service's own refusal |
| DateRangeFilter.FormatDate | src/components/DateRangeFilter.js:30-37 | "--" iff there is no date |
| DateRangeFilter.Forwarded | src/components/DateRangeFilter.js:45-51 | a dismissed event forwards nothing; any other event type ("set", "neutralButtonPressed", ...) forwards exactly the selected date, if any |
| DateRangeFilter.Selectable | src/components/DateRangeFilter.js:119-140 | a picker lets through exactly the dates between its `minimumDate`, if any, and its `maximumDate` |
| DateRangeFilter.StartPicker | src/components/DateRangeFilter.js:125 | the start picker allows exactly the dates up to the end date |
| DateRangeFilter.EndPicker | src/components/DateRangeFilter.js:136-137 | the end picker allows exactly the dates from the start date to today |
| DateRangeFilter.PickersKeepRangeOrdered | src/components/DateRangeFilter.js:119-140 | for an ordered range, any choice keeps start <= end <= today |
| DateRangeFilter.DatePickers.Visible | src/components/DateRangeFilter.js:119-140 | the pickers shown are those whose flag is set, with their bounds |
| DateRangeFilter.DatePickers.PressStart | src/components/DateRangeFilter.js:80 | opens the start picker only |
| DateRangeFilter.DatePickers.PressEnd | src/components/DateRangeFilter.js:104 | opens the end picker only |
| DateRangeFilter.DatePickers.HandleStartChange | src/components/DateRangeFilter.js:39-55 | forwards `Forwarded(event, date)` and leaves the start picker closed on both platforms |
| DateRangeFilter.DatePickers.HandleEndChange | src/components/DateRangeFilter.js:57-72 | forwards `Forwarded(event, date)` and leaves the end picker closed on both platforms |
| DateRangeFilter.DatePickers.constructor | src/components/DateRangeFilter.js:27-28 | both pickers closed |
| DateRangeFilter.PickStart | src/components/DateRangeFilter.js:39-55 | opening and answering the start picker forwards a date iff one was set, and leaves no picker on screen |
| FilteredSensorData.DayStart | src/hooks/useFilteredSensorData.js:65-66 | 00:00:00.000 of the same day, not after any time of that day |
| FilteredSensorData.DayEnd | src/hooks/useFilteredSensorData.js:68-69 | 23:59:59.999 of the same day, not before any time of that day |
| FilteredSensorData.RangeQuery | src/hooks/useFilteredSensorData.js:65-78 | a time matches the query iff its day lies between the start day and the end day, inclusive |
| FilteredSensorData.RangeBounds | src/hooks/useFilteredSensorData.js:17-18 | the range is non-empty iff the start day is not after the end day, and then both given dates match |
| FilteredSensorData.ErrorText | src/hooks/useFilteredSensorData.js:96-102 | permission denied gives the access message; otherwise the error's message, or "Failed to fetch readings" |
| FilteredSensorData.Stamped | src/hooks/useFilteredSensorData.js:82-89 | a document keeps its id and fields, and its timestamp, or now when it has none |
| FilteredSensorData.StampAll | src/hooks/useFilteredSensorData.js:82 | one reading per document, in order |
| FilteredSensorData.FilteredReadings.RunEffect | src/hooks/useFilteredSensorData.js:42-108 | no device ID: not loading, no data, no subscription; no user: the same plus the authentication error; otherwise loading, error cleared, the previous subscription ended and one new subscription over the normalised range |
| FilteredSensorData.FilteredReadings.Cleanup | src/hooks/useFilteredSensorData.js:110-115 | ends the subscription and clears the ref; at most one subscription is ever live |
| FilteredSensorData.FilteredReadings.OnSnapshot | src/hooks/useFilteredSensorData.js:81-92 | a live subscription's snapshot becomes the data and ends loading; an ended one changes nothing |
| FilteredSensorData.FilteredReadings.OnError | src/hooks/useFilteredSensorData.js:93-105 | a live subscription's error sets the mapped message, ends loading and stops that listener; an ended one changes nothing |
| FilteredSensorData.FilteredReadings.constructor | src/hooks/useFilteredSensorData.js:28-33 | no data, loading, no error, no subscription |
| FilteredSensorData.ChangeRange | src/hooks/useFilteredSensorData.js:61-63 | after a range change only the new subscription is live, over the new days, and a late snapshot of the old one is ignored |

## Left out

- Firebase itself is not modelled: authentication, Firestore reads and queries, `onSnapshot` delivery, `serverTimestamp`, and how `limit` and `orderBy` run. Their inputs and answers are parameters, and the document store is a pair of maps.
- Concurrency is not modelled. The check-then-write of `claimDevice` and of `requestDeviceAccess` is not atomic, so the "one pending request per pair" result holds only when the operations run one after another.
- Security rules are not part of this repository. So the `firestore/permission-denied` rewrite in `claimDevice` ("Security Alert: ...") and permission failures of other calls are not modelled.
- DeviceService.AcceptedEmails: Firestore auto-IDs are random 20-character strings and the query returns documents in document-ID order, so when one member has several accepted requests the program keeps the e-mail of an arbitrary one of them. The model numbers request IDs as a counter and keeps the most recent request's e-mail; `DeviceService.AcceptedEmailsSound` states what holds either way: every e-mail kept is the e-mail of one of that member's accepted requests for the device.
- DeviceService.IncomingRequests: the `orderBy("timestamp", "desc")` order is not modelled, and neither is the catch that turns a query failure into an empty list.
- DeviceService.Respond: `batch.update` on a missing document is modelled as a failure of the whole batch, with the message "firestore/not-found". Other backend failures are not modelled.
- The `doc(id)` path errors for an empty or malformed ID are not modelled.
- Common.Upper: case mapping covers ASCII letters only, and `password.length` counts characters rather than UTF-16 code units.
- HomeScreen.Dashboard.OnSnapshot: compares with the stored reading. The source's callback compares with the copy captured when the effect subscribed, and it re-subscribes whenever `latestData` changes. That lifecycle is not modelled, nor is the notification display itself (the `notified` sequence stands for `showSensorNotification`).
- RecordsScreen.Content: the error banner, the view-mode toggle rendering and `toLocaleString` of row times are not modelled.
- SensorChart.ChartStats: the badges are real numbers. `toFixed(1)` rounding into strings, floating-point rounding, `Number(value)` on non-numeric fields and `String(value)` formatting are not modelled. Neither is the chart's pixel spacing (`CHART_WIDTH`).
- DateRangeFilter.FormatDate: `toLocaleDateString("en-US", ...)` is abstract, and time zones are folded into the day of a `DateTime`.
- FilteredSensorData.FilteredReadings.RunEffect: the signed-in state is a parameter standing for the `onAuthStateChanged` effect. The dates are assumed to be valid `Date`s, and the `limit` is passed to the query but not enforced on the snapshot.
- DeviceSettingsModal.SettingsPanel.Kick: models pressing "Remove" in the confirmation dialog. "Cancel" changes nothing and is not modelled.
- The logout flow of ProfileScreen, `src/services/AuthService.js`, the notification services, `index.js`, `App.js`, `useSensorData`, `DeviceList`, and the Help, Contact and Notifications screens are not part of this model. They are SDK wrappers, configuration or layout.
