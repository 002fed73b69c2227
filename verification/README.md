# NivritiNest hostel frontend in Dafny

NivritiNest is a hostel-management web application. Its React frontend keeps all its data in the browser's
`localStorage`:

- users and the signed-in session;
- complaints, maintenance requests and notices;
- visitors and rooms;
- the dashboard figures and an OpenAI key.

This project models the twelve screens that make up that frontend. The eleven pages are sign-in,
registration, password reset, dashboard, room allocation, complaints, maintenance, visitors, notices, AI
analysis and the account page; the twelfth is the navigation bar. It proves properties of each.

Each page is one module:

| module | file | page |
|---|---|---|
| `Login` | login.dfy | sign-in |
| `Register` | register.dfy | registration |
| `ForgotPassword` | forgot_password.dfy | password reset |
| `Dashboard` | dashboard.dfy | dashboard |
| `Rooms` | rooms.dfy | room allocation |
| `Complaints` | complaints.dfy | complaints |
| `Maintenance` | maintenance.dfy | maintenance |
| `Visitors` | visitors.dfy | visitors |
| `Notices` | notices.dfy | notices |
| `AiAnalysis` | ai_analysis.dfy | AI analysis |
| `Accounts` | accounts.dfy | account page |
| `Navbar` | navbar.dfy | navigation bar |

Each page module holds two things:

- pure functions for what the page computes: the record a form submission creates, the list after a vote, the
  filtered and sorted view, the chart data, the validation messages;
- a `class` with the page's state as fields and one method per event handler.

A method's postcondition states the page's whole new state in terms of those functions. The browser storage
slot the page writes is a field of its own. The effect that copies the list into storage after every change is
the class predicate `Saved()`, and every handler keeps it.

Four shared modules model the JavaScript the pages lean on:

- `Js`: string `trim`, `toLowerCase`, `split`, `includes`, `parseInt`, `toString`, `Math.round` of a
  percentage, the e-mail regular expression, `encodeURIComponent`, and JSON objects with `||` fallbacks.
- `Store`: `map`/`filter` on record lists, fresh ids as `Math.max(...ids) + 1`, the stable comparator sorts,
  `new Set`, and the `reduce` counters behind the charts.
- `Calendar`: `YYYY-MM-DD` dates, `toISOString`, and reading dates and timestamps back as milliseconds.
- `Users`: user records, case-insensitive e-mail lookup, and the decoded Google credential.

Properties proved beyond the per-call contracts:

- Sign-in after sign-up: someone who has just registered can sign in with the same e-mail, password and role,
  and is found by the password-reset page in any letter case. A Google-made account can never pass the
  password form.
- Round trips: parsing a formatted date gives the date back, and the other way round. Reading back the ISO
  timestamp the visitor page writes gives its milliseconds. A remembered sign-in refills the form exactly.
- Votes and likes raise the total by exactly one when the id exists, and leave ids, statuses and categories as
  they were.
- Filed complaints, requests, notices and visitors go in front with a fresh id, so ids stay unique.
- The chart counters add up to the number of records. Each bar counts its key's occurrences, and the keys come
  in order of first appearance.
- Sorted views are permutations of the filtered list, ordered by the page's comparator. A comparator that
  always answers 0 leaves the order alone.
- The room status stays in agreement with the occupant count through allocation and deallocation.
- On the dashboard, adding a new room type or removing a listed one keeps the room total equal to the sum of the
  type counts. Giving an existing type its own count again inflates the total; the model keeps that behaviour
  as written.
- Pressing the pin button twice, marking a message read twice, patching a profile twice, and re-running the
  profile sync effect all change nothing more.

## Model

| member | source | states |
|---|---|---|
| Js.Trim | frontend/src/pages/ComplaintsPage.jsx:265 | `trim` returns a slice of the input with only white space cut off either side, and it neither starts nor ends with white space |
| Js.TrimEmptyIff | frontend/src/pages/ComplaintsPage.jsx:265 | `!s.trim()` holds exactly when every character of `s` is white space |
| Js.BlankIffTrimEmpty | frontend/src/pages/Accounts.jsx:131 | the blank guard in front of every comment and chat box coincides with trimming to "" and with all-white-space |
| Js.ToLower | frontend/src/pages/NoticePage.jsx:194-196 | `toLowerCase` keeps the length and lowers each character on its own |
| Js.ToLowerIdempotent | frontend/src/pages/NoticePage.jsx:194-196 | lower-casing twice is lower-casing once, so the search term and the field are compared in one case |
| Js.IncludesEmpty | frontend/src/pages/NoticePage.jsx:194-196 | every string includes "", so an empty search term filters nothing out |
| Js.Split | frontend/src/pages/VisitorPage.jsx:228-229 | `split` on one character gives at least one part and no part holds the separator |
| Js.JoinSplit | frontend/src/pages/VisitorPage.jsx:228-229 | joining the parts of a split with the separator gives back the string |
| Js.SplitTwo | frontend/src/pages/MaintenancePage.jsx:289 | two separator-free pieces joined by the separator split back into exactly those two pieces |
| Js.IntToString | frontend/src/pages/RoomAllocation.jsx:147 | `toString` of an integer is non-empty |
| Js.IntToStringSign | frontend/src/pages/RoomAllocation.jsx:147 | the text of an integer starts with '-' exactly when it is negative |
| Js.IntToStringInjective | frontend/src/pages/RoomAllocation.jsx:147 | different room ids have different texts, so the select's text picks one room |
| Js.ParseIntOfNat | frontend/src/pages/Dashboared.jsx:261 | `parseInt` of the decimal text of a natural number gives that number back |
| Js.Percent | frontend/src/pages/ComplaintsPage.jsx:741-743 | the rounded percentage lies within half a unit of the exact one; halves are taken on the exact fraction (see Left out) |
| Js.PercentBounds | frontend/src/pages/ComplaintsPage.jsx:741-743 | a share of a whole rounds to a percentage between 0 and 100 |
| Js.Or | frontend/src/pages/Accounts.jsx:38-43 | the `or` fallback gives the value when it is truthy and the fallback otherwise |
| Js.CheckEmail | frontend/src/pages/LoginPage.jsx:104-105 | the scan for one '@' followed by a dotted domain accepts exactly the strings the e-mail regular expression describes |
| Js.EncodeUriComponent | frontend/src/pages/VisitorPage.jsx:177 | the output holds only URI-safe characters, is never shorter, and leaves unreserved text unchanged |
| Js.PercentBytesSafe | frontend/src/pages/VisitorPage.jsx:177 | every escaped byte becomes three URI-safe characters |
| Js.StrLessTotal | frontend/src/pages/VisitorPage.jsx:236 | JavaScript's string `<` is a strict total order |
| Js.StrLessTrans | frontend/src/pages/VisitorPage.jsx:236 | JavaScript's string `<` is transitive |
| Store.FreshId | frontend/src/pages/NoticePage.jsx:124 | `Math.max(...ids) + 1` exceeds every id, is one more than an existing id, and is 1 for an empty list |
| Store.PrependFresh | frontend/src/pages/NoticePage.jsx:133 | putting a record with a larger id in front keeps the ids unique |
| Store.Update | frontend/src/pages/NoticePage.jsx:147-152 | `map` with an id check changes exactly the matching records and keeps the length |
| Store.UpdateSum | frontend/src/pages/NoticePage.jsx:147-152 | an update that adds one to a field raises the field's total by the number of records updated |
| Store.UpdateKeeps | frontend/src/pages/NoticePage.jsx:147-152 | an update that does not touch a field leaves that column unchanged |
| Store.CountUnique | frontend/src/pages/NoticePage.jsx:147-152 | with unique ids, an id check selects one record if the id exists and none otherwise |
| Store.Reply | frontend/src/pages/ComplaintsPage.jsx:272-278 | a comment goes at the end of the thread by "You", with an id above every earlier comment id, keeping comment ids unique |
| Store.Filter | frontend/src/pages/NoticePage.jsx:187 | `filter` keeps only records that pass and every record that passes, as a sub-multiset of the list; a predicate that passes everything keeps the list |
| Store.FilterSubsequence | frontend/src/pages/NoticePage.jsx:187 | the kept records are a subsequence of the list: they keep the list's order |
| Store.FirstIndex | frontend/src/pages/NoticePage.jsx:187 | the position of the first record that passes, or the length when none does |
| Store.SubsequenceMultiset | frontend/src/pages/NoticePage.jsx:187 | a subsequence holds no value more often than the list |
| Store.FilterCounts | frontend/src/pages/NoticePage.jsx:187 | each passing value is kept exactly as often as it occurs, each other value not at all |
| Store.FilterUnique | frontend/src/pages/NoticePage.jsx:187 | a subsequence with exactly those counts is the filter: order and counts together pin the result down |
| Store.FilterSingleton | frontend/src/pages/NoticePage.jsx:187 | one record is kept or dropped |
| Store.FilterCons | frontend/src/pages/NoticePage.jsx:187 | the head is kept or dropped, then the rest is filtered |
| Store.FilterFirst | frontend/src/pages/NoticePage.jsx:187 | the first kept record is the first record of the list that passes |
| Store.FilterAppend | frontend/src/pages/NoticePage.jsx:741-742 | filtering a concatenation filters each part |
| Store.SortByKey | frontend/src/pages/NoticePage.jsx:214-224 | the comparator sort is a permutation ordered by the comparator's key |
| Store.SortSortedIdentity | frontend/src/pages/NoticePage.jsx:214-224 | a list already in comparator order is left as it is |
| Store.InsertKeyIs | frontend/src/pages/NoticePage.jsx:214-224 | inserting a record puts it in front of the records with its key and leaves their order alone |
| Store.SortStable | frontend/src/pages/NoticePage.jsx:214-224 | the sort is stable: for every key, the records with that key come out in the order they went in |
| Store.ConstantKeyIdentity | frontend/src/pages/NoticePage.jsx:223 | a comparator that always returns 0 keeps the list order |
| Store.SortStrings | frontend/src/pages/MaintenancePage.jsx:281 | `keys.sort()` is a permutation in ascending code-point order |
| Store.Distinct | frontend/src/pages/ComplaintsPage.jsx:305 | `[...new Set(keys)]` holds the same values, each once |
| Store.DistinctFirstSeen | frontend/src/pages/ComplaintsPage.jsx:305 | the values come in order of first appearance: before any occurrence of a later value each earlier value has occurred |
| Store.DistinctOnce | frontend/src/pages/ComplaintsPage.jsx:305 | in a list without repeats every value occurs at most once |
| Store.Bump | frontend/src/pages/ComplaintsPage.jsx:136-139 | counting one more k (a missing count reads as 0) raises k's count and the total by one and adds k last when new |
| Store.TallyTotal | frontend/src/pages/ComplaintsPage.jsx:136-139 | the counts of the `reduce` counter add up to the number of records |
| Store.TallyCount | frontend/src/pages/ComplaintsPage.jsx:136-139 | the count under each key is the number of occurrences of the key |
| Store.TallyKeys | frontend/src/pages/ComplaintsPage.jsx:136-139 | the counter's keys are the distinct values in order of first appearance |
| Store.TallyDistinctKeys | frontend/src/pages/ComplaintsPage.jsx:136-139 | the counter names every key once |
| Store.TallyEntries | frontend/src/pages/ComplaintsPage.jsx:136-139 | the counter's entries are the distinct values in order, each with its number of occurrences |
| Store.MostCommon | frontend/src/pages/ComplaintsPage.jsx:726-733 | the chosen entry is in the counter, no entry counts more, and every entry before it counts less: the stable sort picks the first of the tied entries |
| Store.FirstOfSorted | frontend/src/pages/ComplaintsPage.jsx:732 | the head of the counter sorted by count, highest first, is its first entry with the highest count |
| Store.Mode | frontend/src/pages/ComplaintsPage.jsx:726-733 | the most common value occurs in the list, no value occurs more often, and a value with the same count occurs only after it has first occurred |
| Store.ModeFirst | frontend/src/pages/ComplaintsPage.jsx:726-733 | of the values tied for the highest count, the counter's pick is the one that occurs first |
| Store.TiedComesLater | frontend/src/pages/ComplaintsPage.jsx:726-733 | if no entry before a counter entry reaches its count, a value with that count first occurs after the entry's key |
| Store.ModeIsKey | frontend/src/pages/ComplaintsPage.jsx:726-733 | the counter's most common key is one of the values counted |
| Store.ModeBeats | frontend/src/pages/ComplaintsPage.jsx:726-733 | no value occurs more often than the counter's most common key |
| Store.MostCommonBeats | frontend/src/pages/ComplaintsPage.jsx:726-733 | in a counter with distinct keys, no key counts more than the most common one |
| Calendar.DaysInMonth | frontend/src/pages/AIAnalysisPage.jsx:123 | every month has 28 to 31 days |
| Calendar.Format | frontend/src/pages/ComplaintsPage.jsx:231 | the date part of `toISOString` is ten characters with dashes at 4 and 7 and no 'T' |
| Calendar.Parse | frontend/src/pages/NoticePage.jsx:217 | reading a date string gives only valid dates |
| Calendar.ParseFormat | frontend/src/pages/NoticePage.jsx:217 | reading a formatted date gives the date back |
| Calendar.FormatParse | frontend/src/pages/NoticePage.jsx:217 | a string that reads as a date is the text form of that date |
| Calendar.FormatInjective | frontend/src/pages/ComplaintsPage.jsx:231 | two valid dates have the same text exactly when they are equal |
| Calendar.DateValue | frontend/src/pages/NoticePage.jsx:217 | the sort key of a date string is its day number, and 0 when it does not read as a date |
| Calendar.DateValueOrder | frontend/src/pages/NoticePage.jsx:217 | a later date has a larger sort key |
| Calendar.FormatOrder | frontend/src/pages/VisitorPage.jsx:236 | comparing date texts with `<` is comparing the dates |
| Calendar.DaysBeforeMonth | frontend/src/pages/VisitorPage.jsx:235 | the days before a month are the earlier months' lengths added up, and all months fit in the year |
| Calendar.DayNumberOrder | frontend/src/pages/VisitorPage.jsx:235 | a later date has a larger day number |
| Calendar.PrevDay | frontend/src/pages/VisitorPage.jsx:235 | the previous day is valid, earlier, and one day number less |
| Calendar.DaysEarlier | frontend/src/pages/VisitorPage.jsx:235 | `setDate(getDate() - n)` gives the valid date n day numbers earlier |
| Calendar.MillisOrder | frontend/src/pages/VisitorPage.jsx:270 | a later instant has more milliseconds |
| Calendar.IsoString | frontend/src/pages/VisitorPage.jsx:174 | `toISOString` gives 24 characters |
| Calendar.ParseClock | frontend/src/pages/VisitorPage.jsx:267-268 | a clock text reads as a time within one day |
| Calendar.ParseClockOfClock | frontend/src/pages/VisitorPage.jsx:267-268 | reading back the written time of day gives its milliseconds |
| Calendar.ParseStampOfIso | frontend/src/pages/VisitorPage.jsx:267-268 | `new Date(iso)` of a timestamp the page wrote gives the instant's milliseconds back |
| Js.SplitHeadOfConcat | frontend/src/pages/VisitorPage.jsx:228-229 | the first part of a separator-free piece, a separator and a rest is that piece |
| Calendar.IsoDatePart | frontend/src/pages/VisitorPage.jsx:228-229 | the part of an ISO timestamp before 'T' is the formatted date |
| Calendar.Today | frontend/src/pages/ComplaintsPage.jsx:230-231 | today's date text is the formatted date of the present instant |
| Users.Text | frontend/src/pages/LoginPage.jsx:121-124 | a record's text field is its string value, and "" when it is missing or not a string |
| Users.EqualFoldIff | frontend/src/pages/LoginPage.jsx:121-124 | the character-by-character case-folded comparison agrees with comparing `toLowerCase` of both sides |
| Users.EmailTaken | frontend/src/pages/RegisterPage.jsx:157-158 | `some` finds a user whose e-mail equals the given one in any letter case |
| Users.EmailTakenIgnoresCase | frontend/src/pages/RegisterPage.jsx:157-158 | e-mails that differ only in letter case are taken alike |
| Login.Validate | frontend/src/pages/LoginPage.jsx:97-111 | empty fields, then the e-mail shape, are refused with their messages, and only a complete, well-formed form passes |
| Login.FindUser | frontend/src/pages/LoginPage.jsx:121-124 | `find` returns the first user with the e-mail in any case and the chosen role, or none exactly when there is no such user |
| Login.SessionCopy | frontend/src/pages/LoginPage.jsx:149-151 | the session copy is the user without its password |
| Login.SignIn | frontend/src/pages/LoginPage.jsx:113-167 | the form checks, then the account lookup, then the password decide each failure message; on success the session is the user without its password, and the sign-in is remembered exactly when asked |
| Login.GoogleSignIn | frontend/src/pages/LoginPage.jsx:169-212 | it fails exactly when no user has the credential's e-mail and role; otherwise the session is that user without its password, with the credential's name and picture |
| Login.SignUpThenSignIn | frontend/src/pages/LoginPage.jsx:113-167 | a user who just registered signs in with the same e-mail, password and role, and the session is their new record without the password |
| Login.GoogleAccountNeedsGoogle | frontend/src/pages/LoginPage.jsx:132-135 | an account made with Google has no password, so the password form always answers "Incorrect password" |
| Login.Prefill | frontend/src/pages/LoginPage.jsx:78-95 | the form starts empty with role 'admin', or filled from the remembered sign-in with remember-me ticked |
| Login.PrefillRoundTrip | frontend/src/pages/LoginPage.jsx:138-146 | what a remembered sign-in writes fills the form back exactly |
| Login.LoginPage.constructor | frontend/src/pages/LoginPage.jsx:66-95 | the page loads the remembered form, the users and the session |
| Login.LoginPage.HandleLogin | frontend/src/pages/LoginPage.jsx:113-167 | a failure shows its message and writes nothing; a success writes the session and the remembered sign-in |
| Login.LoginPage.HandleGoogleLogin | frontend/src/pages/LoginPage.jsx:169-212 | a failure shows its message; a success writes the session; the form is untouched |
| Register.AnyChar | frontend/src/pages/RegisterPage.jsx:78-80 | a one-character regular expression test holds exactly when some character matches |
| Register.GetStrength | frontend/src/pages/RegisterPage.jsx:74-82 | the score summed over the four checks is the strength, at most 4, and 4 exactly for a non-empty password whose `length` (UTF-16 code units) is 8 or more, with a digit, a symbol and a capital |
| Register.StrengthGrows | frontend/src/pages/RegisterPage.jsx:74-82 | typing one more character never lowers the strength |
| Register.AstralPasswordIsLong | frontend/src/pages/RegisterPage.jsx:77 | four emoji above U+FFFF have a `length` of 8 and earn the length point |
| Register.AstralPasswordAccepted | frontend/src/pages/RegisterPage.jsx:137-139 | the four-emoji password is not refused as shorter than 8 characters |
| Js.Utf16Length | frontend/src/pages/RegisterPage.jsx:77 | `length` counts at least one and at most two code units per character |
| Js.Utf16LengthAppend | frontend/src/pages/RegisterPage.jsx:77 | the `length` of a concatenation is the sum of the lengths |
| Js.Utf16LengthBmp | frontend/src/pages/RegisterPage.jsx:77 | without characters above U+FFFF, `length` is the number of characters |
| Register.MeterFor | frontend/src/pages/RegisterPage.jsx:84-96 | 'Strong' from 3, 'Medium' at 2, 'Weak' below, with a width of a quarter per point |
| Register.MeterExtremes | frontend/src/pages/RegisterPage.jsx:84-96 | an empty password shows a Weak, empty bar and a password meeting every rule a Strong, full one |
| Register.Validate | frontend/src/pages/RegisterPage.jsx:123-148 | empty fields, e-mail shape, a `length` under 8 (UTF-16 code units) and mismatched passwords are refused in that order with their messages, and only a form passing all four is accepted |
| Register.SignUp | frontend/src/pages/RegisterPage.jsx:157-175 | sign-up fails exactly when the e-mail is taken in any case; otherwise the new user is appended |
| Register.SignUpTakesEmail | frontend/src/pages/RegisterPage.jsx:157-163 | after a sign-up the same e-mail in any letter case is refused |
| Register.RegisterUser | frontend/src/pages/RegisterPage.jsx:150-177 | the form's user is appended unless the e-mail is taken, with the page's message |
| Register.GoogleUser | frontend/src/pages/RegisterPage.jsx:199-207 | the Google-made user has the credential's e-mail, the chosen role, the Google flag and no password |
| Register.RegisterGoogleUser | frontend/src/pages/RegisterPage.jsx:186-210 | the Google user is appended unless its e-mail is taken, with the page's message |
| Register.RegisterPage.constructor | frontend/src/pages/RegisterPage.jsx:111-121 | the form starts empty with the role 'warden' |
| Register.RegisterPage.SelectRole | frontend/src/pages/RegisterPage.jsx:237-257 | a role button sets the role and nothing else |
| Register.RegisterPage.HandleRegister | frontend/src/pages/RegisterPage.jsx:150-184 | an invalid form or a taken e-mail shows its message and stores nothing; otherwise the user is stored and the success message shown |
| Register.RegisterPage.HandleGoogleRegister | frontend/src/pages/RegisterPage.jsx:186-214 | a taken e-mail shows its message; otherwise the Google user is stored |
| ForgotPassword.Validate | frontend/src/pages/ForgotPasswordPage.jsx:57-71 | an empty or ill-formed e-mail is refused with its message, and only a well-formed one passes |
| ForgotPassword.SentMessage | frontend/src/pages/ForgotPasswordPage.jsx:94 | the confirmation names the e-mail |
| ForgotPassword.Submit | frontend/src/pages/ForgotPasswordPage.jsx:73-107 | it succeeds exactly for a valid e-mail some account has in any case, with the confirmation; otherwise it gives the check's message or "No account found" |
| ForgotPassword.FoundAfterSignUp | frontend/src/pages/ForgotPasswordPage.jsx:84-85 | an address that just signed up is found, typed in any letter case |
| ForgotPassword.ForgotPasswordPage.constructor | frontend/src/pages/ForgotPasswordPage.jsx:50-53 | the form starts empty |
| ForgotPassword.ForgotPasswordPage.HandleSubmit | frontend/src/pages/ForgotPasswordPage.jsx:73-107 | a failure shows its message; a success shows the confirmation and clears the field |
| Dashboard.CurrentUser | frontend/src/pages/Dashboared.jsx:30-38 | each of name, e-mail, role and picture is the stored value when truthy, else 'Admin User', 'admin@hostel.com', 'admin' or null |
| Dashboard.CurrentUserAsWritten | frontend/src/pages/Dashboared.jsx:30-31 | with a stored user the page reads it with the defaults |
| Dashboard.NobodyStoredFails | frontend/src/pages/Dashboared.jsx:30-31 | with nobody stored the page's read fails, although the defaults would give a full user |
| Dashboard.CurrentUserOrDefaults | frontend/src/pages/Dashboared.jsx:30-38 | nothing stored gives every default; a stored user is read with the defaults |
| Dashboard.AvailableTabs | frontend/src/pages/Dashboared.jsx:394-402 | admin gets four tabs, warden three, any other role only the overview, which always comes first |
| Dashboard.OfferedTabsRender | frontend/src/pages/Dashboared.jsx:489-800 | every tab a role is offered has content drawn for that role |
| Dashboard.SettingsOnlyForAdmin | frontend/src/pages/Dashboared.jsx:800 | only the admin is offered the settings tab |
| Dashboard.Position | frontend/src/pages/Dashboared.jsx:270 | a type's position is its first entry, or none when absent |
| Dashboard.Find | frontend/src/pages/Dashboared.jsx:270 | `roomTypes[name]` is defined exactly when some entry has the name, and is that entry's count |
| Dashboard.Put | frontend/src/pages/Dashboared.jsx:259-262 | after the spread the type has the new count and every other type keeps its own |
| Dashboard.PutShape | frontend/src/pages/Dashboared.jsx:259-262 | the spread keeps every type in place and adds a new type at the end only when missing |
| Dashboard.FindAt | frontend/src/pages/Dashboared.jsx:270 | the first entry of a type is the one the lookup gives |
| Dashboard.Delete | frontend/src/pages/Dashboared.jsx:274-276 | after the filter the type is gone, nothing new appears, and other types keep their counts |
| Dashboard.DeleteDistinct | frontend/src/pages/Dashboared.jsx:274-276 | removing a type keeps type names distinct |
| Dashboard.PutNewSum | frontend/src/pages/Dashboared.jsx:255-264 | adding a new type adds its count to the sum of counts |
| Dashboard.DeleteSum | frontend/src/pages/Dashboared.jsx:269-277 | removing a listed type takes its count off the sum |
| Dashboard.SeedRoomsMatch | frontend/src/pages/Dashboared.jsx:47-61 | the seed's room total equals the sum of its type counts |
| Dashboard.AddRoomType | frontend/src/pages/Dashboared.jsx:255-267 | with a type and count given, the type takes the parsed count and the total grows by it; otherwise nothing changes, and no other figure changes |
| Dashboard.AddNewTypeKeepsMatch | frontend/src/pages/Dashboared.jsx:255-267 | adding a new type keeps the room total equal to the sum of the types |
| Dashboard.ReplacingTypeAddsAgain | frontend/src/pages/Dashboared.jsx:255-267 | giving a listed type its own count again leaves the types but adds the count to the total again |
| Dashboard.SeedSingleAgain | frontend/src/pages/Dashboared.jsx:255-267 | on the seed, setting 'Single' to 10 again makes the total 35 while the types still add up to 25 |
| Dashboard.RemoveRoomType | frontend/src/pages/Dashboared.jsx:269-278 | the type goes and the total drops by its count (NaN for a missing type); nothing else changes |
| Dashboard.CountOf | frontend/src/pages/Dashboared.jsx:270 | the count of a listed type, else NaN |
| Dashboard.RemoveTypeKeepsMatch | frontend/src/pages/Dashboared.jsx:269-278 | removing a listed type keeps the total equal to the sum of the types |
| Dashboard.Share | frontend/src/pages/Dashboared.jsx:688 | the share column is the rounded percentage, between 0 and 100 for a count within the total, and none for a total of 0 |
| Dashboard.FirstName | frontend/src/pages/Dashboared.jsx:80 | the greeting's first name has no space in it |
| Dashboard.FirstNameIsFirstWord | frontend/src/pages/Dashboared.jsx:80 | for a name string, the first name is the name's first word: a prefix of the name that runs to its first space, or to its end |
| Dashboard.NoNameNoFirstName | frontend/src/pages/Dashboared.jsx:80 | without a name string the first name is '' |
| Js.SplitHead | frontend/src/pages/Dashboared.jsx:80 | the first part of `split` is the text up to the first separator, or the whole text when there is none |
| Dashboard.DashboardPage.constructor | frontend/src/pages/Dashboared.jsx:30-81 | the page loads the user through the corrected reading `CurrentUserOrDefaults` (nothing stored gives the defaults; see Findings), the saved or seed figures, and greets the user by first name |
| Dashboard.DashboardPage.AddRoom | frontend/src/pages/Dashboared.jsx:255-267 | the figures become `AddRoomType` of the form, which clears after a change, and are saved |
| Dashboard.DashboardPage.RemoveRoom | frontend/src/pages/Dashboared.jsx:269-278 | the figures become `RemoveRoomType` and are saved |
| Dashboard.DashboardPage.Commit | frontend/src/pages/Dashboared.jsx:87-89 | the new figures are shown and saved, and nothing else on the page changes |
| Dashboard.DashboardPage.ResetData | frontend/src/pages/Dashboared.jsx:224-253 | a confirmed reset restores the seed figures; a refused one changes nothing |
| Dashboard.DashboardPage.SendMessage | frontend/src/pages/Dashboared.jsx:280-286 | a blank message does nothing; otherwise it is added as the user's and the input clears |
| Rooms.SeedStatusStale | frontend/src/pages/RoomAllocation.jsx:76-103 | room 103 is stored 'Available' although its count says otherwise |
| Rooms.WithOccupant | frontend/src/pages/RoomAllocation.jsx:159-163 | the student is appended and the room becomes 'Occupied' when now full, else 'Partially Occupied' |
| Rooms.WithOccupantConsistent | frontend/src/pages/RoomAllocation.jsx:159-163 | adding to a consistent room with a free place keeps it consistent |
| Rooms.Allocated | frontend/src/pages/RoomAllocation.jsx:140-170 | a missing room, student id or name is refused with the alert; otherwise exactly the room whose id text is chosen gains the occupant |
| Rooms.IdTextPicksOne | frontend/src/pages/RoomAllocation.jsx:147 | the id text selects exactly the room with that id |
| Rooms.WithoutOccupant | frontend/src/pages/RoomAllocation.jsx:187-201 | the student's entries go; the room becomes 'Available' when empty, 'Partially Occupied' below capacity, else keeps its status |
| Rooms.WithoutOccupantConsistent | frontend/src/pages/RoomAllocation.jsx:187-201 | removing a student keeps a consistent room consistent |
| Rooms.Deallocated | frontend/src/pages/RoomAllocation.jsx:183-207 | nothing changes unless confirmed; then only the room with the id loses the student |
| Rooms.DeallocatedConsistent | frontend/src/pages/RoomAllocation.jsx:183-207 | deallocation keeps every room's status in agreement with its count |
| Rooms.AllocatedConsistent | frontend/src/pages/RoomAllocation.jsx:140-170 | allocating into a room with a free place keeps every status in agreement with its count |
| Rooms.FilteredRooms | frontend/src/pages/RoomAllocation.jsx:209-216 | exactly the rooms whose id, type or an occupant's name or id matches the term are listed |
| Rooms.EmptySearchShowsAll | frontend/src/pages/RoomAllocation.jsx:209-216 | an empty search lists every room |
| Rooms.AvailableRooms | frontend/src/pages/RoomAllocation.jsx:218-220 | the form offers exactly the 'Available' and 'Partially Occupied' rooms |
| Rooms.OfferedHasPlace | frontend/src/pages/RoomAllocation.jsx:218-220 | in a consistent room, being offered means having a free place |
| Rooms.OccupancyPercent | frontend/src/pages/RoomAllocation.jsx:223 | the rounded occupancy, between 0 and 100 within capacity, and none for capacity 0 |
| Rooms.RoomAllocationPage.constructor | frontend/src/pages/RoomAllocation.jsx:24-125 | the page loads the saved or seed rooms with a blank form |
| Rooms.RoomAllocationPage.ToggleExpand | frontend/src/pages/RoomAllocation.jsx:136-138 | the room's details open, or close when already open |
| Rooms.RoomAllocationPage.AllocateRoom | frontend/src/pages/RoomAllocation.jsx:140-181 | a refusal alerts and changes nothing; otherwise the rooms become `Allocated`, the form resets and closes, and the rooms are saved |
| Rooms.RoomAllocationPage.Deallocate | frontend/src/pages/RoomAllocation.jsx:183-207 | the rooms become `Deallocated` and are saved |
| Complaints.Filed | frontend/src/pages/ComplaintsPage.jsx:227-251 | the new complaint has an id above every existing one (1 for none), is 'Open' with no votes or comments, is dated today, and carries the form's fields; with complaints present its id is one past the largest |
| Complaints.FiledKeepsIdsUnique | frontend/src/pages/ComplaintsPage.jsx:227-251 | filing keeps ids unique, adds one open issue and no resolved one |
| Complaints.Voted | frontend/src/pages/ComplaintsPage.jsx:254-261 | the complaint with the id gains one vote and the rest are unchanged |
| Complaints.VoteAddsOne | frontend/src/pages/ComplaintsPage.jsx:254-261 | with unique ids a vote raises the vote total by one exactly when the id exists, and keeps ids, statuses and categories |
| Complaints.Commented | frontend/src/pages/ComplaintsPage.jsx:264-284 | a blank comment changes nothing; otherwise only the complaint with the id gets the comment at the end of its thread |
| Complaints.Visible | frontend/src/pages/ComplaintsPage.jsx:287-302 | exactly the complaints matching search, category, status and priority are listed, each drawn from the list |
| Complaints.VisibleInOrder | frontend/src/pages/ComplaintsPage.jsx:287-302 | the listed complaints are a subsequence of the list (its order kept), each matching one as often as it occurs there and no other |
| Complaints.NoFiltersShowAll | frontend/src/pages/ComplaintsPage.jsx:287-302 | with the initial filters every complaint is listed |
| Complaints.CategoryOptions | frontend/src/pages/ComplaintsPage.jsx:305 | 'All' then every category used, each once |
| Complaints.StatusCounts | frontend/src/pages/ComplaintsPage.jsx:136-139 | the status chart counts each status's complaints, adds up to all, keys in first-appearance order |
| Complaints.CategoryCounts | frontend/src/pages/ComplaintsPage.jsx:175-178 | the category chart counts each category's complaints, adds up to all, keys in first-appearance order |
| Complaints.OpenAndResolvedPartition | frontend/src/pages/ComplaintsPage.jsx:707 | open and resolved complaints add up to all complaints |
| Complaints.AverageSupport | frontend/src/pages/ComplaintsPage.jsx:714-716 | the rounded mean of votes, 0 for no complaints |
| Complaints.MostCommonCategory | frontend/src/pages/ComplaintsPage.jsx:726-733 | a category used by a complaint that no other outnumbers, 'N/A' for none |
| Complaints.MostCommonCategoryFirst | frontend/src/pages/ComplaintsPage.jsx:726-733 | of the categories tied for the highest count, the one used first is shown |
| Complaints.ResolutionRate | frontend/src/pages/ComplaintsPage.jsx:741-743 | the rounded resolved percentage, between 0 and 100, 0 for none |
| Complaints.ComplaintsPage.constructor | frontend/src/pages/ComplaintsPage.jsx:25-27 | the page loads the saved or seed list with a blank form and no filters |
| Complaints.ComplaintsPage.SubmitComplaint | frontend/src/pages/ComplaintsPage.jsx:227-251 | an incomplete form is refused; otherwise the filed complaint goes in front, the form resets and closes, and the list is saved |
| Complaints.ComplaintsPage.Vote | frontend/src/pages/ComplaintsPage.jsx:254-261 | the list becomes `Voted` and is saved |
| Complaints.ComplaintsPage.AddComment | frontend/src/pages/ComplaintsPage.jsx:264-284 | a blank box changes nothing; otherwise the comment is added, the box clears and the list is saved |
| Maintenance.Filed | frontend/src/pages/MaintenancePage.jsx:347-374 | the new request has a fresh id (one past the largest, 1 for none), is 'Open', unscheduled, with no votes or comments, dated today, with the form's fields |
| Maintenance.FiledKeepsIdsUnique | frontend/src/pages/MaintenancePage.jsx:347-374 | filing keeps ids unique, adds one pending request and no resolved one |
| Maintenance.Voted | frontend/src/pages/MaintenancePage.jsx:377-385 | the request with the id gains one vote and the rest are unchanged |
| Maintenance.VoteAddsOne | frontend/src/pages/MaintenancePage.jsx:377-385 | with unique ids a vote raises the total by one exactly when the id exists, and keeps ids, statuses and types |
| Maintenance.Commented | frontend/src/pages/MaintenancePage.jsx:387-407 | a blank comment changes nothing; otherwise only the request with the id gets the comment at the end |
| Maintenance.Visible | frontend/src/pages/MaintenancePage.jsx:410-428 | exactly the requests matching every filter are kept, each drawn from the list |
| Maintenance.VisibleInOrder | frontend/src/pages/MaintenancePage.jsx:410-428 | the listed requests are a subsequence of the list (its order kept), each matching one as often as it occurs there and no other |
| Maintenance.NoFiltersShowAll | frontend/src/pages/MaintenancePage.jsx:410-428 | with the initial filters every request is kept |
| Maintenance.Listed | frontend/src/pages/MaintenancePage.jsx:410-441 | the kept requests, permuted into newest-first, priority or most-voted order, or left in list order for any other choice |
| Maintenance.ListedKeepsTies | frontend/src/pages/MaintenancePage.jsx:428-439 | requests the chosen order ranks equal stay in list order |
| Maintenance.MostVotedFirst | frontend/src/pages/MaintenancePage.jsx:429-441 | sorted by votes, a request comes before every request with fewer votes |
| Maintenance.KindOptions | frontend/src/pages/MaintenancePage.jsx:443 | 'All' then every request type, each once |
| Maintenance.LocationOptions | frontend/src/pages/MaintenancePage.jsx:446 | 'All' then every location, each once |
| Maintenance.LocationOptionKeepsOwn | frontend/src/pages/MaintenancePage.jsx:410-428 | a request that passes the other filters stays listed when its own location is chosen in the select |
| Maintenance.SupportOf | frontend/src/pages/MaintenancePage.jsx:810-814 | significant support above 10 votes, more needed at 5 or fewer, moderate between |
| Maintenance.SupportMonotone | frontend/src/pages/MaintenancePage.jsx:810-814 | more votes never mean a lower support level |
| Maintenance.StatusCounts | frontend/src/pages/MaintenancePage.jsx:192-195 | the status chart counts each status, adds up to all requests, keys in first-appearance order |
| Maintenance.KindCounts | frontend/src/pages/MaintenancePage.jsx:231-234 | the type chart counts each type, adds up to all requests, keys in first-appearance order |
| Maintenance.Months | frontend/src/pages/MaintenancePage.jsx:274-281 | every month some request falls in, once, ascending |
| Maintenance.MonthlyValues | frontend/src/pages/MaintenancePage.jsx:294 | each month's value is the number of requests in it |
| Maintenance.MonthLabelOfDate | frontend/src/pages/MaintenancePage.jsx:288-291 | a well-formed date's label is the two-digit month, a slash and the two-digit year |
| Maintenance.MonthLabels | frontend/src/pages/MaintenancePage.jsx:288-291 | one label per sorted month |
| Maintenance.ResolvedAndPendingPartition | frontend/src/pages/MaintenancePage.jsx:1006-1026 | resolved and pending add up to the total |
| Maintenance.MaintenancePage.constructor | frontend/src/pages/MaintenancePage.jsx:30-31 | the page loads the saved or seed list with a blank form and the initial filters |
| Maintenance.MaintenancePage.SubmitRequest | frontend/src/pages/MaintenancePage.jsx:347-374 | an incomplete form is refused; otherwise the filed request goes in front, the form resets and closes, and the list is saved |
| Maintenance.MaintenancePage.Vote | frontend/src/pages/MaintenancePage.jsx:377-385 | the list becomes `Voted` and is saved |
| Maintenance.MaintenancePage.AddComment | frontend/src/pages/MaintenancePage.jsx:387-407 | a blank box changes nothing; otherwise the comment is added, the box clears and the list is saved |
| Visitors.AvatarQuery | frontend/src/pages/VisitorPage.jsx:177 | the avatar query splits on '&' into the encoded name and the background |
| Visitors.PhotoOf | frontend/src/pages/VisitorPage.jsx:177 | the captured photo, or the generated avatar when none was captured |
| Visitors.CheckedIn | frontend/src/pages/VisitorPage.jsx:167-178 | the new visitor has a fresh id (one past the largest, 1 for none), is checked in since now with no check-out, has a photo and the form's fields |
| Visitors.CheckedOut | frontend/src/pages/VisitorPage.jsx:196-207 | only the visitor with the id is checked out at now |
| Visitors.CheckInOut | frontend/src/pages/VisitorPage.jsx:167-207 | checking a visitor in adds one visitor on campus, and checking them out again restores the count |
| Visitors.HoursMinutes | frontend/src/pages/VisitorPage.jsx:270-272 | whole hours and leftover whole minutes of a span, minutes below 60 |
| Visitors.DurationOfVisit | frontend/src/pages/VisitorPage.jsx:265-277 | a visit this page recorded shows the span between check-in and check-out |
| Visitors.Gap | frontend/src/pages/VisitorPage.jsx:270 | `Math.abs(end - start)` is the distance between the two |
| Visitors.DurationOfStamps | frontend/src/pages/VisitorPage.jsx:265-277 | the duration text is the span between the two stamps read back |
| Visitors.DurationOnCampus | frontend/src/pages/VisitorPage.jsx:265-277 | a visitor on campus shows the span from check-in to now |
| Visitors.WeekAgo | frontend/src/pages/VisitorPage.jsx:235 | the week filter's bound is the date seven days before today |
| Visitors.WeekRange | frontend/src/pages/VisitorPage.jsx:231-236 | the week filter keeps a check-in exactly when its day is at most seven days back |
| Visitors.Visible | frontend/src/pages/VisitorPage.jsx:210-240 | exactly the visitors matching search, status, category and date range are listed, each drawn from the log |
| Visitors.VisibleInOrder | frontend/src/pages/VisitorPage.jsx:210-240 | the listed visitors are a subsequence of the log (its order kept), each matching one as often as it occurs there and no other |
| Visitors.NewVisitorListed | frontend/src/pages/VisitorPage.jsx:210-240 | a visitor checked in now is listed under the initial filters |
| Visitors.OnCampus | frontend/src/pages/VisitorPage.jsx:464-466 | the current view lists exactly the checked-in visitors |
| Visitors.VisitorPage.constructor | frontend/src/pages/VisitorPage.jsx:26-27 | the page loads the saved or seed log with a blank form and today's filter |
| Visitors.VisitorPage.CapturePhoto | frontend/src/pages/VisitorPage.jsx:153-163 | the captured photo goes into the form and nothing else changes |
| Visitors.VisitorPage.SubmitVisitor | frontend/src/pages/VisitorPage.jsx:167-193 | an incomplete form is refused; otherwise the new visitor goes in front, the form resets and closes, and the log is saved |
| Visitors.VisitorPage.CheckOut | frontend/src/pages/VisitorPage.jsx:196-207 | the log becomes `CheckedOut` and is saved |
| Notices.ToggledAudience | frontend/src/pages/NoticePage.jsx:739-743 | ticking appends the audience; unticking removes every copy and keeps the others |
| Notices.TickUntick | frontend/src/pages/NoticePage.jsx:739-743 | ticking an unticked audience and unticking it again restores the list |
| Notices.Posted | frontend/src/pages/NoticePage.jsx:119-131 | the new notice has a fresh id (one past the largest, 1 for none), is by "You", unpinned, with no likes or comments, dated today, with the form's fields |
| Notices.PostedIsMine | frontend/src/pages/NoticePage.jsx:119-133 | posting keeps ids unique and the notice shows under "My Notices" |
| Notices.Liked | frontend/src/pages/NoticePage.jsx:146-153 | the notice with the id gains one like and the rest are unchanged |
| Notices.LikeAddsOne | frontend/src/pages/NoticePage.jsx:146-153 | with unique ids a like raises the total by one exactly when the id exists, and keeps the ids |
| Notices.PinToggled | frontend/src/pages/NoticePage.jsx:177-184 | the notice with the id flips its pin and the rest are unchanged |
| Notices.PinTwiceRestores | frontend/src/pages/NoticePage.jsx:177-184 | pressing the pin twice restores the list |
| Notices.Commented | frontend/src/pages/NoticePage.jsx:156-175 | a blank comment changes nothing; otherwise the notice with the id gets the comment, stamped with the clock, at the end |
| Notices.ExpiredIff | frontend/src/pages/NoticePage.jsx:189 | a notice has expired exactly when its day is past or began before now |
| Notices.Visible | frontend/src/pages/NoticePage.jsx:187-213 | exactly the notices passing expiry, search, category, priority, audience and tab are kept, each drawn from the list |
| Notices.VisibleInOrder | frontend/src/pages/NoticePage.jsx:187-213 | the listed notices are a subsequence of the list (its order kept), each matching one as often as it occurs there and no other |
| Notices.NoFiltersShowUnexpired | frontend/src/pages/NoticePage.jsx:187-213 | under the initial filters on the "all" tab exactly the unexpired notices are kept |
| Notices.Listed | frontend/src/pages/NoticePage.jsx:187-225 | the kept notices, permuted into newest-first, priority or most-liked order, or left in list order otherwise |
| Notices.ListedKeepsTies | frontend/src/pages/NoticePage.jsx:214-225 | notices the chosen order ranks equal stay in list order |
| Notices.NoticePage.constructor | frontend/src/pages/NoticePage.jsx:28-30 | the page loads the saved or seed list with a blank form, the initial filters and the "all" tab |
| Notices.NoticePage.ToggleAudience | frontend/src/pages/NoticePage.jsx:739-743 | the form's audience becomes `ToggledAudience` and nothing else changes |
| Notices.NoticePage.SubmitNotice | frontend/src/pages/NoticePage.jsx:119-142 | an incomplete form is refused; otherwise the notice goes in front, the form resets and closes, and the list is saved |
| Notices.NoticePage.Like | frontend/src/pages/NoticePage.jsx:146-153 | the list becomes `Liked` and is saved |
| Notices.NoticePage.TogglePin | frontend/src/pages/NoticePage.jsx:177-184 | the list becomes `PinToggled` and is saved |
| Notices.NoticePage.AddComment | frontend/src/pages/NoticePage.jsx:156-175 | a blank box changes nothing; otherwise the comment is added, the box clears and the list is saved |
| AiAnalysis.AllIssues | frontend/src/pages/AIAnalysisPage.jsx:262 | the complaints, then the requests, in order |
| AiAnalysis.CleanNumbered | frontend/src/pages/AIAnalysisPage.jsx:238-240 | a numbered line loses its number and surrounding white space |
| AiAnalysis.OnlyNumberIsEmpty | frontend/src/pages/AIAnalysisPage.jsx:238-240 | a line holding only a number gives an empty suggestion |
| AiAnalysis.ParseAiResponse | frontend/src/pages/AIAnalysisPage.jsx:236-246 | one suggestion per non-blank line, in order, cleaned and numbered from 0 |
| AiAnalysis.HistogramTotals | frontend/src/pages/AIAnalysisPage.jsx:81-89 | the category bars add up to all issues, each bar counting categories and types together |
| AiAnalysis.Bucket | frontend/src/pages/AIAnalysisPage.jsx:129-136 | an issue falls in one of the six buckets or none |
| AiAnalysis.Trend | frontend/src/pages/AIAnalysisPage.jsx:127-137 | the trend has six counters |
| AiAnalysis.TrendBounded | frontend/src/pages/AIAnalysisPage.jsx:127-137 | the six counters hold at most every issue |
| AiAnalysis.TrendSnoc | frontend/src/pages/AIAnalysisPage.jsx:127-137 | one more issue adds one to its own bucket only |
| AiAnalysis.BucketIsMonth | frontend/src/pages/AIAnalysisPage.jsx:129-136 | a dated issue is in bucket k exactly when it is from 5 - k months before this month |
| AiAnalysis.MonthName | frontend/src/pages/AIAnalysisPage.jsx:118 | a month's short name has three letters |
| AiAnalysis.MonthIndexOfName | frontend/src/pages/AIAnalysisPage.jsx:118 | reading a month's short name back gives the month, so different months have different names |
| AiAnalysis.MonthLabelsDiffer | frontend/src/pages/AIAnalysisPage.jsx:124 | two months less than a year apart have different labels |
| AiAnalysis.TrendLabelsAsWritten | frontend/src/pages/AIAnalysisPage.jsx:121-125 | six labels computed by moving today's date back month by month |
| AiAnalysis.TrendLabels | frontend/src/pages/AIAnalysisPage.jsx:121-125 | label k names the month 5 - k months before this month |
| AiAnalysis.TrendLabelsRepeat | frontend/src/pages/AIAnalysisPage.jsx:121-125 | on 31 May 2025 the page labels the February bucket "Mar 25" twice |
| AiAnalysis.NamedOnce | frontend/src/pages/AIAnalysisPage.jsx:328-333 | the non-empty names, each once |
| AiAnalysis.AllCategories | frontend/src/pages/AIAnalysisPage.jsx:328-333 | 'All' then every non-empty category or type, each once |
| AiAnalysis.GetStats | frontend/src/pages/AIAnalysisPage.jsx:336-339 | the total is every issue; open is those not 'Resolved', at most the total, and equal to it exactly when none is resolved |
| AiAnalysis.OpenEqualsTotal | frontend/src/pages/AIAnalysisPage.jsx:336-339 | the open count equals the total exactly when no issue is resolved |
| AiAnalysis.RecentIssues | frontend/src/pages/AIAnalysisPage.jsx:581-583 | five issues (all, when fewer) drawn from the list, newest first, none older than any issue left out |
| AiAnalysis.TakeSorted | frontend/src/pages/AIAnalysisPage.jsx:583 | the head of a sorted list is sorted and drawn from it |
| AiAnalysis.TakeLeavesLater | frontend/src/pages/AIAnalysisPage.jsx:583 | of a sorted list, no record the head leaves out sorts before a record it keeps |
| AiAnalysis.GroupNames | frontend/src/pages/AIAnalysisPage.jsx:281-286 | every issue's group is named once, and nothing else |
| AiAnalysis.Group | frontend/src/pages/AIAnalysisPage.jsx:281-286 | exactly the issues of the group are gathered |
| AiAnalysis.ErrorText | frontend/src/pages/AIAnalysisPage.jsx:304 | the message shown is the error's own, else the fallback; never empty |
| AiAnalysis.ErrorOf | frontend/src/pages/AIAnalysisPage.jsx:288-306 | there is an error exactly when some category's request fails |
| AiAnalysis.CollectedSound | frontend/src/pages/AIAnalysisPage.jsx:288-300 | every gathered category was asked for, answered, and holds its parsed answer |
| AiAnalysis.CollectedComplete | frontend/src/pages/AIAnalysisPage.jsx:288-300 | when no request fails, every category is gathered |
| AiAnalysis.AskStep | frontend/src/pages/AIAnalysisPage.jsx:288-300 | one more category, asked before any failure, is added or stops the loop |
| AiAnalysis.StoppedStays | frontend/src/pages/AIAnalysisPage.jsx:288-306 | after a failure later categories change nothing |
| AiAnalysis.CurrentSuggestions | frontend/src/pages/AIAnalysisPage.jsx:322-325 | 'All' shows the general list, another category its own list or none |
| AiAnalysis.AiAnalysisPage.constructor | frontend/src/pages/AIAnalysisPage.jsx:45-67 | the page loads the saved complaints, requests and key, or empty ones |
| AiAnalysis.AiAnalysisPage.TrendData | frontend/src/pages/AIAnalysisPage.jsx:127-137 | the trend of the page's issues, holding at most all of them |
| AiAnalysis.AiAnalysisPage.SaveApiKey | frontend/src/pages/AIAnalysisPage.jsx:311-319 | a blank key is refused with a message; otherwise it is saved and the dialog closes |
| AiAnalysis.AiAnalysisPage.GetAiSuggestions | frontend/src/pages/AIAnalysisPage.jsx:250-309 | no key opens the dialog; no data, a failed general request or a failed category request each set their error; otherwise the general and per-category suggestions are set |
| AiAnalysis.CountByMonth | frontend/src/pages/AIAnalysisPage.jsx:127-137 | the loop's six counters are the trend, holding at most every issue |
| AiAnalysis.Increment | frontend/src/pages/AIAnalysisPage.jsx:134-136 | one pass of the loop adds one to the issue's bucket, and nothing when it has none |
| AiAnalysis.HistogramIsTrend | frontend/src/pages/AIAnalysisPage.jsx:127-137 | counters filled bucket by bucket are the trend and hold at most every issue |
| AiAnalysis.BucketsOfAt | frontend/src/pages/AIAnalysisPage.jsx:127-137 | the bucket list gives each issue's bucket at its position |
| AiAnalysis.TrendIsHistogram | frontend/src/pages/AIAnalysisPage.jsx:127-137 | ticking bucket by bucket gives the trend |
| AiAnalysis.AskCategories | frontend/src/pages/AIAnalysisPage.jsx:288-306 | the loop gathers `Collected` and stops with `ErrorOf` |
| Accounts.ProfileOf | frontend/src/pages/Accounts.jsx:35-44 | each text field is the record's value when truthy else ''; the image is the Google picture, else the uploaded image, else null; the role falls back to 'user' |
| Accounts.FindByEmail | frontend/src/pages/Accounts.jsx:33 | `find` by exact e-mail returns the first match, or none exactly when no user has it |
| Accounts.Load | frontend/src/pages/Accounts.jsx:25-49 | with a session, the profile of the listed user with its e-mail or of the session itself; without one, nothing |
| Accounts.Patch | frontend/src/pages/Accounts.jsx:60-86 | the written fields come from the profile, every other field stays |
| Accounts.PatchTwice | frontend/src/pages/Accounts.jsx:60-86 | patching twice is patching once |
| Accounts.Sync | frontend/src/pages/Accounts.jsx:60-86 | without an e-mail nothing changes; otherwise the session and every listed user with that e-mail are patched and the rest kept |
| Accounts.SyncStable | frontend/src/pages/Accounts.jsx:60-86 | running the effect again changes nothing more |
| Accounts.CheckName | frontend/src/pages/Accounts.jsx:131-133 | a blank name is refused with its message, any other accepted |
| Accounts.CheckImage | frontend/src/pages/Accounts.jsx:98-106 | a non-image type, then an image over 2 MiB, is refused with its message, and only an image within the limit passes |
| Accounts.WithImage | frontend/src/pages/Accounts.jsx:109-117 | the upload becomes the image and the Google picture goes; nothing else changes |
| Accounts.WithPicture | frontend/src/pages/Accounts.jsx:179-183 | listed users with the credential's e-mail take its picture, the rest are unchanged |
| Accounts.LinkGoogleAsWritten | frontend/src/pages/Accounts.jsx:167-189 | the profile becomes only the credential's name, e-mail and picture with the old role, and is the session |
| Accounts.LinkGoogleErasesPhone | frontend/src/pages/Accounts.jsx:167-189 | linking as written and then running the sync effect drops a listed warden's phone and address |
| Accounts.LinkGoogle | frontend/src/pages/Accounts.jsx:167-189 | the credential's name, e-mail and picture go over the profile, which keeps its role and other fields |
| Accounts.LinkGoogleKeepsPhone | frontend/src/pages/Accounts.jsx:167-189 | after the intended link and the effect the user keeps phone and address and gains the picture |
| Accounts.AccountsPage.constructor | frontend/src/pages/Accounts.jsx:25-57 | the page loads the profile, or the blank one, and the effect writes it back |
| Accounts.AccountsPage.Change | frontend/src/pages/Accounts.jsx:88-91 | the field takes the typed value and the effect writes the profile back |
| Accounts.AccountsPage.Submit | frontend/src/pages/Accounts.jsx:124-147 | a blank name shows its message; otherwise the success message shows and editing ends |
| Accounts.AccountsPage.ChangeImage | frontend/src/pages/Accounts.jsx:93-122 | a refused file shows its message; otherwise the image is set and written back |
| Accounts.AccountsPage.Cancel | frontend/src/pages/Accounts.jsx:149-165 | the profile is read back from the session, and editing ends |
| Accounts.AccountsPage.HandleGoogleLink | frontend/src/pages/Accounts.jsx:167-189 | the intended link is written, the effect runs, and the success message shows |
| Accounts.AccountsPage.Logout | frontend/src/pages/Accounts.jsx:195-199 | the session goes and nothing else changes |
| Navbar.Unread | frontend/src/components/Navbar.jsx:106-107 | the unread count is at most the list length and 0 exactly when all are read |
| Navbar.MarkRead | frontend/src/components/Navbar.jsx:94-104 | exactly the items with the id become read |
| Navbar.MarkReadTwice | frontend/src/components/Navbar.jsx:94-104 | marking twice is marking once |
| Navbar.MarkReadUnread | frontend/src/components/Navbar.jsx:94-107 | the unread count drops by the unread items with the id, so never rises |
| Navbar.FindLabel | frontend/src/components/Navbar.jsx:285 | the label of the first item with the path, or none exactly when no item has it |
| Navbar.Title | frontend/src/components/Navbar.jsx:285 | the mobile title is the menu label for the path, else 'Dashboard' |
| Navbar.MenuPathsDistinct | frontend/src/components/Navbar.jsx:23-30 | no two menu items share a path |
| Navbar.Shown | frontend/src/components/Navbar.jsx:48-51 | the shown picture is the stored picture, else the uploaded image, else null; other fields as stored |
| Navbar.GoogleSession | frontend/src/components/Navbar.jsx:68-78 | the session written by the bar's Google sign-in has the role 'user', the credential's e-mail and no password |
| Navbar.NavbarState.constructor | frontend/src/components/Navbar.jsx:44-66 | with a session the user and the sample lists load; without one all stays empty |
| Navbar.NavbarState.MarkAsRead | frontend/src/components/Navbar.jsx:94-104 | marks in notifications for 'notification', else in messages, and never raises an unread count |
| Navbar.NavbarState.GoogleSignIn | frontend/src/components/Navbar.jsx:68-78 | the session and the shown user become the Google session |
| Navbar.NavbarState.Logout | frontend/src/components/Navbar.jsx:84-89 | the session and the shown user go |

## Left out

- Rendering, styling, icons, the responsive layout, Chart.js drawing and window resizing are not modelled. Only
  the data each chart is given is modelled.
- The camera, the QR scanner and facial verification on the visitor page are not modelled. A captured photo is
  a parameter of `CapturePhoto`.
- The OpenAI request is not modelled. Its answers are parameters: one `Result` for the general prompt and a
  function from category to `Result`. The prompt texts sent are not modelled.
- Google sign-in and `jwtDecode` are not modelled. The decoded credential is the `Token` parameter. A failed
  Google sign-in (only logged by the bar) is not modelled.
- Navigation (`navigate`), timers (`setTimeout` clearing messages, the simulated wait on the password page)
  and `isSubmitting`/`isLoading` flags that exist only during an `await` are not modelled.
- The dashboard's `addRandomData`, its random bot reply and its logout button are not modelled. Randomness
  cannot be stated as a function, and the logout matches the other logouts.
- The clock is a parameter (`Instant`, `stamp` for `Date.now()`). Time zones are left out. Dates are read as
  UTC, while the browser reads a date-time without a zone as local time.
- The AI trend buckets use the UTC month of the item date. The page uses the local month.
- JSON parse failures of corrupted storage slots and `FileReader` errors are not modelled. Storage slots hold
  well-formed values.
- Text reads a missing or non-string field as ''. The pages would throw there, so a `user.email` that is not
  a string is not modelled as the catch paths 'Registration failed', 'An error occurred' and 'Login failed'.
- `toLowerCase` is modelled for ASCII letters only. String `<` compares code points, while JavaScript compares
  UTF-16 units. The two orders differ only where a character above U+FFFF meets one from U+E000 to U+FFFF.
  The one `length` the core compares, the password's, counts UTF-16 code units (`Js.Utf16Length`), as the
  page does.
- Numbers are integers or `NaN`. The chart's fractional `widthPercent` is modelled by
  `4 * width == 100 * score`.
- Js.Percent: rounds the exact fraction `100 * part / whole`, with halves rounded up. The pages round
  the floating-point product `part / whole * 100`, and that product can land just below a half. For
  29 of 200 the page computes `Math.round(14.499999999999998)` = 14, where the model gives 15.
  Binary64 division and multiplication are not modelled.
- ResolutionRate (`Complaints.ResolutionRate`): built on `Js.Percent`, so at the half-way values above it can be one more than the
  page shows (29 resolved of 200 gives 15 here, 14 on the page).
- Dashboard.Share: a total of 0 gives `None`, where the page shows `Infinity` or `NaN`. It is built on
  `Js.Percent`, so it shares that member's half-way rounding gap.
- Rooms.OccupancyPercent: a capacity of 0 gives `None`, where the page shows `Infinity` or `NaN`. It is
  built on `Js.Percent`, so it shares that member's half-way rounding gap.
- A `NaN` room total is not shown turning into `null` after reloading.
- Store.PriorityRank: an unknown priority ranks 0, where the page's comparator yields `NaN`. The order among
  such notices or requests is then whatever the browser's sort gives.
- Calendar.Parse: only the ten-character `YYYY-MM-DD` form is read as a date. Other text that `new Date`
  also accepts, such as "March 5, 2025", reads as no date here.
- Calendar.DateValue: an unreadable date sorts as day 0, where the page's comparator yields `NaN`.
- Object key order is insertion order. JavaScript puts integer-like keys first, so a room type named "12" is
  not placed as the browser would place it.
- Register.RegisterPage.SelectRole: requires one of the three roles, because the page only offers those
  three buttons.
- Seed lists are kept literally, but no property is proved about their contents beyond
  `Dashboard.SeedRoomsMatch` and `Rooms.SeedStatusStale`.
- The `Sidebar`, `AiBot`, `App` and `main` components are not part of this model.

## Findings

| source | as written | input that shows it | evidently intended | confidence | as-written member | corrected member |
|---|---|---|---|---|---|---|
| frontend/src/pages/AIAnalysisPage.jsx:121-125 | each trend label is made by setting the month of today's date back i months; on a 29th-31st the day overflows into the next month | today 31 May 2025: the labels for 3 and 2 months back are both "Mar 25", and the February bucket is labelled "Mar 25" | label k names the calendar month 5 - k months before the current one | high (not executed) | AiAnalysis.TrendLabelsAsWritten, AiAnalysis.TrendLabelsRepeat | AiAnalysis.TrendLabels |
| frontend/src/pages/Dashboared.jsx:30-31 | the stored user is read with `JSON.parse` of the stored text with an object as the fallback, which parses the text "[object Object]" when nobody is signed in | no `hostelCurrentUser` stored: the page throws before it renders, although defaults exist for every field | nothing stored gives the default admin user | high (not executed) | Dashboard.CurrentUserAsWritten, Dashboard.NobodyStoredFails | Dashboard.CurrentUserOrDefaults |
| frontend/src/pages/Accounts.jsx:167-189 | linking Google replaces the whole profile with name, e-mail, picture and role, and the sync effect at lines 60-86 then writes the missing phone and address back to the user list | a warden with phone "555-0100" and address "Block A" links a Google account with the same e-mail: both fields vanish from the stored user | the credential's fields go over the profile, which keeps phone, address and image | medium (not executed) | Accounts.LinkGoogleAsWritten, Accounts.LinkGoogleErasesPhone | Accounts.LinkGoogle, Accounts.LinkGoogleKeepsPhone |
