# Calorie and macro tracker: a Dafny model

This project models the logic of a single-page calorie, macro and activity tracker.
Users register through a six-step onboarding flow, and their profile yields daily macro goals
(Mifflin-St Jeor BMR × activity multiplier ± a goal offset, split 30/40/30 into protein, carbs and fats).
They log meals (from search results, popular foods, prepped meals or a manual form) and activities
(MET × kg × hours). The app keeps a day streak, water intake per date, a weight history with one
entry per date, favourites, recent foods, prepped meals and reminder settings.

The modules:

- **Types, Store and Reducers**: the per-user record, the store of users, and the update functions applied to it.
  - `Store.AppStore` is a class whose fields are the store's state (`usersData`, `currentUserId`,
    `selectedMealIndex`, the registration and reminder-dialog flags, and the shared `lastNotified` record).
  - Its methods are the store's actions. Each one states the whole new state: "apply this update to the
    signed-in user, leave every other user and the session alone".
  - The per-user updates are pure functions in `Reducers`: logging with the streak rule, removal by index,
    weight upsert + sort, the profile update that recomputes goals, water, favourites, recents and prepped meals.
- **Nutrition and Units**: goal calculation and unit conversion, with JavaScript numbers modelled as exact reals.
  `Math.round`, `Math.floor` and the remainder `%` are written out.
- **Notifications**: the reminder timer's tick, which fires each type at most once per date.
- **Screens and components**, one module each, each a class holding the screen's own state:
  - Dashboard, Diary, ConcentricProgress (the rings), Progress, Reports, WaterHistory;
  - MealPrep, LogMeal, LogActivity, ManualLog, Onboarding, ProfileEditor, AdjustMacros, RemindersModal.
  
  Each class has methods for the screen's handlers and functions for its derived values. The `for` loops
  and the `reduce`s that build nutrient totals or feed the reports' averages and charts are methods proved
  against a specification function; derived lists built with `filter` and `map` are functions, and so are the
  per-day calorie sums listed under "Left out".
- **DateOrder, MealViews and Numeric**: shared pieces.
  - Date strings are ordered lexicographically, and records are sorted by a stable insertion sort.
  - Day views: meals of a day with their original indices, sums, grouping by meal type.
  - `parseInt`, a decimal parser for the manual-entry fields, trimming, lower-casing, digit filtering.

The current date, time of day, "yesterday", the reporting windows' date lists and fresh identifiers are
parameters of the operations, not read from a clock or a random source.

## Model

| member | source | states |
|---|---|---|
| Store.UpdatedUsers | contexts/AppContext.tsx:197-210 | applying an updater to the current user keeps the key set, changes only that user's record, and leaves the map alone when nobody is signed in |
| Store.NewUserProperties | contexts/AppContext.tsx:222-258 | a new user is well formed, carries its id, has the registration weight as latest weight, has a goal weight below it exactly when the goal is weight loss, has goals from the calculator, and has every reminder disabled |
| Store.AppStore.constructor | contexts/AppContext.tsx:100-105 | the store starts with no users, nobody signed in, no dialog, no selected meal |
| Store.AppStore.CurrentKey | contexts/AppContext.tsx:107-109 | an empty or missing user id means nobody is signed in |
| Store.AppStore.CurrentUser | contexts/AppContext.tsx:107-109 | the current user exists exactly when a non-empty id is set and present in the store, and is that entry |
| Store.AppStore.CurrentWeight | contexts/AppContext.tsx:450 | the current weight is the latest weight entry (0 when absent or zero, or when signed out) |
| Store.AppStore.ProfileOrDefault | contexts/AppContext.tsx:446 | screens see the current user's profile, or a fixed default profile when signed out |
| Store.AppStore.UpdateCurrentUser | contexts/AppContext.tsx:197-210 | the updater is applied to the signed-in user only; session fields unchanged |
| Store.AppStore.Login | contexts/AppContext.tsx:212-216 | logging in selects a user only if that id exists; users and flags are unchanged |
| Store.AppStore.Logout | contexts/AppContext.tsx:218-220 | after logout nobody is signed in; users unchanged |
| Store.AppStore.Register | contexts/AppContext.tsx:222-258 | the store gains exactly the new user under the fresh id, which becomes current, and registration ends |
| Store.AppStore.DeleteCurrentUser | contexts/AppContext.tsx:260-269 | a confirmed delete removes exactly the current user and signs out; otherwise nothing changes |
| Store.AppStore.StartRegistration | contexts/AppContext.tsx:433-434 | only the registration flag is set |
| Store.AppStore.CancelRegistration | contexts/AppContext.tsx:433-434 | only the registration flag is cleared |
| Store.AppStore.OpenRemindersModal | contexts/AppContext.tsx:430-431 | only the dialog flag is set |
| Store.AppStore.CloseRemindersModal | contexts/AppContext.tsx:430-431 | only the dialog flag is cleared |
| Store.AppStore.NavigateTo | contexts/AppContext.tsx:271-276 | the current user's page changes; the selected meal is cleared exactly when leaving the meal detail page |
| Store.AppStore.ViewMealDetail | contexts/AppContext.tsx:278-283 | the selected meal index is set, and a non-null index also navigates to the meal detail page |
| Store.AppStore.SelectedMeal | contexts/AppContext.tsx:111-116 | a selected meal exists exactly when the index is in range of the current user's meals, and is that meal with its index |
| Store.AppStore.HandleThemePreferenceChange | contexts/AppContext.tsx:285-287 | only the current user's theme preference changes |
| Store.AppStore.HandleMealLogged | contexts/AppContext.tsx:314-316 | the current user is updated by the logging rule with the meal |
| Store.AppStore.HandleActivityLogged | contexts/AppContext.tsx:318-320 | the current user is updated by the logging rule with the activity |
| Store.AppStore.HandleMealRemoved | contexts/AppContext.tsx:322-327 | the meal at the index is removed from the current user's log (an out-of-range index removes nothing) |
| Store.AppStore.HandleMealRemovedAndNavigate | contexts/AppContext.tsx:329-336 | the meal is removed, the page changes and the selection is cleared |
| Store.AppStore.HandleActivityRemoved | contexts/AppContext.tsx:338-343 | the activity at the index is removed from the current user's log |
| Store.AppStore.HandleMacrosUpdate | contexts/AppContext.tsx:345-347 | the current user's goals become the new goals and the page becomes Settings |
| Store.AppStore.HandleWeightUpdate | contexts/AppContext.tsx:349-362 | today's weight is upserted into the sorted history, the goal weight is set, the page becomes Settings |
| Store.AppStore.HandleProfileUpdate | contexts/AppContext.tsx:364-370 | the profile is replaced and the goals recomputed from the latest weight |
| Store.AppStore.HandleWaterIntakeUpdate | contexts/AppContext.tsx:372-380 | the registry becomes the old one with only the current user's record changed by `SetWater`: that date's water amount is set, every other field and user kept |
| Store.AppStore.ToggleFavoriteFood | contexts/AppContext.tsx:382-390 | the food's favourite status is toggled by case-insensitive name |
| Store.AppStore.AddFoodToRecents | contexts/AppContext.tsx:419-424 | the food moves to the front of the recents, at most five kept |
| Store.AppStore.HandlePreppedMealAdd | contexts/AppContext.tsx:392-395 | the prepped meal is appended with the fresh id |
| Store.AppStore.HandlePreppedMealLogged | contexts/AppContext.tsx:397-409 | the prepped meal, scaled by the servings, is logged by the logging rule |
| Store.AppStore.HandlePreppedMealDelete | contexts/AppContext.tsx:411-413 | every prepped meal with that id is removed |
| Store.AppStore.HandleCustomActivityAdd | contexts/AppContext.tsx:415-417 | the custom activity is appended |
| Store.AppStore.HandleRemindersUpdate | contexts/AppContext.tsx:426-428 | the current user's reminder settings are replaced |
| Store.AppStore.Tick | contexts/AppContext.tsx:149-191 | with a signed-in user and permission granted, a tick shows the notifications of exactly the due types and records them as fired today; otherwise it does nothing; users and session unchanged |
| Store.FireDue | contexts/AppContext.tsx:160-184 | the loop over the reminder types yields the notifications of the due types in order and the updated record |
| Types.With | types.ts:159-166 | changing one reminder of the settings leaves the other four as they were |
| Types.ReminderTypesComplete | types.ts:164-166 | the five reminder types are listed once each |
| Notifications.Pad2 | contexts/AppContext.tsx:163 | a number below 10 gets a leading '0'; from 10 to 99 its two decimal digits; for 0..99 the text reads back as the number |
| Notifications.ClockText | contexts/AppContext.tsx:163 | for hour and minute in 0..99 the text is two digits reading as the hour, ':', two digits reading as the minute |
| Notifications.ClockTextInjective | contexts/AppContext.tsx:163 | two different times never give the same clock text |
| Notifications.ClockTextExample | contexts/AppContext.tsx:163 | 8:05 is written "08:05" |
| Notifications.NotificationFor | contexts/AppContext.tsx:171-177 | the notification is for the given type (water has its own text) |
| Notifications.DueTypes | contexts/AppContext.tsx:165-170 | a type is listed exactly when it is enabled, set to the current minute and not yet fired today |
| Notifications.MarkFired | contexts/AppContext.tsx:180 | fired types are recorded with today's date; others keep their record |
| Notifications.FireStep | contexts/AppContext.tsx:165-183 | one loop step: the next type is due against the record so far, exactly as against the record at the start |
| Notifications.Notify | contexts/AppContext.tsx:179 | one notification per fired type, in order |
| Notifications.AtMostOncePerDay | contexts/AppContext.tsx:170 | a type fired on a date is not due again on that date, whatever later minute or settings |
| Notifications.NewDayFiresAgain | contexts/AppContext.tsx:169-170 | on a date not yet in the record, exactly the enabled types set to the minute fire |
| Notifications.DisabledNeverFires | contexts/AppContext.tsx:246-252 | a new user's all-disabled reminders never fire |
| Reducers.AllLogDates | contexts/AppContext.tsx:295 | the combined log dates are exactly the dates of some meal or activity |
| Reducers.HandleLog | contexts/AppContext.tsx:289-311 | the entry is appended to its own log, the page becomes the dashboard, and the streak changes only on the first log of today: +1 after a logged yesterday, else 1 |
| Reducers.StreakOncePerDay | contexts/AppContext.tsx:293-305 | a second log on the same day leaves the streak as it was |
| Reducers.StreakGrowsDayAfterDay | contexts/AppContext.tsx:298-303 | logging yesterday and then today raises the streak by one |
| Reducers.FilterOutIndex | contexts/AppContext.tsx:325 | filtering out one index removes exactly that position |
| Reducers.RemoveAt | contexts/AppContext.tsx:325 | removal by index shifts later items down by one; an out-of-range index keeps the list |
| Reducers.FindDate | contexts/AppContext.tsx:353 | the index of the first entry with the date, or -1 when there is none |
| Reducers.UpsertWeight | contexts/AppContext.tsx:351-359 | the replace-or-push followed by the sort computes the upserted history |
| Reducers.UpsertedHistoryProperties | contexts/AppContext.tsx:349-362 | the new history is sorted by date, contains today's entry, keeps every other-date entry with its multiplicity, and grows by one exactly when today was absent |
| Reducers.UpsertKeepsOneEntryPerDate | contexts/AppContext.tsx:349-362 | a history with one entry per date keeps that property |
| Reducers.LastWeightOr | contexts/AppContext.tsx:366 | the latest entry's weight, or the fallback when the history is empty or the weight is zero |
| Reducers.UpdateProfile | contexts/AppContext.tsx:364-370 | the profile is replaced and the goals are recomputed from the latest weight (150 lbs by default); nothing else changes except the page |
| Reducers.SetDate | contexts/AppContext.tsx:372-380 | setting a date's amount overwrites it in place or appends it; other dates are unchanged and dates stay distinct |
| Reducers.AddWaterOnlyThatDay | screens/DashboardScreen.tsx:209 | adding water changes that day's total by the amount and no other day |
| Reducers.WithoutNameIgnoringCase | contexts/AppContext.tsx:386 | the favourites without the case-insensitive name are exactly the others; with no match the list is unchanged |
| Reducers.WithoutNameIgnoringCaseKeepsOrder | contexts/AppContext.tsx:386 | the removal is a filter: it distributes over concatenation and keeps one favourite exactly when its name differs ignoring case, so order and multiplicity stay |
| Reducers.ToggleFavorite | contexts/AppContext.tsx:382-390 | a favourite is removed by the order-keeping filter (every case variant), a non-favourite is appended |
| Reducers.ToggleFavoriteTwice | contexts/AppContext.tsx:382-390 | toggling a non-favourite twice restores the list |
| Reducers.WithoutName | contexts/AppContext.tsx:421 | recents filtered by exact name are the others; with no match the list is unchanged |
| Reducers.WithoutNameKeepsOrder | contexts/AppContext.tsx:421 | the recents filter distributes over concatenation and keeps one food exactly when its name differs, so order and multiplicity stay |
| Reducers.AddToRecents | contexts/AppContext.tsx:419-424 | the food is first, followed by the previous recents without that name, truncated to five |
| Reducers.RecentsStayDistinct | contexts/AppContext.tsx:419-424 | recents with distinct names keep distinct names |
| Reducers.AddToRecentsIdempotent | contexts/AppContext.tsx:419-424 | adding the same food twice is the same as once |
| Reducers.RecentsAreCaseSensitive | contexts/AppContext.tsx:421 | "apple" does not replace "Apple": both stay |
| Reducers.PreppedMealAsMeal | contexts/AppContext.tsx:397-407 | the logged meal carries the per-serving nutrients times the servings, the meal type and the date |
| Reducers.PreppedMealName | contexts/AppContext.tsx:400 | the name is the meal's name, " (", the servings count (it parses back), then exactly " servings)" above one serving and " serving)" otherwise |
| Reducers.WithoutId | contexts/AppContext.tsx:412 | the prepped meals without the id are exactly the others; with no match the list is unchanged |
| Reducers.WithoutIdKeepsOrder | contexts/AppContext.tsx:412 | the deletion distributes over concatenation and keeps one meal exactly when its id differs, so order and multiplicity stay |
| Reducers.DeleteUndoesAdd | contexts/AppContext.tsx:392-413 | deleting a freshly added prepped meal restores the list |
| DateOrder.StrLeTransitive | contexts/AppContext.tsx:359 | the date order is transitive |
| DateOrder.StrLeAntisymmetric | contexts/AppContext.tsx:359 | two dates in both orders are equal |
| DateOrder.StrLeTotal | contexts/AppContext.tsx:359 | any two dates are comparable |
| DateOrder.SortBy | contexts/AppContext.tsx:359 | the sort keeps every record with its multiplicity |
| DateOrder.SortBySorted | contexts/AppContext.tsx:359 | the sort yields a list ordered by date and a permutation of its input |
| DateOrder.InsertSorted | contexts/AppContext.tsx:359 | inserting into a sorted list keeps it sorted |
| DateOrder.PermutationKeepsDistinctKeys | contexts/AppContext.tsx:359 | reordering cannot create two entries for one date |
| Nutrition.ActivityMultiplier | utils/nutritionUtils.ts:16-24 | the multiplier is between 1.2 and 1.9 |
| Nutrition.CalculateGoals | utils/nutritionUtils.ts:3-45 | carbs, protein and fats are within rounding of 40%/4, 30%/4 and 30%/9 of the target calories |
| Nutrition.GoalCaloriesNearTarget | utils/nutritionUtils.ts:40-44 | the goals' calories (4/4/9) are within 8.5 of the target |
| Nutrition.BmrGenderGaps | utils/nutritionUtils.ts:7-14 | the male BMR exceeds the female one by 166 and the unspecified one by 83 |
| Nutrition.BmrMonotone | utils/nutritionUtils.ts:7-14 | BMR grows with weight and height and falls with age |
| Nutrition.MultipliersIncrease | utils/nutritionUtils.ts:16-24 | the multipliers strictly increase with the activity level |
| Nutrition.GoalOffsets | utils/nutritionUtils.ts:26-38 | losing weight aims 500 below maintenance, gaining muscle 300 above |
| Nutrition.ExampleGoals | utils/nutritionUtils.ts:3-45 | a 30-year-old, 70 in, 180 lbs, moderately active male losing weight gets 170/226/75 |
| Units.LbsToKg | utils/units.ts:7 | a positive weight in kg is positive and smaller than in lbs |
| Units.KgToLbs | utils/units.ts:8 | a positive weight in lbs is larger than in kg |
| Units.InchesToCm | utils/units.ts:9 | a positive length in cm is larger than in inches |
| Units.CmToInches | utils/units.ts:10 | a positive length in inches is positive and smaller than in cm |
| Units.WeightRoundTrip | utils/units.ts:7-8 | kg-to-lbs and lbs-to-kg are inverse |
| Units.HeightRoundTrip | utils/units.ts:9-10 | inches-to-cm and cm-to-inches are inverse |
| Units.Fixed1 | utils/units.ts:15 | `toFixed(1)`: a whole number of tenths within half a tenth of the value, a tie going away from zero; non-negative for a non-negative value |
| Units.NearestTenthUnique | utils/units.ts:15 | only one number is the nearest tenth in that sense, so the rounding is fully determined |
| Units.Fixed0 | utils/units.ts:22 | the nearest whole number, halves rounded away from zero (`toFixed(0)`) |
| Units.Fixed0Unique | utils/units.ts:22 | those bounds fix the result: any whole number within them is `Fixed0(x)` |
| Units.Fixed0TiesAwayFromZero | utils/units.ts:22 | 190.5 rounds to 191 and -2.5 to -3 |
| Units.FormatWeight | utils/units.ts:13-18 | the label is in kg exactly for metric users, and its number is the nearest tenth of the weight in that unit |
| Units.GetDisplayWeight | utils/units.ts:30-35 | the displayed weight is the nearest tenth of the weight in the user's unit |
| Units.DisplayWeightMatchesLabel | utils/units.ts:13-35 | the input's number and the label's number agree |
| Units.GetDisplayHeightCm | utils/units.ts:37-39 | the centimetre input is the height in cm, rounded |
| Units.GetDisplayHeightFt | utils/units.ts:41-43 | the feet input is the whole number of feet |
| Units.GetDisplayHeightIn | utils/units.ts:45-47 | the inches input is between 0 and 12 inclusive |
| Units.FormatHeight | utils/units.ts:20-27 | the label is in cm exactly for metric users, with the rounded centimetres |
| Units.ImperialLabelMatchesInputs | utils/units.ts:20-47 | the feet-and-inches label shows the same numbers as the two inputs |
| Units.FeetInchesRecompose | utils/units.ts:41-47 | for whole inches, feet × 12 + inches gives the height back |
| Units.InchesCanReachTwelve | utils/units.ts:25 | 71.6 in displays as 5' 12": rounding the remainder can reach 12 |
| Numeric.Round | contexts/AppContext.tsx:303 | rounding is within half of the value (ties up), the behaviour of `Math.round` used throughout |
| Numeric.ParseIntOr | screens/OnboardingScreen.tsx:129 | `parseInt(text) \|\| d` is the parsed value unless parsing fails or gives 0 |
| Numeric.ParseIntOfIntToString | contexts/AppContext.tsx:400 | a number printed and then parsed comes back |
| Numeric.ParseDecimal | screens/ManualLogScreen.tsx:72-75 | a non-negative value; digit-only text parses to its digits' value exactly when non-empty |
| Numeric.Decimal | screens/ManualLogScreen.tsx:72-75 | the value of digits around a point is exactly the whole digits times the scale plus the fraction digits, over the scale |
| Numeric.DigitsValueAppend | screens/ManualLogScreen.tsx:72-75 | reading digits after other digits shifts the first ones by ten to the number of later digits |
| Numeric.ParseDecimalAt | screens/ManualLogScreen.tsx:72-75 | text with a point parses to the digits on either side of that point |
| Numeric.ParseDecimalScaled | screens/ManualLogScreen.tsx:72-75 | text with a point and a digit parses to the value of its digits with the point removed, divided by ten to the number of digits after the point |
| Numeric.TrimStart | screens/LogMealScreen.tsx:148 | the result is a suffix that does not start with white space, and everything cut off before it is white space |
| Numeric.TrimEnd | screens/LogMealScreen.tsx:148 | the result is a prefix that does not end with white space, and everything cut off after it is white space |
| Numeric.Trim | screens/MealPrepCreatorScreen.tsx:115 | the result is a slice of the text that neither starts nor ends with JavaScript white space (ASCII, no-break, byte order mark, every Unicode space separator, line terminators), and only white space lies outside it; text without white space is kept |
| Numeric.TrimOfSurrounded | screens/MealPrepCreatorScreen.tsx:115 | any slice with that property is the trimmed text, so the contract determines the result |
| Numeric.TrimKeepsInnerSpace | screens/MealPrepCreatorScreen.tsx:115 | inner white space stays: " a b " trims to "a b" |
| Numeric.Utf16Length | screens/LogMealScreen.tsx:149 | `length` counts UTF-16 code units: between one and two per character, zero only for the empty text |
| Numeric.Utf16LengthOfBmp | screens/LogMealScreen.tsx:149 | text without characters above the Basic Multilingual Plane is as long in code units as in characters |
| Numeric.LowerKeepsUtf16Length | screens/LogMealScreen.tsx:148-149 | lower-casing keeps the length in code units |
| Numeric.DigitsOnly | screens/LogActivityScreen.tsx:139 | the filtered text is all digits, holds exactly the digits of the input, and keeps digit-only text as it is |
| Numeric.DigitsOnlyAppend | screens/LogActivityScreen.tsx:139 | filtering a concatenation concatenates the filtered parts, so the digits keep their order |
| Numeric.DigitsOnlyOfOne | screens/LogActivityScreen.tsx:139 | one character is kept exactly when it is a digit |
| Numeric.DigitsOnlyExample | screens/LogActivityScreen.tsx:139 | "a1b2" becomes "12" |
| Numeric.Lower | screens/LogMealScreen.tsx:145 | lower-casing maps each character, ASCII capitals to small letters |
| MealViews.MealsForDay | screens/DiaryScreen.tsx:35-39 | the day's meals carry their original index into the log, in log order |
| MealViews.MealsForDayComplete | screens/DiaryScreen.tsx:35-39 | every meal of the day is listed with its index |
| MealViews.LoggedMealShowsLast | screens/DiaryScreen.tsx:35-39 | a newly logged meal appears last in its day, with the log's last index |
| MealViews.Summary | screens/DiaryScreen.tsx:41-47 | the reduce computes the day's nutrient totals |
| MealViews.SumOfAppend | screens/DiaryScreen.tsx:41-47 | totals of two lists add up |
| MealViews.OfType | screens/DiaryScreen.tsx:52-57 | the group of a type holds exactly the meals of that type |
| MealViews.OfTypeKeepsOrder | screens/DiaryScreen.tsx:52-57 | grouping by type is a filter: it distributes over concatenation and keeps one meal exactly when its type matches, so the day's order stays |
| MealViews.GroupByType | screens/DiaryScreen.tsx:52-57 | the grouping has a key exactly for the types with meals, each holding those meals |
| MealViews.CardsAddUpToDay | screens/DiaryScreen.tsx:108 | the four cards' calories add up to the day's total |
| MealViews.VisibleGroups | screens/DiaryScreen.tsx:103-106 | the cards shown are exactly the non-empty groups |
| MealViews.CardsInOrder | screens/DiaryScreen.tsx:103-106 | cards appear in breakfast, lunch, dinner, snacks order |
| MealViews.EmptyDayTestsAgree | screens/DiaryScreen.tsx:97 | "no groups" holds exactly when the day has no meals |
| MealViews.LoggedActivityCounts | screens/DashboardScreen.tsx:90-91 | logging an activity raises that day's burned calories by its calories |
| MealViews.RemovedActivityUncounts | screens/DashboardScreen.tsx:90-91 | removing an activity lowers its day's burned calories by its calories |
| Dashboard.SwipeOffset | screens/DashboardScreen.tsx:134-149 | a swipe beyond 50 px to the left goes forward a day, beyond 50 px to the right back a day, otherwise nowhere |
| Dashboard.SwipeIsSymmetric | screens/DashboardScreen.tsx:134-149 | mirrored swipes move in opposite directions |
| Dashboard.DashboardView.constructor | screens/DashboardScreen.tsx:68-71 | the dashboard starts on today with no swipe in progress |
| Dashboard.DashboardView.ChangeDay | screens/DashboardScreen.tsx:115-121 | the selected day moves by the offset |
| Dashboard.DashboardView.TouchStart | screens/DashboardScreen.tsx:123-126 | the start position is recorded and swiping begins |
| Dashboard.DashboardView.TouchMove | screens/DashboardScreen.tsx:128-132 | the delta follows the finger once a start was recorded |
| Dashboard.DashboardView.TouchEnd | screens/DashboardScreen.tsx:134-149 | the day moves by the swipe's offset and the touch state resets |
| Dashboard.AddWater | screens/DashboardScreen.tsx:209 | the registry is the old one with the current user's water for that day set to the old amount plus `amount`; the day rises by the amount, other days, other users and the session stay as they were |
| Diary.DiaryView.constructor | screens/DiaryScreen.tsx:18 | the diary starts on today |
| Diary.DiaryView.ChangeDate | screens/DiaryScreen.tsx:20-26 | the selected day moves by the amount |
| Diary.HandleDelete | screens/DiaryScreen.tsx:28-33 | a confirmed delete of an existing meal removes exactly that meal; otherwise nothing changes |
| ConcentricProgress.Progress | components/ConcentricProgress.tsx:55-57 | progress is consumed/goal × 100, or 0 without a positive goal |
| ConcentricProgress.ProgressAgainstGoal | components/ConcentricProgress.tsx:55-57 | a ring is full exactly when the goal is met, and over-full when exceeded |
| ConcentricProgress.MacroRings | components/ConcentricProgress.tsx:55-57 | each ring is its macro's progress |
| ConcentricProgress.RemainingCalories | components/ConcentricProgress.tsx:59 | remaining calories are goal + burned − eaten, rounded |
| ConcentricProgress.RemainingMonotone | components/ConcentricProgress.tsx:59 | eating more lowers and burning more raises the remaining calories |
| ConcentricProgress.RemainingExactForWholeCalories | components/ConcentricProgress.tsx:59 | with whole calories no rounding happens |
| Progress.Since | screens/ProgressScreen.tsx:38 | the window holds exactly the records on or after the cutoff; when every record is, it is the whole list |
| Progress.SinceKeepsOrder | screens/ProgressScreen.tsx:38 | the window is a filter: it distributes over concatenation and keeps one record exactly when it is on or after the cutoff, so order and multiplicity stay (a record logged twice counts twice) |
| Progress.DatesOf | screens/ProgressScreen.tsx:48 | the set of days holds exactly the records' dates, at most one per record |
| Progress.NoDatesIffNoRecords | screens/ProgressScreen.tsx:48-52 | zero days exactly when there are no records |
| Progress.AveragesOf | screens/ProgressScreen.tsx:50-59 | averages are the totals per day rounded, or zeros with no days |
| Progress.WeeklyAverages | screens/ProgressScreen.tsx:33-60 | the filter, reduce and day count compute the rounded per-day averages of the window |
| Progress.OneLoggedDayIsItsOwnAverage | screens/ProgressScreen.tsx:48-59 | with one logged day the averages are that day's rounded totals |
| Progress.SingleDate | screens/ProgressScreen.tsx:48 | records all on one date count as one day |
| Progress.GoalPercentage | screens/ProgressScreen.tsx:94 | the percentage is average/goal × 100 rounded, or 0 without a positive goal |
| Progress.GoalMetIsHundred | screens/ProgressScreen.tsx:94 | averaging exactly the goal shows 100% |
| Progress.ProgressBmi | screens/ProgressScreen.tsx:64-69 | BMI is the nearest tenth of 703·w/h², or 0 without a weight or height |
| Progress.CategoryOf | screens/ProgressScreen.tsx:71-77 | the four categories split the BMI line at 18.5, 25 and 30 |
| Progress.CategoryMonotone | screens/ProgressScreen.tsx:71-77 | a higher BMI never gives a lower category |
| Progress.MissingDataReadsUnderweight | screens/ProgressScreen.tsx:64-77 | a missing weight or height shows as underweight |
| Reports.DaysOr1 | screens/ReportsScreen.tsx:116 | the day count falls back to one only when zero |
| Reports.SuggestionAverages | screens/ReportsScreen.tsx:110-135 | the averages sent for suggestions are the window's totals per logged day (per one day when none) |
| Reports.ComputeBurned | screens/ReportsScreen.tsx:134 | the `reduce` over the window's activities gives their total calories burned |
| Reports.EmptyWindowSendsZeros | screens/ReportsScreen.tsx:115-130 | an empty window sends zero averages |
| Reports.NutritionChart | screens/ReportsScreen.tsx:165-180 | each chart point is its date's meal totals |
| Reports.ComputeNutritionChart | screens/ReportsScreen.tsx:165-180 | the map over the dates, each with the `reduce` over that day's meals, gives the nutrition chart |
| Reports.ActivityChart | screens/ReportsScreen.tsx:208-216 | each chart point is its date's burned calories |
| Reports.ChartTotalIsWindowTotal | screens/ReportsScreen.tsx:218 | with distinct dates the chart's total is the calories burned on the window's dates |
| Reports.ComputeTotalBurned | screens/ReportsScreen.tsx:218 | the `reduce` over the chart's bars gives their sum |
| Reports.ComputeChartMacros | screens/ReportsScreen.tsx:182-187 | the `reduce` over the chart's days gives the pie's macro totals |
| Reports.WithinOneMoreDate | screens/ReportsScreen.tsx:218 | one more date adds exactly its calories |
| Reports.MacroPie | screens/ReportsScreen.tsx:189-193 | the pie has exactly the positive macros, nothing else and none twice, in protein, carbs, fats order |
| Reports.ReportsCategory | screens/ReportsScreen.tsx:223-230 | the category of the unrounded BMI; with zero height, JavaScript's infinite or NaN BMI gives obese for a non-negative weight |
| Reports.ScreensDisagreeWithoutHeight | screens/ReportsScreen.tsx:223-230 | without a height the progress screen shows underweight and the reports screen obese |
| Reports.ScreensDisagreeNearBoundary | screens/ReportsScreen.tsx:223-230 | just below 18.5 the reports screen says underweight while the progress screen's one-decimal BMI says healthy |
| WaterHistory.Last7Days | screens/WaterHistoryScreen.tsx:20-35 | seven bars, oldest first, ending today, each with that day's intake (0 when missing) and the goal |
| WaterHistory.Entries | screens/WaterHistoryScreen.tsx:38-39 | one record per table pair, in table order |
| WaterHistory.EntriesMembers | screens/WaterHistoryScreen.tsx:38-39 | the records are exactly the table's pairs |
| WaterHistory.Positive | screens/WaterHistoryScreen.tsx:38-40 | the entries are exactly the recorded days with a positive intake |
| WaterHistory.PositiveKeepsOrder | screens/WaterHistoryScreen.tsx:38-40 | the filter distributes over concatenation and keeps one day exactly when its intake is positive, so table order and multiplicity stay |
| WaterHistory.LoggedEntriesProperties | screens/WaterHistoryScreen.tsx:37-42 | the list is newest first and holds exactly the positive days |
| WaterHistory.ZeroDaysNotListed | screens/WaterHistoryScreen.tsx:37-42 | a day with no water is not listed |
| MealPrep.BlankQueryNeverSearches | screens/MealPrepCreatorScreen.tsx:22-26 | a blank query never starts an ingredient search |
| MealPrep.AstralCharCountsTwice | screens/MealPrepCreatorScreen.tsx:23 | one emoji is two code units long: it passes the two-unit gate and fails a three-unit one |
| MealPrep.NumServings | screens/MealPrepCreatorScreen.tsx:84 | the servings divisor is the parsed servings when it is a non-zero number, and 1 when blank, unparsable or zero — never 0 |
| MealPrep.MealPrepForm.constructor | screens/MealPrepCreatorScreen.tsx:78-81 | the form starts empty with one serving |
| MealPrep.MealPrepForm.NutritionPerServing | screens/MealPrepCreatorScreen.tsx:83-103 | zeros without ingredients, otherwise the ingredient totals divided by the servings |
| MealPrep.MealPrepForm.ComputePerServing | screens/MealPrepCreatorScreen.tsx:89-102 | the reduce over the ingredients and the division compute the per-serving nutrition |
| MealPrep.MealPrepForm.AddIngredient | screens/MealPrepCreatorScreen.tsx:105-108 | the food is appended and the search closes |
| MealPrep.MealPrepForm.RemoveIngredient | screens/MealPrepCreatorScreen.tsx:110-112 | the ingredient at the index is removed |
| MealPrep.MealPrepForm.MealData | screens/MealPrepCreatorScreen.tsx:119-128 | the saved meal has the trimmed name, the servings, the ingredients and the per-serving nutrition |
| MealPrep.MealPrepForm.SaveMeal | screens/MealPrepCreatorScreen.tsx:114-131 | saving succeeds exactly with a non-blank name and an ingredient; it appends the meal with a fresh id and opens the log-meal page; a refused save changes nothing |
| MealPrep.PerServingScalesBack | screens/MealPrepCreatorScreen.tsx:97-102 | per-serving values times the servings give the totals back |
| MealPrep.AllServingsGiveTotals | screens/MealPrepCreatorScreen.tsx:83-103 | logging all servings of a saved prepped meal logs exactly its ingredients' totals |
| LogActivity.AllActivities | screens/LogActivityScreen.tsx:44-46 | the six defaults come first, then the user's own activities |
| LogActivity.DurationOfDigitInputs | screens/LogActivityScreen.tsx:48-52 | for digit-only inputs the duration is hours × 60 + minutes, never negative |
| LogActivity.CaloriesBurned | screens/LogActivityScreen.tsx:54-63 | zero without an activity, a positive duration or a positive weight; otherwise MET × kg × hours rounded |
| LogActivity.CaloriesGrowWithDuration | screens/LogActivityScreen.tsx:54-63 | a longer activity never burns fewer calories |
| LogActivity.LogActivityForm.constructor | screens/LogActivityScreen.tsx:37-42 | nothing selected, empty durations, dialog closed, blank new activity |
| LogActivity.LogActivityForm.Select | screens/LogActivityScreen.tsx:119 | the activity becomes selected |
| LogActivity.LogActivityForm.SetHours | screens/LogActivityScreen.tsx:139 | the hours keep only the typed digits |
| LogActivity.LogActivityForm.SetMinutes | screens/LogActivityScreen.tsx:148 | the minutes keep only the typed digits |
| LogActivity.LogActivityForm.HandleLog | screens/LogActivityScreen.tsx:65-78 | logging happens exactly with a selected activity and a positive duration, and logs that activity with its duration and calories for today |
| LogActivity.LogActivityForm.OpenModal | screens/LogActivityScreen.tsx:123 | the dialog opens |
| LogActivity.LogActivityForm.CloseModal | screens/LogActivityScreen.tsx:80-83 | the dialog closes and its form resets |
| LogActivity.LogActivityForm.SaveNewActivity | screens/LogActivityScreen.tsx:85-97 | saving happens exactly with a non-blank name, an emoji and a positive MET; it adds the trimmed activity and closes the dialog; otherwise nothing changes |
| LogActivity.SavedActivityIsOffered | screens/LogActivityScreen.tsx:44-46 | a saved activity is offered last in the list, with a positive MET and a name |
| LogMeal.DefaultMealType | screens/LogMealScreen.tsx:9-15 | breakfast 5–11, lunch 11–16, dinner 16–22, snacks otherwise |
| LogMeal.InCategory | screens/LogMealScreen.tsx:141 | the category's foods are exactly those tagged with it |
| LogMeal.InCategoryKeepsOrder | screens/LogMealScreen.tsx:141 | the category list is a filter: it distributes over concatenation and keeps one food exactly when it has the category, so the popular list's order stays |
| LogMeal.FoodList | screens/LogMealScreen.tsx:138-142 | all foods for "All", none for "Meal Prep", otherwise exactly `InCategory` of the popular foods, in their order |
| LogMeal.ToggleFlipsStar | screens/LogMealScreen.tsx:144-145 | toggling a food flips its star |
| LogMeal.StarIgnoresCase | screens/LogMealScreen.tsx:144-145 | foods whose names differ only in case share a star |
| LogMeal.FoodAsMeal | screens/LogMealScreen.tsx:173-177 | the logged meal is the food's nutrition with the chosen type and today's date |
| LogMeal.LogMealForm.constructor | screens/LogMealScreen.tsx:131-136 | empty search, default meal type for the hour, all foods |
| LogMeal.LogMealForm.SelectMealType | screens/LogMealScreen.tsx:241 | only the meal type changes |
| LogMeal.LogMealForm.SelectCategory | screens/LogMealScreen.tsx:244 | only the category changes |
| LogMeal.TooShort | screens/LogMealScreen.tsx:148-149 | the gate on the trimmed, lower-cased query refuses exactly the queries under three UTF-16 code units once trimmed |
| LogMeal.LogMealForm.QueryChanged | screens/LogMealScreen.tsx:147-169 | a search starts exactly when the trimmed query has three or more UTF-16 code units; a shorter query clears the results |
| LogMeal.LogMealForm.SearchFinished | screens/LogMealScreen.tsx:157-165 | the results are shown (none after a failure) and searching stops |
| LogMeal.LogMealForm.LogFood | screens/LogMealScreen.tsx:171-179 | the food goes to the recents and is then logged as a meal of the chosen type |
| LogMeal.LogMealForm.LogPreppedMeal | screens/LogMealScreen.tsx:181-188 | one serving of the prepped meal is logged |
| LogMeal.OneServingIsPerServing | screens/LogMealScreen.tsx:181-188 | one serving logs the per-serving nutrition under a singular label |
| ManualLog.NoNumberExactly | screens/ManualLogScreen.tsx:49-52 | among texts the field accepts, only "" and "." have no number |
| ManualLog.GuardAdmitsDot | screens/ManualLogScreen.tsx:65-68 | the guard as written lets "." through although it has no number |
| ManualLog.CorrectedGuardDiffersOnlyOnDot | screens/ManualLogScreen.tsx:65-68 | the corrected guard refuses exactly what the written one refuses, plus a lone "." |
| ManualLog.ManualLogForm.constructor | screens/ManualLogScreen.tsx:37-44 | empty fields, snacks |
| ManualLog.ManualLogForm.SetNutrient | screens/ManualLogScreen.tsx:46-52 | a nutrient field takes only decimal text; other fields unchanged |
| ManualLog.ManualLogForm.SetName | screens/ManualLogScreen.tsx:53-55 | the name takes any text |
| ManualLog.ManualLogForm.SelectType | screens/ManualLogScreen.tsx:58-60 | only the meal type changes |
| ManualLog.ManualLogForm.Submit | screens/ManualLogScreen.tsx:62-81 | a meal is logged exactly when every field holds a number, with the parsed values, the type and today's date; otherwise nothing changes |
| ManualLog.SubmittedValuesNonNegative | screens/ManualLogScreen.tsx:62-81 | submitted nutrients are never negative |
| Onboarding.PreviewTargetIsTarget | screens/OnboardingScreen.tsx:85-100 | the screen's own target formula equals the shared calculator's |
| Onboarding.PreviewMatchesCalculator | screens/OnboardingScreen.tsx:85-107 | the preview's macros are the ones registration stores; its calories are the rounded target |
| Onboarding.InitialPreview | screens/OnboardingScreen.tsx:55-60 | the initial profile previews 1942 kcal, 146 g protein, 194 g carbs, 65 g fats |
| Onboarding.FeetEditKeepsInches | screens/OnboardingScreen.tsx:166 | editing the feet keeps the inches part and sets the feet |
| Onboarding.InchesEditKeepsFeet | screens/OnboardingScreen.tsx:167 | editing the inches (0–11) keeps the feet and sets the inches |
| Onboarding.FeetThenInches | screens/OnboardingScreen.tsx:166-167 | typing feet then inches gives feet × 12 + inches |
| Onboarding.OnboardingForm.constructor | screens/OnboardingScreen.tsx:52-60 | step 1, the initial profile, 180 lbs |
| Onboarding.OnboardingForm.Next | screens/OnboardingScreen.tsx:64 | an enabled Next advances one step up to the sixth; a disabled one does nothing |
| Onboarding.OnboardingForm.Back | screens/OnboardingScreen.tsx:65-71 | back goes one step down to the first; on the first, with existing users, it cancels registration |
| Onboarding.OnboardingForm.SetName | screens/OnboardingScreen.tsx:116 | only the name changes |
| Onboarding.OnboardingForm.SetAge | screens/OnboardingScreen.tsx:129 | the age is the parsed text, or 0 |
| Onboarding.OnboardingForm.SetGender | screens/OnboardingScreen.tsx:133 | only the gender changes |
| Onboarding.OnboardingForm.SetUnitSystem | screens/OnboardingScreen.tsx:148 | only the unit system changes |
| Onboarding.OnboardingForm.SetActivityLevel | screens/OnboardingScreen.tsx:187-191 | only the activity level changes |
| Onboarding.OnboardingForm.SetPrimaryGoal | screens/OnboardingScreen.tsx:203-205 | only the goal changes |
| Onboarding.OnboardingForm.SetFeet | screens/OnboardingScreen.tsx:166 | the height takes the typed feet and keeps the inches part |
| Onboarding.OnboardingForm.SetInches | screens/OnboardingScreen.tsx:167 | the height keeps the feet and takes the typed inches |
| Onboarding.OnboardingForm.SetHeightCm | screens/OnboardingScreen.tsx:154 | the height is the typed centimetres in inches |
| Onboarding.OnboardingForm.SetWeightKg | screens/OnboardingScreen.tsx:158 | the weight is the typed kilograms in pounds (0 when no number) |
| Onboarding.OnboardingForm.SetWeightLbs | screens/OnboardingScreen.tsx:172 | the weight is the parsed pounds, or 0 |
| Onboarding.OnboardingForm.Submit | screens/OnboardingScreen.tsx:73-79 | registration happens exactly with a name, a positive age and a positive weight, creating the new user; otherwise nothing changes |
| Onboarding.RegisteredGoalsArePreviewed | screens/OnboardingScreen.tsx:85-107 | the goals a new user gets are the ones the review step showed |
| ProfileEditor.ProfileForm.constructor | screens/ProfileScreen.tsx:29 | the form starts from the current profile |
| ProfileEditor.ProfileForm.SetName | screens/ProfileScreen.tsx:35-41 | only the name changes |
| ProfileEditor.ProfileForm.SetAvatar | screens/ProfileScreen.tsx:85 | only the avatar changes, to the picked one |
| ProfileEditor.ProfileForm.SetAge | screens/ProfileScreen.tsx:39 | the age is the parsed text, 0 when unparsable |
| ProfileEditor.ProfileForm.SetGender | screens/ProfileScreen.tsx:43-49 | only the gender changes |
| ProfileEditor.ProfileForm.SetActivityLevel | screens/ProfileScreen.tsx:43-49 | only the activity level changes |
| ProfileEditor.ProfileForm.SetPrimaryGoal | screens/ProfileScreen.tsx:43-49 | only the goal changes |
| ProfileEditor.ProfileForm.SetUnitSystem | screens/ProfileScreen.tsx:43-49 | only the unit system changes |
| ProfileEditor.ProfileForm.SetFeet | screens/ProfileScreen.tsx:51-62 | the height is the typed feet × 12 plus the previous inches part |
| ProfileEditor.ProfileForm.SetInches | screens/ProfileScreen.tsx:51-62 | the height is the previous whole feet × 12 plus the typed inches |
| ProfileEditor.ProfileForm.SetHeightCm | screens/ProfileScreen.tsx:122 | the height is the typed centimetres in inches |
| ProfileEditor.ProfileForm.Save | screens/ProfileScreen.tsx:31-33 | the edited profile is saved through the profile update |
| ProfileEditor.SavedProfileRecomputesGoals | screens/ProfileScreen.tsx:31-33 | saving replaces the profile, recomputes the goals from the latest weight, and keeps the logs and history |
| AdjustMacros.SliderRange | screens/AdjustMacrosScreen.tsx:66-89 | each slider has a non-empty range |
| AdjustMacros.SetAmount | screens/AdjustMacrosScreen.tsx:69-85 | moving one slider sets that macro and keeps the other two |
| AdjustMacros.SliderStepCalories | screens/AdjustMacrosScreen.tsx:36-38 | moving a slider changes the total by 4 (protein, carbs) or 9 (fats) per gram |
| AdjustMacros.TotalWithinSliderRanges | screens/AdjustMacrosScreen.tsx:36-38 | any slider position totals between 250 and 5000 kcal |
| AdjustMacros.MacroEditor.constructor | screens/AdjustMacrosScreen.tsx:34 | the editor starts from the current goals |
| AdjustMacros.MacroEditor.TotalCalories | screens/AdjustMacrosScreen.tsx:36-38 | the shown total is the goals' calories |
| AdjustMacros.MacroEditor.Slide | screens/AdjustMacrosScreen.tsx:66-89 | the slider sets its macro only |
| AdjustMacros.MacroEditor.Reset | screens/AdjustMacrosScreen.tsx:40-43 | reset restores the calculator's goals for the profile and current weight |
| AdjustMacros.MacroEditor.Save | screens/AdjustMacrosScreen.tsx:45-47 | the goals are saved and the page becomes Settings |
| RemindersModal.Merge | components/RemindersModal.tsx:60-65 | editing the time keeps the switch and vice versa |
| RemindersModal.RowsListEveryTypeOnce | components/RemindersModal.tsx:81-87 | the dialog lists the five reminder types, once each, in order |
| RemindersModal.ReminderDialog.constructor | components/RemindersModal.tsx:47 | the dialog starts with the user's settings |
| RemindersModal.ReminderDialog.RemindersChanged | components/RemindersModal.tsx:56-58 | new settings from the store replace the local copy |
| RemindersModal.ReminderDialog.PermissionRead | components/RemindersModal.tsx:50-54 | the permission is recorded |
| RemindersModal.ReminderDialog.Change | components/RemindersModal.tsx:60-65 | an enabled control changes its own reminder only; a disabled one changes nothing |
| RemindersModal.ReminderDialog.Save | components/RemindersModal.tsx:67-70 | saving is possible exactly unless permission is denied, and stores the settings and closes the dialog |
| RemindersModal.OffThenOnRestores | components/RemindersModal.tsx:60-65 | switching a reminder off and on again restores the settings |

## Left out

- Persistence in `localStorage` is not modelled: the store's state is plain fields.
- Timers, the Notification API, the DOM, media queries and the theme effect are not modelled. `Store.AppStore.Tick` takes the permission and the clock as parameters.
- The camera, barcode and AI screens and their services are outside the model. So are the food and ingredient search calls: only the query gate and the result handling are modelled.
- Date arithmetic is injected, not computed. `toYYYYMMDD`, "today", "yesterday", the 7/30-day date lists, the water history's day texts and the weekly cutoff are all parameters.
- Display strings are not modelled: `toFixed`, `toLocaleDateString` and chart labels. Only the numbers they show are (`Units.Fixed1`, `Units.Fixed0`).
- ManualLog.ManualLogForm.SetNutrient: the nutrient inputs are `<input type="number">`, which the browser sanitises before the filter sees them (a lone "." most likely arrives as ""). The model treats these fields as free text filtered only by the regular expression `^\d*\.?\d*$`.
- IEEE-754 floating point is not modelled: numbers are exact reals. NaN appears only where a result depends on it (`Reports.ReportsCategory`, `ManualLog.GuardAdmitsDot`).
- `parseInt` is modelled for ASCII digits with an optional sign after leading whitespace. Radix prefixes and exponent forms are not modelled.
- Numeric.Lower: covers ASCII letters only. JavaScript's `toLowerCase` also maps other scripts, and can lengthen a string ("İ" becomes two code units), which the model's `LogMeal.LogMealForm.QueryChanged` gate does not capture.
- `parseFloat` of free text is not modelled: the new activity's MET and the onboarding kilograms arrive as an optional number (`LogActivity.LogActivityForm.SaveNewActivity`, `Onboarding.OnboardingForm.SetWeightKg`). The manual-entry fields are parsed, because their filter restricts them to decimal text.
- The popular foods list is a parameter of `LogMeal.FoodList`.
- `confirm`, `alert` and `crypto.randomUUID` are not modelled. Confirmations are booleans and fresh ids are parameters; alerts are the refused branch.
- Disabled buttons and controls are modelled as no-ops:
  - onboarding Next on an invalid step;
  - reminder controls while permission is denied or a reminder is off;
  - Save while permission is denied.
- The per-day and per-card calorie sums (DashboardScreen.tsx:25 and 91, DiaryScreen.tsx:108, ReportsScreen.tsx:211) are recursive functions (`MealViews.BurnedOn`, `MealViews.SumOf`), not loops: the model does not show them being accumulated step by step.
- AdjustMacros.MacroEditor.Slide: requires the value in the slider's range, which the range input guarantees.
- The weight history sort compares date strings instead of `Date` times. The two orders agree for `YYYY-MM-DD` dates.
- Where the code and the product description disagree, the model follows the code:
  - the notification record is never reset;
  - recents are matched by exact, case-sensitive name;
  - the weekly windows use the cutoff "today − 7", which covers eight days;
  - calorie and BMI code uses 2.20462 lbs per kg, while the unit helpers use 2.20462262185.
- The reports screen's BMI has no zero-height guard, unlike the progress screen's. Both are modelled as written, and `Reports.ScreensDisagreeWithoutHeight` shows the consequence.
- The remaining screens, components and `App.tsx` routing are not part of this model:
  - meal detail, settings, weight history and weight goals;
  - welcome, bottom navigation, the date selector and the info dialog.

## Findings

| source | as written | input that shows it | evidently intended | confidence | as-written member | corrected member |
|---|---|---|---|---|---|---|
| screens/ManualLogScreen.tsx:49-68 | the nutrient filter `^\d*\.?\d*$` accepts a lone ".", and the non-empty guard lets it through, so `parseFloat(".")` logs NaN calories | calories "." with every other field filled, if the browser passes the text through; the fields are `type="number"` inputs, whose sanitisation most likely turns "." into "" | refuse a field that holds no number | low, not executed | ManualLog.GuardAdmitsDot | ManualLog.ManualLogForm.Submit |
