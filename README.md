# Freelance marketplace: matching, session state and account rules

This project models the core of a small freelance marketplace. Clients post
projects that list the technologies they require. Freelancers keep a
profile of their own technologies. The client application matches each new
project against the freelancer pool and notifies the client of every
match. It scores every project against a freelancer's profile and shows
the freelancer the projects that match best. A Java backend registers
accounts, logs them in and stores uploaded avatar images.

The model is organised by the program's own structure:

- `Entities`: the records both sides share (users, freelancers, projects,
  notifications, freelancer profiles, the freelancer's view of a matching
  project).
- `Matching`: the two matching rules. A freelancer qualifies for a project
  with n required technologies when at least ceil(n/2) of them are among
  the freelancer's technologies. A project is shown to a freelancer when
  its rounded match percentage is at least 50. The list is stably sorted,
  best score first.
- `Notifications`: one notification per matched freelancer. A notification
  can be dismissed by id.
- `LocalStore`: the browser-side store. It holds the list of known users,
  the stored profiles in key order, and the freelancer pool. The pool is
  the registered freelancers followed by the built-in samples.
- `Session`: the application's state as a class. Its methods are posting a
  project, dismissing a notification, saving a profile, applying a
  login/registration answer and logging out.
- `TechSelection`, `ProjectFormModel`, `ProfileFormModel`, `RegisterForm`:
  the form logic. This is the technology toggle, and the submit checks in
  their order with their alerts.
- `NotificationPanel`, `FreelancerDashboard`, `ClientDashboard`: the figures
  the views compute. These are the relative-time label, the technology chips,
  badge, average match, skill marks, availability label and total matches.
- `Auth`: the backend's registration and login over a repository keyed
  by email.
- `FileUpload`: the avatar upload checks and the stored file's URL.
- `Wrappers`, `Seqs`, `Decimal`, `Rounding`: shared helpers. These are
  Option/Result, a list filter with its laws, decimal rendering of whole
  numbers, and exact half-up rounding of a ratio.

Numbers are whole numbers. Times are milliseconds since the epoch. The
clock, random UUIDs and network answers are parameters of the operations
that use them.

A project with no required technologies scores NaN (0/0) in
`findMatchingProjects`, and NaN fails the `>= 50` filter. The model keeps
this as `Score.NaN`, so such a project is never shown to a freelancer,
although every freelancer qualifies for it on the client side
(`Matching.EmptyRequirementMatchesAll`).

The browser store is modelled as fields of the session beside the
in-memory state. The project list on screen and the stored project list
are separate fields: a logout clears the first and keeps the second, and
the next posted project overwrites the stored list with the in-memory one.

## Model

| member | source | states |
|---|---|---|
| Matching.MatchCount | Downloads/freelancefrontend/src/App.tsx:296 | The overlap count is at most the number of required technologies. It is 0 exactly when none of them is in the candidate's list, and it is the full count exactly when all of them are. |
| Matching.HalfCeil | Downloads/freelancefrontend/src/App.tsx:297 | `Math.ceil(n * 0.5)` is the least h with n <= 2h. |
| Matching.MeetsClientThreshold | Downloads/freelancefrontend/src/App.tsx:296-297 | A freelancer qualifies exactly when twice the overlap count reaches the number of required technologies, that is when the overlap is at least ceil(n/2). |
| Matching.FindMatchingFreelancers | Downloads/freelancefrontend/src/App.tsx:294-299 | A freelancer is in the result exactly when it is in the pool and its overlap reaches ceil(n/2). The result keeps pool order (it is a subsequence of the pool), and it holds every qualifying pool entry as many times as the pool does. |
| Matching.EmptyRequirementMatchesAll | Downloads/freelancefrontend/src/App.tsx:294-299 | With no required technology, every pool member qualifies. |
| Matching.MatchPercentage | Downloads/freelancefrontend/src/App.tsx:347-348 | The score is NaN exactly when the project lists no technology. Otherwise it is the whole number nearest to 100·count/n, halves rounded up, and at most 100. |
| Matching.MeetsFreelancerThreshold | Downloads/freelancefrontend/src/App.tsx:362 | A NaN score never passes `>= 50`. A whole score passes exactly when it is at least 50. |
| Matching.ClientEmail | Downloads/freelancefrontend/src/App.tsx:358 | `user?.email || ''`: the signed-in user's email, or the empty string without a user. |
| Matching.FreelancerThresholdIff | Downloads/freelancefrontend/src/App.tsx:347-362 | A project passes `matchPercentage >= 50` exactly when 200·count >= 99·n. |
| Matching.ThresholdsAgreeUpTo100 | Downloads/freelancefrontend/src/App.tsx:297-362 | For 1 to 100 required technologies, the client-side and freelancer-side rules accept the same overlaps. |
| Matching.ThresholdsDisagreeFrom101 | Downloads/freelancefrontend/src/App.tsx:297-362 | For an odd n of at least 101 with n/2 (rounded down) technologies covered, the freelancer-side rule accepts and the client-side rule rejects. |
| Matching.ToProjectMatch | Downloads/freelancefrontend/src/App.tsx:346-360 | The row copies the project's id, title, description, budget, technologies and posting date. Its client name is "Client" and its client email is the given one. Its score is the rounded percentage of the project's technologies that the freelancer has; it is NaN exactly when the project lists none, and never above 100. |
| Matching.ScoreProjects | Downloads/freelancefrontend/src/App.tsx:345-361 | One row per project, in order, scored against the freelancer's technologies, with client name "Client" and the signed-in user's email. |
| Matching.Qualifying | Downloads/freelancefrontend/src/App.tsx:362 | Exactly the rows scoring 50 or more are kept, in their order (the result is a subsequence of the input). |
| Matching.QualifyingWithKey | Downloads/freelancefrontend/src/App.tsx:362 | For a score of 50 or more, the rows with that score are the same, in the same order, before and after the filter. |
| Matching.InsertByMatch | Downloads/freelancefrontend/src/App.tsx:363 | Inserting into the sorted list adds exactly that one element (multiset). |
| Matching.InsertByMatchDescending | Downloads/freelancefrontend/src/App.tsx:363 | Insertion keeps a list sorted with the highest score first. |
| Matching.SortByMatch | Downloads/freelancefrontend/src/App.tsx:363 | The sort yields a permutation of its input, in non-increasing score order. |
| Matching.InsertWithKey | Downloads/freelancefrontend/src/App.tsx:363 | Among the elements with any one score, insertion puts the new element (if it has that score) first and keeps the others in order. |
| Matching.SortByMatchStable | Downloads/freelancefrontend/src/App.tsx:363 | For every score, the elements with that score keep their input order. |
| Matching.FindMatchingProjects | Downloads/freelancefrontend/src/App.tsx:342-364 | Without a profile the result is empty. Otherwise it holds exactly the scored projects at 50% or more, best first. Every entry has a whole score from 50 to 100 and a non-empty technology list. |
| Matching.FindMatchingProjectsStable | Downloads/freelancefrontend/src/App.tsx:342-364 | For every score of 50 or more, the shown rows with that score are exactly the scored projects with that score, in the order of the project list. |
| Notifications.NotificationId | Downloads/freelancefrontend/src/App.tsx:318 | The id is the project id, a '-', then the freelancer id; each part is recoverable by position. |
| Notifications.NotificationIdInjective | Downloads/freelancefrontend/src/App.tsx:318 | For project ids without '-', equal notification ids come from the same project id and the same freelancer id. |
| Notifications.NotificationIdsApart | Downloads/freelancefrontend/src/App.tsx:318 | For one '-'-free project id, different freelancer ids give different notification ids. |
| Notifications.DerivedIdsDistinct | Downloads/freelancefrontend/src/App.tsx:317-323 | With a '-'-free project id and matched freelancers of distinct ids, the new notifications have distinct ids. |
| Notifications.DeriveNotifications | Downloads/freelancefrontend/src/App.tsx:317-323 | One notification per matched freelancer, in match order. Each one carries the new project's id and title, that freelancer and the given time. |
| Notifications.Dismiss | Downloads/freelancefrontend/src/App.tsx:366-368 | Exactly the notifications with a different id are kept, in their order. |
| Notifications.DismissIdempotent | Downloads/freelancefrontend/src/App.tsx:366-368 | Dismissing an id twice is the same as dismissing it once. |
| Notifications.DismissAbsent | Downloads/freelancefrontend/src/App.tsx:366-368 | Dismissing an id no notification has changes nothing. |
| Notifications.DismissConcat | Downloads/freelancefrontend/src/App.tsx:366-368 | Dismissal applies separately to the new notifications and the earlier ones. |
| Notifications.DismissAround | Downloads/freelancefrontend/src/App.tsx:366-368 | When only one notification has a given id, dismissing that id removes exactly it and keeps the rest in order. |
| Notifications.DismissUnique | Downloads/freelancefrontend/src/App.tsx:366-368 | When ids are distinct, dismissing entry k's id removes exactly entry k. |
| LocalStore.FindIndex | Downloads/freelancefrontend/src/App.tsx:173 | `findIndex`: -1 exactly when no user has the id. Otherwise the first index that has it. |
| LocalStore.FindUser | Downloads/freelancefrontend/src/App.tsx:190 | `find`: nothing exactly when no user has the id. Otherwise the first user with it. |
| LocalStore.UpsertUser | Downloads/freelancefrontend/src/App.tsx:171-177 | The first entry with the same id is replaced and all other entries are kept. When there is none, the user is appended. |
| LocalStore.UpsertThenFind | Downloads/freelancefrontend/src/App.tsx:171-177 | After an upsert, looking up the id finds the upserted user. |
| LocalStore.UpsertKeepsIdsDistinct | Downloads/freelancefrontend/src/App.tsx:171-177 | Upserting never creates a second entry for an id. |
| LocalStore.PutProfile | Downloads/freelancefrontend/src/App.tsx:334-335 | The profile is stored under the id. An existing key keeps its place in the key order, and a new key goes last. The keys stay distinct and in step with the map. |
| LocalStore.PutProfileIdempotent | Downloads/freelancefrontend/src/App.tsx:334-335 | Storing the same profile twice stores the same as storing it once. |
| LocalStore.ToFreelancer | Downloads/freelancefrontend/src/App.tsx:190-200 | The pool entry copies the id and the profile's title, technologies, rate and experience. Its name is the found user's name when that is non-empty, and it is "Unknown" exactly when no user is found or the user's name is empty or itself "Unknown". Its email is the user's, or "". Its avatar is the stored avatar when that is non-empty, and it is the placeholder exactly when the profile's avatar is absent, empty or itself the placeholder URL. |
| LocalStore.RegisteredFreelancers | Downloads/freelancefrontend/src/App.tsx:188-203 | One freelancer per stored profile, in key order, each built from that profile and the first user with that id. |
| LocalStore.Pool | Downloads/freelancefrontend/src/App.tsx:205 | The registered freelancers come first, followed by the samples. |
| Session.NewProject | Downloads/freelancefrontend/src/App.tsx:304-311 | The new project's id is the clock reading in decimal and its posting date is that reading. Title, description, budget and technologies come from the form. Its matches are the pool's qualifying freelancers, so a freelancer is among them exactly when it is in the pool and meets the client-side rule. |
| Session.NewProjectNotificationIdsDistinct | Downloads/freelancefrontend/src/App.tsx:304-323 | A new project's id is all digits, so when its matched freelancers have distinct ids, its notifications have distinct ids and each can be dismissed alone. |
| Session.StoredProfileOf | Downloads/freelancefrontend/src/App.tsx:208-214 | A profile is loaded exactly when the user is a freelancer with a stored profile under their id, and it is that stored profile. |
| Session.AppSession.FreelancerPool | Downloads/freelancefrontend/src/App.tsx:184-206 | `allFreelancers`: one registered freelancer per stored profile in key order, followed by the built-in samples. |
| Session.AppSession.MatchingProjects | Downloads/freelancefrontend/src/App.tsx:342-364 | Without a profile nothing is shown. Otherwise the shown rows are exactly the session's projects scored 50 to 100 against the profile, best first. |
| Session.AppSession.constructor | Downloads/freelancefrontend/src/App.tsx:159-226 | The stored user, profiles, known users and projects are loaded, and the stored entries stay as they are. A freelancer's own stored profile is picked up. There are no notifications, and the samples are the built-in freelancers (`Downloads/freelancefrontend/src/App.tsx:95-156`). |
| Session.AppSession.CreateProject | Downloads/freelancefrontend/src/App.tsx:301-327 | With no user, nothing changes. Otherwise the new project goes first, carrying its matches from the current pool, and the stored project list becomes the whole in-memory list. Its notifications go ahead of the earlier ones, and all other state is kept. |
| Session.AppSession.DismissNotification | Downloads/freelancefrontend/src/App.tsx:366-368 | The notification list becomes its dismissal by id, and the session stays well formed. |
| Session.AppSession.SaveFreelancerProfile | Downloads/freelancefrontend/src/App.tsx:329-339 | With no user, nothing changes. Otherwise the session profile is replaced and the stored profile for the user's id is overwritten. Every other stored profile is unchanged. |
| Session.AppSession.ApplyAuthResponse | Downloads/freelancefrontend/src/App.tsx:208-280 | An error answer changes nothing. A user answer signs the user in, stores them as the signed-in user and upserts them into the known users. It loads their stored profile if they are a freelancer and one exists. |
| Session.AppSession.Logout | Downloads/freelancefrontend/src/App.tsx:286-292 | The user, profile, projects and notifications are cleared, and the stored user is removed. The stored projects, profiles and known users stay. |
| TechSelection.Toggle | Downloads/freelancefrontend/src/components/ProjectForm.tsx:17-23 | A selected technology is removed everywhere, and every other technology keeps its order and its number of occurrences. An unselected one is appended. |
| TechSelection.ToggleKeepsDistinct | frontend/src/components/FreelancerProfile.tsx:35-37 | A selection without repeats stays without repeats. |
| TechSelection.ToggleTwiceRestores | Downloads/freelancefrontend/src/components/ProjectForm.tsx:17-23 | Selecting and then deselecting an unselected technology restores the selection. |
| TechSelection.ToggleTwiceMovesLast | Downloads/freelancefrontend/src/components/ProjectForm.tsx:17-23 | Deselecting and reselecting a selected technology removes all its copies and puts it once at the end. |
| ProjectFormModel.CanSubmit | Downloads/freelancefrontend/src/components/ProjectForm.tsx:27 | The form may be submitted exactly when title, description and budget are non-empty (an empty string is falsy) and at least one technology is selected. |
| ProjectFormModel.ProjectForm.constructor | Downloads/freelancefrontend/src/components/ProjectForm.tsx:12-15 | All fields start empty with no technology selected. |
| ProjectFormModel.ProjectForm.HandleTechToggle | Downloads/freelancefrontend/src/components/ProjectForm.tsx:17-23 | The selection becomes its toggle. |
| ProjectFormModel.ProjectForm.HandleSubmit | Downloads/freelancefrontend/src/components/ProjectForm.tsx:25-43 | With a field empty or no technology, the alert is given, nothing is submitted and the form is unchanged. Otherwise the fields and selection are handed over and the form is cleared. |
| ProfileFormModel.AvatarUrlFor | frontend/src/components/FreelancerProfile.tsx:60 | The displayed avatar is the backend origin followed by the answered URL. |
| ProfileFormModel.UploadedAvatarUrl | frontend/src/components/FreelancerProfile.tsx:60 | After a successful upload, the avatar URL starts with the origin and "/uploads/" and ends with the original file's extension. |
| ProfileFormModel.ValidateProfile | frontend/src/components/FreelancerProfile.tsx:68-90 | A missing field or selection is refused first. A negative experience or rate is refused next. Otherwise the profile carries exactly the form's values, with the avatar URL. |
| ProfileFormModel.ProfileForm.constructor | frontend/src/components/FreelancerProfile.tsx:22-33 | The fields start from the saved profile when there is one. Otherwise they start empty, on 'full-time', not uploading. |
| ProfileFormModel.ProfileForm.HandleTechToggle | frontend/src/components/FreelancerProfile.tsx:35-37 | The selection becomes its toggle. |
| ProfileFormModel.ProfileForm.BeginUpload | frontend/src/components/FreelancerProfile.tsx:41 | The form is marked as uploading. |
| ProfileFormModel.ProfileForm.FinishUpload | frontend/src/components/FreelancerProfile.tsx:53-65 | An answered URL sets the avatar under the backend origin. An error leaves it. Uploading ends either way. |
| ProfileFormModel.ProfileForm.Submit | frontend/src/components/FreelancerProfile.tsx:68-90 | An accepted profile carries the selection, availability and avatar the form holds. |
| RegisterForm.InitialFields | Downloads/freelancefrontend/src/components/Register.tsx:10-14 | The form starts with every text field empty and the account kind on 'client'. |
| RegisterForm.InitialFieldsRefused | Downloads/freelancefrontend/src/components/Register.tsx:10-22 | Submitting the untouched form is refused with "Please fill in all fields". |
| RegisterForm.UntouchedKindRegistersClient | Downloads/freelancefrontend/src/components/Register.tsx:10-35 | Filling in valid text fields without touching the account kind registers a client. |
| RegisterForm.Utf16Length | Downloads/freelancefrontend/src/components/Register.tsx:29 | A string's `length` counts UTF-16 code units: between one and two per character. |
| RegisterForm.Utf16LengthBmp | Downloads/freelancefrontend/src/components/Register.tsx:29 | Without characters above U+FFFF, `length` is the number of characters. |
| RegisterForm.Utf16LengthAstral | Downloads/freelancefrontend/src/components/Register.tsx:29 | Text made only of characters above U+FFFF has `length` twice its character count. |
| RegisterForm.AstralPasswordPasses | Downloads/freelancefrontend/src/components/Register.tsx:16-35 | A password of three or more characters above U+FFFF (three emoji, say) passes the 6-character check, and with the other checks passed it registers. |
| RegisterForm.HandleSubmit | Downloads/freelancefrontend/src/components/Register.tsx:16-35 | An empty field is refused first, then differing passwords, then a password under 6 UTF-16 code units. Registration goes ahead exactly when all pass, with the entered values. |
| NotificationPanel.AgeOf | frontend/src/components/NotificationPanel.tsx:12-19 | "Just now" exactly when less than a minute has passed, including a negative difference. Otherwise whole minutes 1-59, then whole hours 1-23, then whole days. Each count is the floor of the difference over a minute, an hour or a day. |
| NotificationPanel.Label | frontend/src/components/NotificationPanel.tsx:15-19 | The text is "Just now" exactly for that bucket. |
| NotificationPanel.Unit | frontend/src/components/NotificationPanel.tsx:16-19 | A count label is the count's decimal digits followed by its unit. |
| NotificationPanel.FormatTime | frontend/src/components/NotificationPanel.tsx:10-20 | "Just now" exactly when less than a minute has passed. |
| NotificationPanel.LabelReadsBack | frontend/src/components/NotificationPanel.tsx:16-19 | The minutes, hours or days count reads back from the label's digits. |
| NotificationPanel.VisibleChips | frontend/src/components/NotificationPanel.tsx:88 | The first min(3, n) technologies are shown. |
| NotificationPanel.MoreChip | frontend/src/components/NotificationPanel.tsx:96-100 | "+N more" appears exactly when there are more than 3 technologies. The shown chips and N add up to all of them. |
| NotificationPanel.Badge | frontend/src/components/NotificationPanel.tsx:36-40 | The badge appears exactly when there is a notification, and it shows their number. |
| FreelancerDashboard.SumScores | frontend/src/components/FreelancerDashboard.tsx:148 | The sum of scores is NaN exactly when some score is NaN. |
| FreelancerDashboard.AverageMatch | frontend/src/components/FreelancerDashboard.tsx:147-149 | With no matches the average is 0. Otherwise it is NaN exactly when a score is NaN, and a whole average r is the sum over the count rounded half up: (2r-1)·n <= 2·sum < (2r+1)·n. |
| FreelancerDashboard.SumScoresBetween | frontend/src/components/FreelancerDashboard.tsx:148 | With whole scores between lo and hi, the sum is between n·lo and n·hi. |
| FreelancerDashboard.AverageMatchBetween | frontend/src/components/FreelancerDashboard.tsx:147-149 | The rounded average of whole scores between lo and hi lies between lo and hi, so between the minimum and maximum. |
| FreelancerDashboard.DashboardAverageRange | frontend/src/components/FreelancerDashboard.tsx:147-149 | For a freelancer's non-empty match list, the average is a whole percentage from 50 to 100. |
| FreelancerDashboard.SkillMarks | frontend/src/components/FreelancerDashboard.tsx:188-189 | A required technology is marked exactly when the profile lists it. |
| FreelancerDashboard.MarkedIsMatchCount | frontend/src/components/FreelancerDashboard.tsx:189 | The number of marked chips equals the overlap count the score is made from. |
| FreelancerDashboard.FirstDash | frontend/src/components/FreelancerDashboard.tsx:92 | The position of the first '-', or the length when there is none. |
| FreelancerDashboard.ReplaceFirstDash | frontend/src/components/FreelancerDashboard.tsx:92 | Only the first '-' becomes a space, and a string without '-' is unchanged. |
| FreelancerDashboard.ReplaceJoinedWords | frontend/src/components/FreelancerDashboard.tsx:92 | Two words joined by one '-' (as in 'full-time' and 'part-time') are shown joined by a space. |
| FreelancerDashboard.AvailabilityLabel | frontend/src/components/FreelancerDashboard.tsx:92 | The availability reads "full time", "part time" or "contract". |
| FreelancerDashboard.DashboardStats | frontend/src/components/FreelancerDashboard.tsx:122-149 | The counters are the number of matches and of profile technologies, followed by the average. |
| ClientDashboard.FoldMatches | Downloads/freelancefrontend/src/components/ClientDashboard.tsx:48 | The left fold from acc equals acc plus the reference sum of match counts. |
| ClientDashboard.TotalMatches | Downloads/freelancefrontend/src/components/ClientDashboard.tsx:48 | The total is the sum of match counts, with absent matches counting 0. It is 0 for no projects. |
| ClientDashboard.SumMatchesConcat | Downloads/freelancefrontend/src/components/ClientDashboard.tsx:48 | The sum over two lists joined is the sum of their sums. |
| ClientDashboard.PrependAddsMatches | Downloads/freelancefrontend/src/components/ClientDashboard.tsx:48 | Adding a project in front raises the total by exactly its match count. |
| ClientDashboard.TotalMatchesOrderFree | Downloads/freelancefrontend/src/components/ClientDashboard.tsx:48 | The total does not depend on the order of the projects: two lists holding the same projects (equal multisets) have the same total. |
| ClientDashboard.TotalMatchesZero | Downloads/freelancefrontend/src/components/ClientDashboard.tsx:48 | The total is 0 exactly when no project has a match. |
| ClientDashboard.DashboardStats | Downloads/freelancefrontend/src/components/ClientDashboard.tsx:36-68 | "Active Projects" and "This Month" are the number of projects. The empty-state prompt shows exactly when there are none. |
| Auth.ResponseOf | Downloads/Freelancer/backend/src/main/java/com/example/freelancer/service/AuthService.java:36-41 | The answer carries the stored id, name, email and account kind, and no password. |
| Auth.RegisterIn | Downloads/Freelancer/backend/src/main/java/com/example/freelancer/service/AuthService.java:20-42 | A stored email is refused with "Email already exists" and the repository is unchanged. Otherwise exactly the new user is stored under its email, with the fresh id and the request's values. Earlier entries are kept, and every user stays under its own email. |
| Auth.LoginIn | Downloads/Freelancer/backend/src/main/java/com/example/freelancer/service/AuthService.java:45-54 | An unknown email gives "User not found". A different password gives "Invalid password". Otherwise the answer is the stored identity. |
| Auth.RegisterThenLogin | Downloads/Freelancer/backend/src/main/java/com/example/freelancer/service/AuthService.java:20-54 | After registering, logging in with that email and password gives the registration's answer. Any other password is refused. |
| Auth.RegisterKeepsLogins | Downloads/Freelancer/backend/src/main/java/com/example/freelancer/service/AuthService.java:20-54 | A registration never changes the login of an existing account. |
| Auth.AuthService.constructor | Downloads/Freelancer/backend/src/main/java/com/example/freelancer/service/AuthService.java:15-17 | The service works over the injected repository as it is, with whatever accounts it already holds, each under its own email. |
| Auth.AuthService.Register | Downloads/Freelancer/backend/src/main/java/com/example/freelancer/service/AuthService.java:20-42 | The answer and the new repository are those of `RegisterIn`. After success, that login succeeds with that answer. |
| Auth.AuthService.Login | Downloads/Freelancer/backend/src/main/java/com/example/freelancer/service/AuthService.java:45-54 | Login reads the repository and does not change it. |
| FileUpload.LastIndexOf | Downloads/Freelancer/backend/src/main/java/com/example/freelancer/controller/FileUploadController.java:41 | -1 exactly when the character is absent. Otherwise it is the position of its last occurrence. |
| FileUpload.Extension | Downloads/Freelancer/backend/src/main/java/com/example/freelancer/controller/FileUploadController.java:38-42 | Empty exactly when there is no name or no '.' in it. Otherwise it is the name's suffix from its last '.'. |
| FileUpload.IsImage | Downloads/Freelancer/backend/src/main/java/com/example/freelancer/controller/FileUploadController.java:29 | A missing content type is not an image. A present one is an image exactly when it begins with "image/". |
| FileUpload.UploadAvatar | Downloads/Freelancer/backend/src/main/java/com/example/freelancer/controller/FileUploadController.java:22-52 | An empty file is refused first, then a missing or non-image content type. Otherwise the URL is "/uploads/", the UUID and the extension. |
| Decimal.Show | Downloads/freelancefrontend/src/App.tsx:306 | `toString` of a whole number: at least one digit, only digits, no leading zero. |
| Decimal.ValueOfShow | Downloads/freelancefrontend/src/App.tsx:306 | The decimal text reads back as the number. |
| Decimal.ShowInjective | Downloads/freelancefrontend/src/App.tsx:306 | Different clock readings give different project ids. |
| Rounding.RoundDiv | Downloads/freelancefrontend/src/App.tsx:348 | `Math.round(a / b)` for a non-negative ratio is the integer r with (2r-1)b <= 2a < (2r+1)b. |
| Rounding.RoundDivAtLeast | Downloads/freelancefrontend/src/App.tsx:348 | The rounded ratio is at least k exactly when 2a >= (2k-1)b. |
| Rounding.RoundDivBetween | frontend/src/components/FreelancerDashboard.tsx:148 | A ratio between lo and hi rounds to a value between lo and hi. |

## Left out

- Network calls (`fetch` to the login, registration and upload endpoints) are not modelled. Their answers are parameters (`Session.AppSession.ApplyAuthResponse`, `ProfileFormModel.ProfileForm.FinishUpload`), and an unreachable server is an error answer.
- Browser storage and JSON are not modelled. The store's entries are fields of the session (`storedUser`, `storedProjects`, `profiles`, `profileOrder`, `users`), and dates are millisecond numbers, so ISO-string round trips are not modelled.
- React re-rendering is not modelled. The freelancer pool is recomputed from the store whenever it is read. In the source it is refreshed only when the profile changes, so a pool that is out of date in between is not modelled.
- `Object.entries` puts keys that look like array indices first, in numeric order. The model keeps every key in insertion order.
- Floating point is not modelled. Budgets, rates, experience and scores are whole numbers, and `Math.round` is exact half-up rounding. `parseFloat` of the budget and `parseInt` of experience and rate are done by the caller. An empty number input is `None`, and a text that parses to NaN is not modelled.
- Decimal.Show: numbers of 1e21 and larger, which `toString` writes in exponent notation, are not modelled.
- Session.AppSession.CreateProject: one clock reading `now` gives both the id and the posting date, and one reading `notifiedAt` stamps every notification. The source reads the clock separately for the id (App.tsx:306), for the posting date (App.tsx:307) and for each notification (App.tsx:322), so readings that differ by a millisecond are not modelled.
- Session.AppSession.CreateProject: the project id is the decimal clock reading. Two projects posted in the same millisecond, which would share an id, are not excluded.
- Auth.AuthService.Register: the random UUID is a parameter and is not shown to be fresh. The repository is keyed by email, which is the unique column the lookups use, so a save that replaces a row with a colliding id is not modelled.
- Spring wiring, exception-to-HTTP mapping and JPA repositories are not modelled. Creating the upload directory and copying the file bytes are not modelled either.
- The registration form's 'client'/'freelancer' choice is turned into 'CLIENT'/'FREELANCER' by `toUpperCase` before sending. This is not modelled; the backend side uses `Entities.UserType`.
- The technology catalogue, the login form, mail links, date formatting for display and all rendering are not modelled.
