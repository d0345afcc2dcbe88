# Skill tracker: client data layer and decision functions, in Dafny

This project models the client side of a goal and skill tracking web
application. The application is written in Next.js and talks to a Supabase
backend. Five parts are modelled:

- **Session gate.** The auth provider derives `isConfigured` (a backend
  client exists) and `isAuthenticated` (a user is present). The Goal store
  and the three strict stores read these flags. The Skill store reads only
  whether the module's shared client exists.
- **Five entity stores.** The stores hold goals, skills, topics, skill
  content and notes. There are two families:
  - *Permissive* stores (Goals, Skills) fall back to seed data. They apply
    every change locally even when the remote call fails, and they never
    rethrow.
  - *Strict* stores (Topics, Content, Notes) are gated on the session. They
    record and rethrow every error, leave an empty list after a failed fetch,
    and append new rows. Topics and Content also keep an `order_index`: a new
    row gets the greatest index plus one, and a reorder re-indexes the rows
    from 0.
- **Roadmap templates.** A first-match keyword classifier picks a roadmap
  from the lower-cased goal title. A generator stamps the goal, the user and
  a status onto each roadmap entry.
- **Status and progress.** This covers:
  - the skill status maps (progress, badge colour, label);
  - a goal's progress percentage and the goals page's filter and stats;
  - the dashboard's partition and truncation;
  - the topic status cycle and badge;
  - the progress bar's clamp and colour bands.
- **Routing and mode.** This covers:
  - the request middleware's redirect decision;
  - the breadcrumbs;
  - the sidebar's active-item rule;
  - the header's session badge;
  - the theme provider's validation, toggle and hook.

Every remote call is a value parameter. A store operation takes the reply it
would have received (`Result<...>`) and returns the new store state together
with what the call returned. The request a store sends is a separate
function, which returns `None` when the gate keeps the request from being
sent. Each module follows one source file. The shared helpers are:

- `Wrappers`: `Option` and `Result`;
- `Seqs`: filter, replace and prefix;
- `Text`: JavaScript's `startsWith`, `includes`, `toLowerCase`, `split('/')`
  and number-to-string;
- `Schema`: the table rows;
- `Store`: the state and step of a store, and the update filters;
- `StrictStore`: the shape shared by the three strict stores;
- `Ordering`: the `order_index` bookkeeping;
- `Rounding`: `Math.round`.

The model follows the code as written, including:

- An unknown skill status has progress 0; it is not an error.
- The Goal and Skill stores swallow remote errors and show seed data instead.
- A configured but signed-out session still sees the seed goals.
- The Skill store reads no session at all and sends no owner filter.
- An empty skill or topic id counts as missing, because the code tests the
  id for truthiness.
- `createGoal` never calls the template generator, so the generator is
  modelled on its own.
- `useAuth` cannot throw. Its context default is `{}`, not `undefined`.
  Outside a provider it gives a view that is neither configured nor
  authenticated.

## Model

| member | source | states |
|---|---|---|
| Session.ClientFor | src/lib/supabase.js:19-24 | a backend client exists exactly when the project URL and the anonymous key are both set and non-empty; a missing one selects demo mode instead of failing |
| Session.EnvironmentDecidesMode | src/lib/supabase.js:19-24 | after any sequence of auth events the provider is configured exactly when both environment values are present, and with either missing the stores' gate never opens |
| Session.Mount | src/hooks/useAuth.js:8-36 | the provider starts with no user; without a client loading ends at once, with one it lasts until the first session answer |
| Session.Handle | src/hooks/useAuth.js:26-28 | an auth event sets the user to the session's user (none when signed out) and ends loading; without a client no event is ever delivered |
| Session.DemoNeverAuthenticated | src/hooks/useAuth.js:32-35 | in demo mode, whatever events arrive, there is never a user and never a pending load |
| Session.LatestEventWins | src/hooks/useAuth.js:15-29 | with a client, after any sequence of events loading is over and the user is the one the latest event reported |
| Session.SignOut | src/hooks/useAuth.js:38-42 | signing out clears the user when a client exists and does nothing in demo mode |
| Session.ValueOf | src/hooks/useAuth.js:44-50 | `isAuthenticated` holds exactly when a user is present and `isConfigured` exactly when a client exists |
| Session.UseAuth | src/hooks/useAuth.js:55-60 | outside a provider the hook yields a view that is neither configured nor authenticated and has no user (it never throws); inside one, the provider's flags and its user unchanged |
| Session.GateNeedsAllThree | src/hooks/useTopics.js:75-77 | a missing client, sign-in or user each refuses a persisted operation, and the three together allow it |
| Session.GateOfRun | src/hooks/useAuth.js:44-50 | for a provider's own value the stores' gate is open exactly when a client exists and a user is signed in, and never in demo mode |
| Store.OwnedScope | src/hooks/useTopics.js:153-157 | a gated mutation is filtered by the id and the signed-in user, so it can touch only that user's rows; nothing is sent with the gate closed |
| Store.UpdateRequest | src/hooks/useTopics.js:122-132 | the update sent carries the caller's fields stamped with the current time, scoped to the id and the signed-in user; none with the gate closed |
| GoalStore.WithStats | src/hooks/useGoals.js:78-82 | a fetched goal counts all its joined skills and those whose status is 'done', so its completed count never exceeds its skill count |
| GoalStore.Fetch | src/hooks/useGoals.js:48-100 | seed goals unless configured and authenticated with a user, seed goals again on a remote error, an empty list for null data, otherwise each fetched goal with its counts; `error` is never set |
| GoalStore.FetchIsolated | src/hooks/useGoals.js:63-73 | when the server answers the owner-filtered query, every listed goal belongs to the signed-in user |
| GoalStore.InsertRequest | src/hooks/useGoals.js:119-131 | an insert is sent only with the gate open, for the signed-in user, titled 'New Goal' when no title is given, with empty dates and durations sent as null |
| GoalStore.LocalGoal | src/hooks/useGoals.js:104-117 | the local goal is not achieved, has zero counts, a 'New Goal' title when none is given, the given stamps, and belongs to 'demo-user' when there is no user |
| GoalStore.Create | src/hooks/useGoals.js:102-151 | on every path exactly one goal is put at the front and returned, the inserted row only when the gate is open and the insert succeeds; nothing is rethrown |
| GoalStore.DeleteUndoesCreate | src/hooks/useGoals.js:195-212 | deleting the id of the goal just created gives back the starting list, whatever the session and the remote outcomes |
| GoalStore.Merge | src/hooks/useGoals.js:155-158 | a local update keeps the id, owner and creation stamp, takes every field the patch carries, and stamps `updated_at` |
| GoalStore.Update | src/hooks/useGoals.js:153-193 | only goals with the id change, length and counts are kept; a confirmed update takes the server row, otherwise the patch is merged locally with the stamp |
| GoalStore.MutationScope | src/hooks/useGoals.js:163-167 | an update or delete is sent only with the gate open, filtered by the id and the signed-in user, so only that user's row with that id can match |
| GoalStore.LocalUpdateIdempotent | src/hooks/useGoals.js:176-187 | repeating the same local update changes nothing further |
| GoalStore.Delete | src/hooks/useGoals.js:195-217 | the goal is removed whatever the remote outcome; every other goal stays, and a missing id leaves the list as it was |
| GoalStore.DeleteIgnoresRemote | src/hooks/useGoals.js:197-212 | the local deletion depends neither on the session nor on the remote reply |
| GoalStore.DeleteKeepsOrder | src/hooks/useGoals.js:212 | deletion distributes over concatenation and drops one goal exactly when it has the id, so the remaining goals keep their relative order |
| SkillStore.Fetch | src/hooks/useSkills.js:51-80 | seed skills without a client or on a remote error, an empty list for null data, otherwise the returned rows exactly |
| SkillStore.FetchHasNoOwnerFilter | src/hooks/useSkills.js:56-61 | the fetch keeps another user's skill that the server returns: no owner filter is applied |
| SkillStore.NewSkill | src/hooks/useSkills.js:84-94 | the built skill is 'not_started' with empty notes, titled 'New Skill' when none is given, and all three stamps set to now |
| SkillStore.Create | src/hooks/useSkills.js:82-120 | on every path exactly one skill goes to the front and is returned, the server's row only when a client exists and the insert succeeds |
| SkillStore.Merge | src/hooks/useSkills.js:124-128 | a local update takes the patch's fields and stamps both `updated_at` and `last_reviewed_at` |
| SkillStore.MutationScope | src/hooks/useSkills.js:130-136 | the update and delete filters name the id only, so they match that id's row whoever owns it |
| SkillStore.Update | src/hooks/useSkills.js:122-161 | only skills with the id change and the length is kept; a confirmed update replaces the skill wholesale, otherwise the patch is merged with both stamps |
| SkillStore.LocalUpdateIdempotent | src/hooks/useSkills.js:143-155 | repeating the same local update changes nothing further |
| SkillStore.Delete | src/hooks/useSkills.js:163-183 | the skill is removed whatever the remote outcome and every other skill stays, in its order (fixed by SkillStore.DeleteKeepsOrder) |
| SkillStore.DeleteKeepsOrder | src/hooks/useSkills.js:178 | deleting from a list in two parts keeps the survivors of the first part before those of the second, and one skill is dropped exactly when it has the id, so the survivors keep their order |
| SkillStore.DeleteUndoesCreate | src/hooks/useSkills.js:163-178 | deleting the id of the skill just created gives back the starting list, whatever the remote outcomes |
| Ordering.NextIndex | src/hooks/useTopics.js:88-90 | the next index is 0 when the lookup found no row, and otherwise one above the top row's index, a missing index counting as 0 |
| Ordering.NextIndexFresh | src/hooks/useTopics.js:79-90 | the next `order_index` is 0 in an empty scope and otherwise the greatest existing index plus one, so it exceeds every index in the scope |
| Ordering.CreateKeepsContiguous | src/hooks/useTopics.js:79-100 | creating in a scope indexed 0..n-1 uses index n, so the scope stays indexed 0..n |
| Ordering.Writes | src/hooks/useTopics.js:176-179 | the i-th write of a reorder names the i-th item and index i |
| Ordering.WritesAreContiguous | src/hooks/useTopics.js:176-187 | the indices a reorder writes are exactly 0..n-1 |
| TopicStore.WithNotesCount | src/hooks/useTopics.js:57-60 | a fetched topic keeps its row and counts its joined notes, 0 when there are none |
| TopicStore.Fetch | src/hooks/useTopics.js:21-71 | an empty list with the gate closed; no change without a skill id; an empty list and the recorded message on an error; otherwise the returned topics with their notes counted |
| TopicStore.Load | src/hooks/useTopics.js:12-19 | without a skill id or with the gate closed the list is empty; otherwise the fetch decides |
| StrictStore.EmptyParentIsAbsent | src/hooks/useTopics.js:12-19 | an empty parent id is treated like a missing one: the list is emptied and nothing is fetched |
| TopicStore.FetchIsolated | src/hooks/useTopics.js:33-47 | when the server answers the filtered query, every listed topic belongs to the signed-in user and the requested skill |
| TopicStore.InsertRequest | src/hooks/useTopics.js:75-102 | an insert is sent only with the gate open and a skill id set: a 'not_started' topic of that user and skill, titled 'New Topic' when none is given, at the next index |
| TopicStore.Create | src/hooks/useTopics.js:73-114 | refused (and recorded) unless gated with a skill id; a failed insert is rethrown with the list kept; otherwise the row is appended with no notes |
| TopicStore.CreateAppendsRequested | src/hooks/useTopics.js:80-107 | when the server stores what was sent, the appended topic is 'not_started', has the requested title and no notes, and an index above every existing one |
| TopicStore.Update | src/hooks/useTopics.js:116-145 | refused with the gate closed; an error is rethrown with the list kept; otherwise the server row is merged into the topics with the id, their notes counts kept, and nothing else changes |
| TopicStore.UpdateIdempotent | src/hooks/useTopics.js:133-138 | with the gate open, receiving the same confirmed row for a topic twice leaves the topics exactly as after the first time |
| TopicStore.Delete | src/hooks/useTopics.js:147-167 | refused with the gate closed; an error is rethrown with the list kept; otherwise the topics with the id go and all others stay, in their order (fixed by TopicStore.DeleteKeepsOrder) |
| TopicStore.DeleteKeepsOrder | src/hooks/useTopics.js:161 | deleting from a list in two parts keeps the survivors of the first part before those of the second, and a confirmed delete drops one topic exactly when it has the id, so the survivors keep their order |
| TopicStore.DeleteUndoesCreate | src/hooks/useTopics.js:104-161 | deleting the id of the topic just created gives back the starting list |
| TopicStore.ReorderWrites | src/hooks/useTopics.js:176-187 | with the gate open the i-th write gives the i-th topic index i; nothing is written with it closed |
| TopicStore.Reorder | src/hooks/useTopics.js:169-195 | refused with the gate closed; otherwise the list becomes the given sequence as passed, whatever the writes returned |
| ContentStore.Fetch | src/hooks/useSkillContent.js:21-55 | an empty list with the gate closed; no change without a skill id; an empty list and the recorded message on an error; otherwise the returned blocks in order |
| ContentStore.Load | src/hooks/useSkillContent.js:12-19 | without a skill id or with the gate closed the list is empty; otherwise the fetch decides |
| ContentStore.FetchIsolated | src/hooks/useSkillContent.js:31-37 | when the server answers the filtered query, every listed block belongs to the signed-in user and the requested skill |
| ContentStore.InsertRequest | src/hooks/useSkillContent.js:59-86 | an insert is sent only with the gate open and a skill id set, with type 'text' and title 'New Content' when not given, at the next index |
| ContentStore.Create | src/hooks/useSkillContent.js:57-98 | refused unless gated with a skill id; a failed insert is rethrown with the list kept; otherwise the row is appended |
| ContentStore.Update | src/hooks/useSkillContent.js:100-129 | refused with the gate closed; an error is rethrown with the list kept; otherwise the server row replaces the blocks with the id and nothing else changes |
| ContentStore.UpdateIdempotent | src/hooks/useSkillContent.js:117-122 | with the gate open, receiving the same confirmed row for a block twice leaves the blocks exactly as after the first time |
| ContentStore.Delete | src/hooks/useSkillContent.js:131-151 | refused with the gate closed; an error is rethrown with the list kept; otherwise the blocks with the id go and all others stay, in their order (fixed by ContentStore.DeleteKeepsOrder) |
| ContentStore.DeleteKeepsOrder | src/hooks/useSkillContent.js:145 | deleting from a list in two parts keeps the survivors of the first part before those of the second, and a confirmed delete drops one block exactly when it has the id, so the survivors keep their order |
| ContentStore.DeleteUndoesCreate | src/hooks/useSkillContent.js:88-145 | deleting the id of the block just created gives back the starting list |
| ContentStore.ReorderWrites | src/hooks/useSkillContent.js:159-170 | with the gate open the i-th write gives the i-th block index i; nothing is written with it closed |
| ContentStore.Reorder | src/hooks/useSkillContent.js:153-178 | refused with the gate closed; otherwise the list becomes the given sequence as passed |
| NoteStore.Fetch | src/hooks/useNotes.js:21-57 | an empty list with the gate closed; no change without a topic id; an empty list and the recorded message on an error; otherwise the returned notes |
| NoteStore.Load | src/hooks/useNotes.js:12-19 | without a topic id or with the gate closed the list is empty; otherwise the fetch decides |
| NoteStore.FetchIsolated | src/hooks/useNotes.js:33-39 | when the server answers the filtered query, every listed note belongs to the signed-in user and the requested topic |
| NoteStore.InsertRequest | src/hooks/useNotes.js:61-72 | an insert is sent only with the gate open and a topic id set, with content 'New note' when none is given |
| NoteStore.Create | src/hooks/useNotes.js:59-83 | refused unless gated with a topic id; a failed insert is rethrown with the list kept; otherwise exactly one note is appended |
| NoteStore.Update | src/hooks/useNotes.js:85-114 | refused with the gate closed; an error is rethrown with the list kept; otherwise the server row replaces the notes with the id wholesale |
| NoteStore.UpdateIdempotent | src/hooks/useNotes.js:102-107 | with the gate open, receiving the same confirmed row for a note twice leaves the notes exactly as after the first time |
| NoteStore.Delete | src/hooks/useNotes.js:116-136 | refused with the gate closed; an error is rethrown with the list kept; otherwise the notes with the id go and all others stay, in their order (fixed by NoteStore.DeleteKeepsOrder) |
| NoteStore.DeleteKeepsOrder | src/hooks/useNotes.js:130 | deleting from a list in two parts keeps the survivors of the first part before those of the second, and a confirmed delete drops one note exactly when it has the id, so the survivors keep their order |
| NoteStore.DeleteUndoesCreate | src/hooks/useNotes.js:74-130 | deleting the id of the note just created gives back the starting list |
| Text.StartsWithChars | middleware.js:9-10 | `startsWith` holds exactly when the string is at least as long as the prefix and agrees with it at every position of the prefix |
| Text.ContainsAt | middleware.js:11 | `includes` holds exactly when the searched string occurs at some position |
| Text.ToLower | src/lib/skillTemplates.js:115 | lower-casing keeps the length and maps each character on its own, so it is idempotent |
| Text.Segments | src/components/layout/TopNavbar.js:20 | the segments of a path are non-empty and contain no '/' (which segments they are is fixed by Text.SplitFromSlash, Text.SplitFromPiece and Text.SegmentsOfJoin) |
| Text.SplitFromPiece | src/components/layout/TopNavbar.js:20 | text without '/' read after a partial segment ends as one segment, the two joined, or none when both are empty |
| Text.SplitFromSlash | src/components/layout/TopNavbar.js:20 | a '/' closes the segment being read, and the text after it is split on its own |
| Text.SegmentsOfJoin | src/components/layout/TopNavbar.js:20 | splitting the path '/s0/s1/…' built from non-empty, slash-free segments gives back exactly those segments in order |
| Text.GoalsNewSegments | src/components/layout/TopNavbar.js:20 | '/goals/new' has the segments 'goals' and 'new' |
| Text.SegmentsTrailingSlash | src/components/layout/TopNavbar.js:20 | a trailing '/' adds no segment |
| Templates.RoadmapsWellFormed | src/lib/skillTemplates.js:4-111 | every roadmap has four entries, each with a non-empty title, a positive duration and its own position as `order_in_roadmap` |
| Templates.Classify | src/lib/skillTemplates.js:114-133 | the first keyword test that holds on the lower-cased title decides, in the order senior, full stack, frontend, and a title passing none gets the default |
| Templates.TemplatesFor | src/lib/skillTemplates.js:114-133 | the chosen roadmap always has four entries at positions 0..3 |
| Templates.ClassifyIgnoresCase | src/lib/skillTemplates.js:115 | titles that lower-case alike get the same roadmap |
| Templates.SeniorTitleExample | src/lib/skillTemplates.js:118-120 | 'Senior Software Engineer Role' gets the senior roadmap |
| Templates.SeniorBeatsFrontend | src/lib/skillTemplates.js:118-128 | 'Senior React Engineer' gets the senior roadmap although it names React |
| Templates.HyphenatedFullStackIsDefault | src/lib/skillTemplates.js:122-132 | the hyphenated 'full-stack' matches no keyword and gets the default roadmap |
| Templates.Generate | src/lib/skillTemplates.js:135-147 | one 'not_started' record per roadmap entry, in order, each carrying the goal, the user, the temporary id of its index and the clock readings taken for that record alone |
| Templates.TempId | src/lib/skillTemplates.js:143 | a temporary id starts with 'temp-' and ends with '-' and the decimal index |
| Templates.TempIdInjective | src/lib/skillTemplates.js:143 | two temporary ids are equal only for equal indices, even when their clock readings differ |
| Templates.GeneratedIdsDistinct | src/lib/skillTemplates.js:143 | the ids generated in one call are pairwise distinct, even when the clock moves on between records |
| Status.ProgressValue | src/lib/utils.js:16-27 | progress is 100 exactly for 'done', 50 exactly for 'in_progress', and 0 for every other status, unknown ones included |
| Status.StatusColor | src/lib/utils.js:29-40 | green exactly for 'done', yellow exactly for 'in_progress', gray otherwise |
| Status.StatusLabel | src/lib/utils.js:42-53 | the label is 'Not Started' exactly for 'not_started', 'In Progress' exactly for 'in_progress' and 'Completed' exactly for 'done'; every other status gets 'Unknown' |
| Status.LabelsDistinct | src/lib/utils.js:42-49 | distinct known statuses get distinct labels, none of them 'Unknown' |
| Status.ProgressMatchesColor | src/lib/utils.js:16-40 | for every status, progress 0, 50 and 100 correspond exactly to gray, yellow and green |
| TopicsList.NextStatus | src/components/TopicsList.js:122-127 | the button moves not_started to in_progress to completed, and any other status to not_started |
| TopicsList.CycleHasPeriodThree | src/components/TopicsList.js:122-127 | three presses return every cycle status to itself, one press always moves it, and an unknown status enters at not_started |
| TopicsList.EditStart | src/components/TopicsList.js:21-27 | editing a topic marks it as edited and seeds the form with its title and description, '' when it has none |
| TopicsList.EditCancel | src/components/TopicsList.js:38-41 | cancelling leaves edit mode with an empty form |
| TopicsList.CancelUndoesStart | src/components/TopicsList.js:21-41 | starting and then cancelling an edit returns the editor to its initial state |
| TopicsList.Ordinals | src/components/TopicsList.js:106 | the topic at position i is shown as i + 1 |
| TopicsList.OrdinalsDistinct | src/components/TopicsList.js:106 | the shown ordinals run 1..n without repeats |
| TopicsList.NotesShown | src/components/TopicsList.js:165 | the shown notes count is the topic's count, 0 when absent |
| TopicsList.IconColor | src/components/TopicsList.js:132-138 | the status icon is green exactly for 'completed', yellow exactly for 'in_progress' and gray for every other status |
| TopicsList.BadgeAsWritten | src/components/TopicsList.js:141-143 | the topic badge uses the skill status colour and label |
| TopicsList.CompletedTopicBadgedUnknown | src/components/TopicsList.js:122-143 | a topic the cycle moved to 'completed' is badged gray 'Unknown' while its icon is green |
| TopicsList.TopicBadge | src/components/TopicsList.js:141-143 | the corrected badge shows 'completed' as green 'Completed' and every other status as the skill maps do |
| TopicsList.TopicBadgeCoversCycle | src/components/TopicsList.js:122-143 | with the corrected badge every cycle status gets a known label, distinct statuses get distinct labels, and the badge colour agrees with the icon |
| Rounding.Round | src/components/ui/ProgressBar.js:40 | `Math.round(x)` is the integer k with k - 0.5 <= x < k + 0.5 |
| GoalsPage.FilteredGoals | src/app/goals/page.js:21-26 | 'active' keeps exactly the unachieved goals, 'completed' exactly the achieved ones, and every other filter keeps the list as it is |
| GoalsPage.FilteredGoalsKeepsOrder | src/app/goals/page.js:21-26 | filtering a list in two parts keeps the first part's survivors before the second's, and a single goal is kept exactly when it passes the test, so the filtered goals keep their store order |
| GoalsPage.ActiveCompletedPartition | src/app/goals/page.js:23-24 | the active and completed views together hold every goal exactly once |
| GoalsPage.ProgressPercentage | src/app/goals/page.js:32-35 | 0 for a goal without skills, otherwise the whole number nearest to the completed share in percent |
| GoalsPage.PercentageBounds | src/app/goals/page.js:34 | with no more completed skills than skills the percentage lies in 0..100, is 100 when all are completed and 0 when none is |
| GoalsPage.QuickStats | src/app/goals/page.js:207-230 | the stats appear exactly when there are goals; the completed count is the number of achieved goals and the in-progress count the number of the others, so they add up to the total |
| Dashboard.Arrange | src/app/page.js:35-224 | the empty state shows exactly when no goal is active; the shown active goals are the first min(3, n) active ones and the shown achieved goals the first min(2, m) achieved ones, in order; 'View All Goals' shows exactly when more than three goals are active |
| Dashboard.SectionsPartition | src/app/page.js:35-36 | active and achieved goals partition the list, and each section shows only goals of its kind |
| Dashboard.EmptyStateIgnoresAchieved | src/app/page.js:100-150 | adding achieved goals changes neither the empty state nor the active goals shown |
| ProgressBar.Clamp | src/components/ui/ProgressBar.js:12 | the clamped value lies in 0..100, equals the value inside that range and the nearest end outside it |
| ProgressBar.ClampIdempotent | src/components/ui/ProgressBar.js:12 | clamping twice is clamping once |
| ProgressBar.BandOf | src/components/ui/ProgressBar.js:14-19 | the four bands (exactly 0, below 50, below 100, exactly 100) are disjoint and cover every clamped value |
| ProgressBar.FillColor | src/components/ui/ProgressBar.js:14-19 | only the empty band's colour depends on the theme; the others are amber, blue and emerald |
| ProgressBar.Draw | src/components/ui/ProgressBar.js:33-40 | width and shown percentage both come from the clamped value; the percentage is a whole number in 0..100 within one half of the width |
| ProgressBar.OutOfRangeDrawsLikeEnds | src/components/ui/ProgressBar.js:12-40 | a value below 0 draws like 0 and one above 100 like 100 |
| Middleware.Decide | middleware.js:4-41 | skipped paths and failed lookups pass through; a protected path without a session redirects to '/auth' with `redirectTo`; '/auth' with a session redirects home; everything else gets the session response |
| Middleware.OpenPagesNeverRedirected | middleware.js:20-35 | '/' and every '/goals' path are never redirected, with or without a session |
| Middleware.RawPrefixProtects | middleware.js:20-21 | the prefix test is raw: '/skillsx' is protected like '/skills/1' |
| Middleware.DottedPathsPass | middleware.js:8-14 | a path containing a dot passes through, even under '/skills' without a session |
| Breadcrumbs.Crumbs | src/components/layout/TopNavbar.js:19-53 | '/' gives one current Dashboard crumb; any other path starts with a non-current Dashboard crumb; there are one to three crumbs and only the final one can be current |
| Breadcrumbs.SectionRules | src/components/layout/TopNavbar.js:28-50 | the section crumb reads 'Goals', 'Skills' or 'Topics' after its first segment and is current exactly when it is the only segment; a second segment adds the detail crumb ('New Goal' for 'new' under goals, otherwise the section's details crumb) |
| Breadcrumbs.UnknownSectionOnlyDashboard | src/components/layout/TopNavbar.js:26-52 | a path whose first segment names no section gives only the Dashboard crumb, not current |
| Breadcrumbs.TrailingSlashIgnored | src/components/layout/TopNavbar.js:20 | a trailing '/' does not change the crumbs |
| Breadcrumbs.GoalsNewCrumbs | src/components/layout/TopNavbar.js:26-35 | '/goals/new' shows Dashboard, Goals (not current) and a current 'New Goal' crumb |
| Breadcrumbs.GoalDetailCrumbs | src/components/layout/TopNavbar.js:26-32 | '/goals/7' shows Dashboard, Goals (not current) and a current 'Goal Details' crumb |
| Breadcrumbs.SettingsCrumbs | src/components/layout/TopNavbar.js:26-52 | '/settings' names no section and shows only the Dashboard crumb, not current |
| Sidebar.ActiveRules | src/components/layout/Sidebar.js:82-83 | Dashboard is active only on '/', Goals and Skills on every path with their href as a raw prefix |
| Sidebar.AtMostOneActive | src/components/layout/Sidebar.js:16-83 | on every path at most one navigation item is active |
| Sidebar.AvatarInitial | src/components/layout/Sidebar.js:120 | one character: the email's first, upper-cased, or 'U' without an email |
| Sidebar.ToggleCollapsed | src/components/layout/Sidebar.js:151 | the collapse button always flips the state |
| Sidebar.ToggleTwiceRestores | src/components/layout/Sidebar.js:151 | two presses restore the sidebar |
| AuthStatus.BadgeFor | src/components/AuthStatus.js:8-31 | 'Demo Mode' exactly when unconfigured, 'Authenticated' exactly when configured and signed in, 'Not signed in' otherwise: one badge per state |
| AuthStatus.Caption | src/components/AuthStatus.js:12-29 | each badge shows its own text |
| AuthStatus.CaptionsDistinct | src/components/AuthStatus.js:12-29 | different badges show different texts |
| AuthStatus.BadgeOfRun | src/components/AuthStatus.js:5-31 | demo mode always shows 'Demo Mode', and 'Authenticated' shows exactly when the stores' gate is open |
| Theme.Adopt | src/hooks/useTheme.js:14-22 | a saved 'light' or 'dark' is adopted; anything else, or nothing, gives light and resets the stored value |
| Theme.Toggle | src/hooks/useTheme.js:40-42 | toggling always changes the theme |
| Theme.ToggleTwice | src/hooks/useTheme.js:40-42 | toggling twice restores the theme |
| Theme.Offered | src/hooks/useTheme.js:44-64 | there is no value before mount; after it, exactly one of `isDark` and `isLight` holds, matching the theme |
| Theme.RootClasses | src/hooks/useTheme.js:28-34 | after applying, the root holds the current theme's class, not the other one, and keeps every unrelated class |
| Theme.ApplyOverrides | src/hooks/useTheme.js:31-34 | applying a theme and then the other leaves the classes as if only the second had been applied |
| Theme.UseTheme | src/hooks/useTheme.js:67-73 | the hook fails with its message when no provider value exists and returns the value otherwise |
| Theme.BeforeMountThrows | src/hooks/useTheme.js:51-73 | under a provider that has not mounted the hook fails; after mount it succeeds |

## Left out

- Supabase I/O is left out: network calls, the query builder and server-side
  semantics. Each call's reply is an input to the operation. Server-side
  owner and scope filtering appears only in the `FetchIsolated` lemmas, where
  the server's answer is modelled as a filter over a table.
- The order in which rows come back (`order('order_index')`,
  `order('created_at')`) is server-side and not modelled. The fetched list is
  the reply in the order received.
- React runtime concerns are left out: effect triggers, asynchronous
  interleaving and unmount races. `Load` models only the choice the effect
  makes. The `loading` flag is modelled only in the auth provider.
- Timestamps (`new Date().toISOString()`) and `Date.now()` ids are opaque
  inputs. The template generator takes its own readings for every record,
  as the code reads the clock separately for each one.
- Values are exact numbers. `Math.round` is modelled on reals, so
  floating-point representation error is not modelled.
- `toLowerCase` and `toUpperCase` are modelled on ASCII letters only. Other
  characters are left as they are.
- A strict-store update whose reply has zero rows (`data[0]` undefined) is not
  modelled: the reply carries exactly one row.
- GoalStore.Update: a successful reply with zero rows is not modelled. This
  happens when the owner filter matches nothing, for instance when a seed
  goal is edited after a failed fetch. The code (useGoals.js:171-174) then
  leaves the goal unchanged and unstamped and returns `undefined`. The model
  takes the reply to carry exactly one row.
- SkillStore.Update: a successful reply with zero rows is not modelled. The
  code (useSkills.js:139-142) would put `undefined` in the list in place of
  the skill, and a list of rows cannot hold that value.
- GoalStore.Create, SkillStore.Create, TopicStore.Create, ContentStore.Create
  and NoteStore.Create: each reads `data[0]` from the insert's reply. An
  insert that succeeds always returns its row, so a zero-row reply is not
  modelled for them either.
- The module's shared client (supabase.js:8-16) and the auth provider's
  client (supabase.js:19-24) are taken to be the same client. Both exist
  exactly when both environment values are set. The model does not cover
  the shared client's construction failing, which the code catches and
  leaves `null` while the provider would still build its own.
- The Goal store's outer `catch` (useGoals.js:93-96), which sets `error`,
  cannot be reached once the remote call is an input. The model never sets
  `error` there.
- ContentStore.Update: the server reply is taken to be a full row. So
  `{ ...item, ...data[0] }` is modelled as replacing the item, and a partial
  reply is not modelled.
- The new topic's empty `notes: []` field is not modelled. Only its notes
  count of 0 is kept.
- `GoalStore.MutationScope` and the other request functions state what is
  sent. Whether the server honours those filters is not modelled.
- Writing the theme to storage and mutating the DOM are left out. The root's
  class list is a set and the stored value is an input.
- Form wiring, modals, styling, `cn`, date formatting and `isOverdue` are
  presentation or clock-dependent and are left out.
- The middleware's session lookup is an input (`createSupabaseMiddleware` is
  not part of this model). So is its `config.matcher`, which the framework
  applies before the middleware runs.

## Findings

| source | as written | input that shows it | evidently intended | confidence | as-written member | corrected member |
|---|---|---|---|---|---|---|
| src/components/TopicsList.js:141-143 | the topic badge uses the skill maps `getStatusColor`/`getStatusLabel`, which know 'done' but not the topic status 'completed' | a topic in 'in_progress' whose status button is pressed becomes 'completed' (lines 122-127) and is badged gray 'Unknown' while its icon (lines 132-138) is green | a completed topic badged green 'Completed', in agreement with its icon | not executed | TopicsList.CompletedTopicBadgedUnknown | TopicsList.TopicBadge |
