# Career Craftor Genesis — a Dafny model of its page logic

Career Craftor Genesis is a React front end for career planning. It runs on
static mock data. Its logic sits in small computations and state machines
inside the pages. This project models that logic and proves properties of it.

- **Skill Analyzer** (`SkillAnalyzer`, `skill_analyzer.dfy`). The weighted
  overall match of the user's skills against a career's required skills. The
  per-skill gap rows with a status of met, partial or missing. The comparator
  that sorts those rows, modelled exactly as written. The three status lists.
  The course recommendations for the three most urgent gaps. The band of text
  shown under the percentage.
- **Community** (`Community`, `community.dfy`). The question list with its
  case-insensitive search, any-tag filter, four sort keys and tag toggling. A
  `CommunityPage` class holds the page state.
- **Career Explorer** (`CareerExplorer`, `career_explorer.dfy`). Four
  conjunctive filters over the career catalogue. The de-duplicated industry and
  education selectors. The reset state. The truncation of skill badges to three
  plus "+N more".
- **Resume Builder** (`ResumeBuilder`, `resume_builder.dfy`). A `ResumeEditor`
  class holds the personal record, four entry lists and the current section. It
  provides add, update-by-id and remove-by-id on each list, and the six-step
  section machine.
- **Mock Interview** (`MockInterview`, `mock_interview.dfy`). An
  `InterviewSession` class holds the chosen company and role, the generated
  questions, the current index, the answers and the started/completed flags. The
  module also has the colour lookups and the completion percentage.
- **Authentication** (`AuthContext`, `auth_context.dfy`). An `AuthProvider`
  class holds the `{user, isAuthenticated, isLoading}` record. `login`,
  `loginWithPhone`, `register` and `logout` move it under fixed credential rules.
- **Registration** (`Register`, `register.dfy`). The password confirmation. The
  phone rule that reveals the code field. The arguments each form passes to
  `register`.

Shared modules:
- `Optional` has `Option`.
- `Seqs` has `filter`. It also has `sort` as one stable insertion sort with a
  JavaScript-style comparator, `indexOf`, and `Array.from(new Set(...))`.
- `Text` has ASCII lower-casing and `includes`.
- `Percent` has `Math.round(x / y * 100)` over integers.
- `UserTypes` has the shapes of `src/types/user.ts`.

Numbers are modelled as follows.
- Demand levels have one decimal. They are kept in integer tenths, so 4.8 is
  48 and the slider minimum 3.0 is 30.
- `Math.round(x / y * 100)` is `(200x + y) div 2y`. This is the exact rounding
  of the rational value, with halves rounded up as `Math.round` does.
- Resume entry ids are natural numbers. The source builds them with
  `(length + 1).toString()`, and `toString` is injective on natural numbers, so
  comparing the numbers is the same as comparing the strings.

Where the code and its intended behaviour part, the model follows the code.
- The comment at src/pages/SkillAnalyzer.tsx:257 says the rows are sorted by
  importance first (High, Medium, Low) and then by gap size. As written
  (259-262), it compares any Medium/Low pair as
  equal. That "equal" is not transitive (`SkillAnalyzer.CompareGapsNotTransitive`).
  So the order of the gap list depends on the sort algorithm. Only facts that
  hold for every reordering are proved about it.
- Phone registration passes the one-time code as the password
  (src/pages/Register.tsx:109-116). `register` never looks at the password
  (src/context/AuthContext.tsx:166-195). The code is checked nowhere else, so
  any non-empty code creates the account (`Register.PhoneRegistrationIgnoresOtp`).
  The form's `required` rule on the code field (src/pages/Register.tsx:257) is
  what rejects an empty one. Only phone login checks a code, against the mock
  value (src/context/AuthContext.tsx:130-131).
- `register` builds the new user field by field
  (src/context/AuthContext.tsx:171-182) and has no `profileImage` line. So the
  new user never has one, even when the data passed in does.
- The page offers the remove button only on a list of more than one entry
  (src/pages/ResumeBuilder.tsx:490, 600, 725 and 762). That guard would keep the
  lists non-empty, but the `length + 1` id scheme defeats it (see Findings).

## Model

| member | source | states |
|---|---|---|
| SkillAnalyzer.FindSkill | src/pages/SkillAnalyzer.tsx:227 | The user skill found for a required skill is the first one with exactly that name; None means no skill has that name |
| SkillAnalyzer.CalculateOverallMatch | src/pages/SkillAnalyzer.tsx:210-239 | The loop over the required skills (weights High 3, Medium 2, otherwise 1; credit min(user level, required level)) returns the rounded percentage of earned over total points; 0 when the career key is unknown or the total is 0 |
| SkillAnalyzer.EarnedForWithin | src/pages/SkillAnalyzer.tsx:224-233 | With non-negative levels one skill earns between 0 and its level times its weight |
| SkillAnalyzer.EarnedWithinTotal | src/pages/SkillAnalyzer.tsx:224-235 | With non-negative levels the earned points lie between 0 and the total points |
| SkillAnalyzer.OverallMatchInRange | src/pages/SkillAnalyzer.tsx:210-239 | With non-negative levels the overall match is in [0, 100] |
| SkillAnalyzer.QualifiedEarnsAll | src/pages/SkillAnalyzer.tsx:227-235 | If the first matching user skill of every requirement reaches its level, the earned points equal the total |
| SkillAnalyzer.FullyQualifiedMatchIs100 | src/pages/SkillAnalyzer.tsx:227-238 | Such a user matches the career at exactly 100% |
| SkillAnalyzer.FindSkillIgnoresLevels | src/pages/SkillAnalyzer.tsx:227 | Changing a skill's level does not change which skill the lookup by name finds |
| SkillAnalyzer.RaisedLevelEarnsNoLess | src/pages/SkillAnalyzer.tsx:232-233 | Raising one user skill's level never lowers the earned points |
| SkillAnalyzer.RaisingSkillNeverLowersMatch | src/pages/SkillAnalyzer.tsx:210-239 | Raising one user skill's level never lowers the overall match |
| SkillAnalyzer.MockUserSkillLookups | src/pages/SkillAnalyzer.tsx:191-199 | In the shipped user skills JavaScript, Python, SQL and Data Structures are found at positions 0, 1, 2 and 4 |
| SkillAnalyzer.MockUserSkillMisses | src/pages/SkillAnalyzer.tsx:191-199 | Algorithms, Git, REST APIs and Testing are not among the shipped user skills |
| SkillAnalyzer.SoftwareEngineerEntry | src/pages/SkillAnalyzer.tsx:31-32 | The catalogue key `software-engineer` holds the software engineer's entry |
| SkillAnalyzer.SoftwareEngineerTotal | src/pages/SkillAnalyzer.tsx:32-43 | The software engineer's required skills are worth 69 points |
| SkillAnalyzer.EarnedPointsStep | src/pages/SkillAnalyzer.tsx:217-235 | Each further required skill adds its own earned points to the running sum |
| SkillAnalyzer.EarnedPointsOfEight | src/pages/SkillAnalyzer.tsx:217-235 | The earned points of an eight-skill list are the sum of the eight credits |
| SkillAnalyzer.SoftwareEngineerCredits | src/pages/SkillAnalyzer.tsx:32-43 | The shipped user earns 9, 4, 2 and 6 points on JavaScript, Python, SQL and Data Structures, and nothing on the other four skills |
| SkillAnalyzer.SoftwareEngineerEarned | src/pages/SkillAnalyzer.tsx:32-43 | The shipped user earns 21 of them |
| SkillAnalyzer.SoftwareEngineerMatch | src/pages/SkillAnalyzer.tsx:203-239 | For the default career and the shipped user the page shows 30% |
| SkillAnalyzer.GapFor | src/pages/SkillAnalyzer.tsx:246-256 | A gap row keeps the name, level and importance; its user level is the found skill's level or 0; gap = max(0, level - user level); met iff user level >= level, partial iff 0 < user level < level, missing otherwise; met iff gap is 0 |
| SkillAnalyzer.CompareGaps | src/pages/SkillAnalyzer.tsx:257-263 | -1 for High against non-High, 1 for non-High against High, b.gap - a.gap for equal importance, 0 for Medium against Low either way |
| SkillAnalyzer.CompareGapsAntisymmetric | src/pages/SkillAnalyzer.tsx:257-263 | Swapping the arguments negates the comparison |
| SkillAnalyzer.CompareGapsNotTransitive | src/pages/SkillAnalyzer.tsx:257-263 | There are rows a, b, c with a ~ b and b ~ c but not a ~ c, so the comparator is no consistent order |
| SkillAnalyzer.SkillsGap | src/pages/SkillAnalyzer.tsx:242-264 | The gap list is a permutation of the rows, one per required skill; empty for an unknown career |
| SkillAnalyzer.StatusCountsAddUp | src/pages/SkillAnalyzer.tsx:267-279 | The met, partial and missing filters of any list have lengths summing to its length |
| SkillAnalyzer.PartitionInAnyOrder | src/pages/SkillAnalyzer.tsx:267-279 | For any reordering of the rows the three filters keep every row once, each keeps the list's order, and each holds exactly the rows of its status |
| SkillAnalyzer.StatusFiltersPartition | src/pages/SkillAnalyzer.tsx:267-279 | The page's matching, partial and missing lists together have one entry per required skill, and each keeps the gap list's order |
| SkillAnalyzer.StatusFiltersContents | src/pages/SkillAnalyzer.tsx:267-279 | Each of the three lists holds exactly the career's gap rows of its status |
| SkillAnalyzer.PrioritySkillsInAnyOrder | src/pages/SkillAnalyzer.tsx:287-296 | For any reordering of the rows there are min(3, number of positive gaps) priority names, each the name of a row with a positive gap, and none when no gap is positive |
| SkillAnalyzer.TopRecommendationsSelect | src/pages/SkillAnalyzer.tsx:298-301 | The recommended courses are a subsequence of the career's courses, and a course is recommended iff it covers some priority skill |
| SkillAnalyzer.TopRecommendationsFromGaps | src/pages/SkillAnalyzer.tsx:282-302 | At most three priority skills, each with a positive gap in the career's rows; no recommendation when no gap is positive |
| SkillAnalyzer.FilterCountInAnyOrder | src/pages/SkillAnalyzer.tsx:287-288 | Reordering the rows does not change how many of them pass the positive-gap filter |
| SkillAnalyzer.PrioritySkillsOfFew | src/pages/SkillAnalyzer.tsx:287-296 | With at most three positive gaps, the three-name cut keeps every ranked name |
| SkillAnalyzer.FewGapsAllPrioritised | src/pages/SkillAnalyzer.tsx:287-296 | For any reordering of the rows, when at most three rows have a positive gap, every such row's name is a priority skill |
| SkillAnalyzer.FewGapsAllRecommended | src/pages/SkillAnalyzer.tsx:282-302 | When at most three rows have a positive gap, every course covering one of those skills is recommended |
| SkillAnalyzer.BandOf | src/pages/SkillAnalyzer.tsx:362-370 | The text band is Excellent iff >= 80, Good iff 60..79, Fair iff 40..59, Weak iff < 40 |
| SkillAnalyzer.BandMonotone | src/pages/SkillAnalyzer.tsx:362-370 | A higher percentage never gets a lower band |
| Community.FilterQuestions | src/pages/Community.tsx:123-136 | The filtered questions are a subsequence of the list; each passes the search and, when a tag is selected, has a selected tag; every question passing both is kept |
| Community.NoFilterShowsAll | src/pages/Community.tsx:123-136 | With an empty query and no selected tag every question is listed |
| Community.MatchesSearchIsSubstring | src/pages/Community.tsx:125-126 | For a non-empty query a question passes the search iff the lower-cased query occurs in the lower-cased title or content |
| Community.SearchIgnoresQueryCase | src/pages/Community.tsx:125-126 | Lower-casing the query does not change which questions pass |
| Community.SortQuestions | src/pages/Community.tsx:139-151 | The sorted list is a permutation of the filtered list |
| Community.SortedByCounter | src/pages/Community.tsx:139-148 | Under votes, answers or views the sorted list is non-increasing in that counter |
| Community.RecentKeepsCatalogueOrder | src/pages/Community.tsx:149-150 | Under the default key, with a catalogue without repeats, the sorted list equals the filtered list |
| Community.MockQuestionsDistinct | src/pages/Community.tsx:24-100 | The shipped questions contain no repeats |
| Community.DefaultOrderIsCatalogueOrder | src/pages/Community.tsx:139-151 | On the shipped questions the default order is the filtered list |
| Community.Toggled | src/pages/Community.tsx:154-160 | Toggling a selected tag removes all its occurrences and keeps the other tags with their counts and order; toggling an absent tag appends it |
| Community.ToggleTwiceRestoresMembership | src/pages/Community.tsx:154-160 | Toggling the same tag twice restores which tags are selected |
| Community.CommunityPage.constructor | src/pages/Community.tsx:117-119 | Initially an empty query, no selected tag and the "recent" key over the shipped questions |
| Community.CommunityPage.SetSearchQuery | src/pages/Community.tsx:117 | The search box sets the query and nothing else |
| Community.CommunityPage.SetSortBy | src/pages/Community.tsx:256-264 | The sort selector sets the key and nothing else |
| Community.CommunityPage.ToggleTag | src/pages/Community.tsx:154-160 | A tag button toggles that tag and changes nothing else |
| Community.CommunityPage.ClearTags | src/pages/Community.tsx:290 | "Clear all" empties the selected tags and changes nothing else |
| Community.CommunityPage.ResetFilters | src/pages/Community.tsx:386-389 | Resetting clears the query and the tags, keeps the sort key, and then every question is listed |
| CareerExplorer.FilterCareers | src/pages/CareerExplorer.tsx:140-163 | The shown careers are a subsequence of the catalogue, and a career is shown iff it passes the search, industry, education and demand filters |
| CareerExplorer.ShownIffDemandReached | src/pages/CareerExplorer.tsx:158-160 | A career passing the other filters is shown iff its demand reaches the slider minimum |
| CareerExplorer.IndustryNarrowsAll | src/pages/CareerExplorer.tsx:148 | A chosen industry keeps, of what "all" shows, exactly the careers of that industry |
| CareerExplorer.EducationNarrowsAll | src/pages/CareerExplorer.tsx:153 | A chosen education level keeps, of what "all" shows, exactly the careers with that level |
| CareerExplorer.OpenFiltersShowAll | src/pages/CareerExplorer.tsx:140-163 | No query, both selectors on "all" and a minimum every career reaches show the whole list |
| CareerExplorer.CatalogueDemandAtLeast39 | src/pages/CareerExplorer.tsx:22-131 | Every catalogue career has a demand level of at least 3.9 |
| CareerExplorer.ResetShowsCatalogue | src/pages/CareerExplorer.tsx:255-259 | After a reset ("", "all", "all", 3.0) the whole catalogue is shown |
| CareerExplorer.Industries | src/pages/CareerExplorer.tsx:166 | The industry choices have no repeats, include every career's industry, name only catalogue industries, and follow first-occurrence order |
| CareerExplorer.EducationLevels | src/pages/CareerExplorer.tsx:169 | The same for the education levels |
| CareerExplorer.Badges | src/pages/CareerExplorer.tsx:312-321 | With more than three skills the first three are shown with a "+N more" badge of N = count − 3; with three or fewer all are shown and there is no badge |
| ResumeBuilder.NextAdvances | src/pages/ResumeBuilder.tsx:219-239 | nextSection moves one step forward and stays put at the preview |
| ResumeBuilder.PrevStepsBack | src/pages/ResumeBuilder.tsx:242-262 | prevSection moves one step back and stays put at the personal section |
| ResumeBuilder.PrevUndoesNext | src/pages/ResumeBuilder.tsx:219-262 | prev(next(s)) = s away from the preview and next(prev(s)) = s away from the personal section |
| ResumeBuilder.NextTimesReaches | src/pages/ResumeBuilder.tsx:219-239 | k presses of Next advance min(k, steps left) sections |
| ResumeBuilder.PersonalWith | src/pages/ResumeBuilder.tsx:88-96 | Setting a personal field gives it the value and leaves the other fields alone |
| ResumeBuilder.ApplyExperience | src/pages/ResumeBuilder.tsx:111-118 | Changing an experience entry sets exactly the named field (or the "current" flag) and keeps the id and the other fields |
| ResumeBuilder.EducationWith | src/pages/ResumeBuilder.tsx:141-148 | Changing an education entry sets exactly the named field and keeps the id and the rest |
| ResumeBuilder.SkillWith | src/pages/ResumeBuilder.tsx:171-178 | Changing a skill entry sets exactly the named field and keeps the id and the rest |
| ResumeBuilder.ProjectWith | src/pages/ResumeBuilder.tsx:201-208 | Changing a project entry sets exactly the named field and keeps the id and the rest |
| ResumeBuilder.UpdateById | src/pages/ResumeBuilder.tsx:111-118 | Updating by id keeps the length, changes every entry with the id and leaves every other entry as it was |
| ResumeBuilder.RemoveById | src/pages/ResumeBuilder.tsx:121-126 | Removing by id drops every entry with the id and keeps every other entry, with its count, in order |
| ResumeBuilder.ResumeEditor.constructor | src/pages/ResumeBuilder.tsx:62-85 | The editor starts on the personal section with an empty record and one blank entry with id 1 in each list |
| ResumeBuilder.ResumeEditor.UpdatePersonal | src/pages/ResumeBuilder.tsx:88-96 | Sets one personal field and changes nothing else |
| ResumeBuilder.ResumeEditor.AddExperience | src/pages/ResumeBuilder.tsx:99-108 | Appends one blank experience with id length + 1 and changes nothing else |
| ResumeBuilder.ResumeEditor.UpdateExperience | src/pages/ResumeBuilder.tsx:111-118 | Applies the change to the experience entries with the id and changes nothing else |
| ResumeBuilder.ResumeEditor.RemoveExperience | src/pages/ResumeBuilder.tsx:121-126 | Removes the experience entries with the id and changes nothing else |
| ResumeBuilder.ResumeEditor.AddEducation | src/pages/ResumeBuilder.tsx:129-138 | Appends one blank education with id length + 1 and changes nothing else |
| ResumeBuilder.ResumeEditor.UpdateEducation | src/pages/ResumeBuilder.tsx:141-148 | Sets the field of the education entries with the id and changes nothing else |
| ResumeBuilder.ResumeEditor.RemoveEducation | src/pages/ResumeBuilder.tsx:151-156 | Removes the education entries with the id and changes nothing else |
| ResumeBuilder.ResumeEditor.AddSkill | src/pages/ResumeBuilder.tsx:159-168 | Appends one blank skill at level "Intermediate" with id length + 1 and changes nothing else |
| ResumeBuilder.ResumeEditor.UpdateSkill | src/pages/ResumeBuilder.tsx:171-178 | Sets the field of the skill entries with the id and changes nothing else |
| ResumeBuilder.ResumeEditor.RemoveSkill | src/pages/ResumeBuilder.tsx:181-186 | Removes the skill entries with the id and changes nothing else |
| ResumeBuilder.ResumeEditor.AddProject | src/pages/ResumeBuilder.tsx:189-198 | Appends one blank project with id length + 1 and changes nothing else |
| ResumeBuilder.ResumeEditor.UpdateProject | src/pages/ResumeBuilder.tsx:201-208 | Sets the field of the project entries with the id and changes nothing else |
| ResumeBuilder.ResumeEditor.RemoveProject | src/pages/ResumeBuilder.tsx:211-216 | Removes the project entries with the id and changes nothing else |
| ResumeBuilder.ResumeEditor.NextSection | src/pages/ResumeBuilder.tsx:219-239 | Moves the active section to the next one and changes nothing else |
| ResumeBuilder.ResumeEditor.PrevSection | src/pages/ResumeBuilder.tsx:242-262 | Moves the active section to the previous one and changes nothing else |
| ResumeBuilder.ResumeEditor.SetActiveTab | src/pages/ResumeBuilder.tsx:283-330 | A sidebar button selects that section and changes nothing else |
| ResumeBuilder.UpdateExperienceChangesOnlyField | src/pages/ResumeBuilder.tsx:111-118 | Updating a text field by id changes that field of the matching entries only, and keeps the length and every other entry |
| ResumeBuilder.RemoveKeepsUniqueIds | src/pages/ResumeBuilder.tsx:121-126 | Removal keeps ids unique |
| ResumeBuilder.FilterKeepsUniqueIds | src/pages/ResumeBuilder.tsx:121-126 | Filtering out an id keeps ids unique |
| ResumeBuilder.GuardedRemoveKeepsNonEmpty | src/pages/ResumeBuilder.tsx:490 | With unique ids, a remove offered only on a list of two or more leaves it non-empty |
| ResumeBuilder.UiStepsCanEmptyList | src/pages/ResumeBuilder.tsx:99-126 | As written: add, remove id 1, add, remove id 2 takes the initial experience list through a repeated id to the empty list |
| ResumeBuilder.FreshId | src/pages/ResumeBuilder.tsx:100 | One more than the largest id: larger than every id in the list |
| ResumeBuilder.UiStepFreshKeepsInvariant | src/pages/ResumeBuilder.tsx:99-126 | With fresh ids every add, and every remove the page offers, keeps the ids unique and the list non-empty |
| ResumeBuilder.InitialListHasUniqueIds | src/pages/ResumeBuilder.tsx:62-85 | The initial list satisfies that invariant |
| MockInterview.CategoryColor | src/pages/MockInterview.tsx:254-268 | Each known category gets its fixed class; the gray default exactly for any other label |
| MockInterview.DifficultyColor | src/pages/MockInterview.tsx:270-281 | Each known difficulty gets its fixed class; the gray default exactly for any other label |
| MockInterview.GeneratedQuestionsHaveColors | src/pages/MockInterview.tsx:64-185 | No generated question is shown in the gray default |
| MockInterview.QuestionIdsAtMostLength | src/pages/MockInterview.tsx:903 | A question list has at most as many distinct ids as questions |
| MockInterview.CompletionPercent | src/pages/MockInterview.tsx:920 | With no questions the expression gives no number (NaN with no answers, Infinity otherwise), and the page shows it only when there are questions (296); otherwise it is the rounded percentage of answered questions |
| MockInterview.CompletionAtMost100 | src/pages/MockInterview.tsx:903-920 | When only question ids are answered, completion is at most 100% |
| MockInterview.InterviewSession.constructor | src/pages/MockInterview.tsx:189-196 | No company, role or questions, index 0, no answers, neither started nor completed |
| MockInterview.InterviewSession.SelectCompany | src/pages/MockInterview.tsx:189 | Sets the company and nothing else |
| MockInterview.InterviewSession.SelectRole | src/pages/MockInterview.tsx:190 | Sets the role and nothing else |
| MockInterview.InterviewSession.GenerateQuestions | src/pages/MockInterview.tsx:201-222 | Without a company or a role nothing changes; otherwise the fixed list is loaded, the index set to 0, the answers emptied, and started and completed cleared |
| MockInterview.InterviewSession.StartInterview | src/pages/MockInterview.tsx:225-227 | Sets started and nothing else |
| MockInterview.InterviewSession.SaveAnswer | src/pages/MockInterview.tsx:230-235 | Sets or overwrites the answer of one question id and keeps every other answer |
| MockInterview.InterviewSession.AnswerCurrent | src/pages/MockInterview.tsx:712 | The answer box writes the current question's answer and keeps the index in range |
| MockInterview.InterviewSession.NextQuestion | src/pages/MockInterview.tsx:238-244 | Increments the index below the last question; on the last one sets completed and keeps the index; keeps it in range |
| MockInterview.InterviewSession.PreviousQuestion | src/pages/MockInterview.tsx:247-251 | Decrements the index only when it is positive; keeps it in range |
| MockInterview.InterviewSession.JumpTo | src/pages/MockInterview.tsx:869 | A navigator button moves to that question, which is in range |
| MockInterview.InterviewSession.EndInterview | src/pages/MockInterview.tsx:849 | Sets completed and nothing else |
| MockInterview.InterviewSession.Review | src/pages/MockInterview.tsx:669-672 | Clears started and completed and keeps the answers |
| MockInterview.InterviewSession.ClearQuestions | src/pages/MockInterview.tsx:396 | Drops the questions and nothing else |
| AuthContext.FindByEmail | src/context/AuthContext.tsx:102 | The user found is the first with exactly that email; None means no user has it |
| AuthContext.LoginUser | src/context/AuthContext.tsx:102-121 | Login yields a user iff some user has the email and the password is "123456", and then it is the first user with that email |
| AuthContext.LoginAcceptsMockUsers | src/context/AuthContext.tsx:7-50 | Against the shipped users exactly john@example.com and jane@example.com with "123456" sign in, as John and Jane |
| AuthContext.PhoneUser | src/context/AuthContext.tsx:131-144 | The phone user has id "phone-user-1", the given phone, no email, the student role and empty lists |
| AuthContext.NewUser | src/context/AuthContext.tsx:171-184 | A registered user has the given id; name, role, interests, skills and education default to "New User", student, [], [] and "Not specified"; email and phone are copied; no image; nothing saved |
| AuthContext.AuthProvider.constructor | src/context/AuthContext.tsx:65-69 | No user, not authenticated, loading |
| AuthContext.AuthProvider.Login | src/context/AuthContext.tsx:97-123 | On success the state is that user, authenticated, not loading; on failure the error is reported and the state is unchanged; consistency is kept |
| AuthContext.AuthProvider.LoginWithPhone | src/context/AuthContext.tsx:126-163 | The mock code signs in the phone user; any other code reports the error and leaves the state unchanged; consistency is kept |
| AuthContext.AuthProvider.Register | src/context/AuthContext.tsx:166-195 | Always signs in the new user, authenticated and not loading |
| AuthContext.AuthProvider.Logout | src/context/AuthContext.tsx:198-209 | No user, not authenticated, not loading |
| Register.EmailSubmitCall | src/pages/Register.tsx:67-85 | No call to register iff the passwords differ; otherwise name, email and role with the password |
| Register.PhoneSubmitCall | src/pages/Register.tsx:106-116 | Name, phone and role, with the code in the password argument |
| Register.PhoneAcceptedIffTenCodeUnits | src/pages/Register.tsx:96-101 | A phone string is accepted iff its JavaScript length, in UTF-16 code units, is at least ten; without characters above U+FFFF that is iff it has at least ten characters |
| Register.FiveAstralCharactersAccepted | src/pages/Register.tsx:96 | Five characters above U+FFFF have length ten, so `requestOtp`'s rule accepts them |
| Register.PhoneRegistrationIgnoresOtp | src/pages/Register.tsx:106-116 | Any code registers the same user |
| Register.RegisterPage.constructor | src/pages/Register.tsx:46 | The code field starts hidden, with no error shown |
| Register.RegisterPage.OnEmailSubmit | src/pages/Register.tsx:67-92 | Registers iff the passwords match; a mismatch sets the confirmation error and leaves authentication untouched |
| Register.RegisterPage.RequestOtp | src/pages/Register.tsx:94-104 | A phone of JavaScript length ten or more reveals the code field; an invalid one sets the phone error; the field is never hidden again |
| Register.RegisterPage.OnPhoneSubmit | src/pages/Register.tsx:106-123 | Available only once the code field is shown; signs in the new phone user |
| Seqs.Filter | src/pages/Community.tsx:123 | The kept elements come from the list and pass the predicate; every passing element is kept |
| Seqs.FilterIsSubsequence | src/pages/CareerExplorer.tsx:140 | A filtered list keeps the list's order |
| Seqs.SortBy | src/pages/Community.tsx:139 | The sort returns a permutation of its input |
| Seqs.SortByDescending | src/pages/Community.tsx:141-148 | With a comparator b.key - a.key the result is non-increasing in key |
| Seqs.SortByKeepsAscending | src/pages/Community.tsx:150 | With a comparator a.key - b.key a list already non-decreasing in key is returned unchanged |
| Seqs.Dedup | src/pages/CareerExplorer.tsx:166 | Each value once, every value of the input present, nothing else |
| Seqs.DedupFirstOccurrenceOrder | src/pages/CareerExplorer.tsx:166 | The values follow the order of their first occurrences |
| Seqs.IndexOf | src/pages/Community.tsx:150 | The first position of the value, or -1 exactly when it is absent |
| Seqs.FilterKeepsIndexOrder | src/pages/Community.tsx:150 | A filtered list without repeats keeps the catalogue positions increasing |
| Seqs.FilterNone | src/pages/SkillAnalyzer.tsx:299-301 | A filter no element passes returns the empty list |
| Seqs.FilterOfFilter | src/pages/CareerExplorer.tsx:140-163 | Filtering by a conjunction is filtering twice |
| Text.Includes | src/pages/Community.tsx:125-126 | includes holds iff the needle occurs at some position |
| Text.IncludesEmpty | src/pages/CareerExplorer.tsx:142-145 | The empty query occurs in every text |
| Text.ToLowerIdempotent | src/pages/Community.tsx:125-126 | Lower-casing twice is lower-casing once |
| Text.Utf16Length | src/pages/Register.tsx:96 | `length` counts UTF-16 code units: between the character count and twice it |
| Text.BmpUtf16Length | src/pages/Register.tsx:96 | Without characters above U+FFFF the length is the character count |
| Text.Utf16LengthCountsAstral | src/pages/Register.tsx:96 | The length is the character count plus the number of characters above U+FFFF |
| Percent.RoundedPercent | src/pages/SkillAnalyzer.tsx:238 | The result is the nearest integer to 100 * part / whole, halves rounded up |
| Percent.RoundedPercentBounds | src/pages/SkillAnalyzer.tsx:238 | A share between none and all rounds to [0, 100] |
| Percent.RoundedPercentOfWhole | src/pages/SkillAnalyzer.tsx:238 | The whole rounds to 100 |
| Percent.RoundedPercentMonotone | src/pages/SkillAnalyzer.tsx:238 | A larger share never rounds lower |

## Left out

- JSX markup, styling and icons are not modelled, nor are the progress-bar widths, which are floating point.
- `src/pages/Index.tsx`, `src/pages/Dashboard.tsx`, `src/components/Footer.tsx` and `src/App.tsx` are not part of this model. They hold markup, mock lists and routing only.
- `src/pages/Login.tsx` is not part of this model. It is form wiring over the authentication context.
- The localStorage restore and writes, `JSON.parse`, toasts, `setTimeout` delays and the loading flags of the pages are browser I/O and timing. They are left out.
- `Date.now()` is a clock. `Register` takes the new id as a parameter instead.
- Navigation after sign-in or registration (`navigate('/dashboard')`) is routing and is left out.
- The provider check in `useAuth` is left out. It is a React context guard.
- Lower-casing is ASCII only. Unicode case mapping is not modelled.
- `Math.round` on floating point is modelled by exact rational rounding. Float edge cases, where a binary quotient falls just below a half, may differ.
- The JavaScript engine's sort algorithm is not modelled. Both pages use one stable insertion sort instead. On the Community page the same sortedness facts hold as for any sort: the result is a permutation, non-increasing in the chosen counter, and unchanged under the default key. How questions with equal counters are ordered is not stated. For the gap list only facts true of every permutation are proved.
- react-hook-form validation is left out, including the `required` rule on the one-time code field. So is the email form's eight-character password minimum. `isSubmitting` is left out too.
- The resume template choice (`selectedTemplate`) is left out, because it only changes the preview markup.
- Question authors and dates on the Community page are left out, as is the ask-question dialog.
- The interview page's `showTips` and `useAI` switches are left out. So are the company and role name lookups, which only feed text.
- Only the count of the "+N more" badge is modelled, not its text.
- The demand slider's upper bound, 5.0 (src/pages/CareerExplorer.tsx:247), is left out. It limits only the widget, and no filter result depends on it.
- Form fields are enumerations, not arbitrary property names. The "current" checkbox value is a boolean.
- MockInterview.CompletionAtMost100: it assumes the answer keys are ids of the current questions. `GenerateQuestions` establishes that by emptying the answers, and `AnswerCurrent` keeps it. `SaveAnswer` keeps it only for an id of a current question. After `ClearQuestions` there are no questions, so the completion is undefined (`None`).
- ResumeBuilder.ResumeEditor: it keeps the code's id scheme (length + 1). The proved non-emptiness invariant holds for the corrected scheme only; see Findings.
- The uniqueness of the generated question ids is not proved, because the 20-entry literal is too large to reason about at once. `MockInterview.CompletionAtMost100` needs only that answers belong to questions.

## Findings

| source | as written | input that shows it | evidently intended | confidence | as-written member | corrected member |
|---|---|---|---|---|---|---|
| src/pages/ResumeBuilder.tsx:100 | A new entry's id is the list length plus one, and the remove button is offered whenever a list has more than one entry | From the initial experience list [1]: add gives [1, 2]; remove 1 gives [2]; add gives [2, 2]; remove 2 (offered, as there are two entries) gives [] | New ids never clash with present ones, so a remove drops one entry and the list never becomes empty | not executed | ResumeBuilder.UiStepsCanEmptyList | ResumeBuilder.UiStepFreshKeepsInvariant |
