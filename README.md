# HireFlow event handlers in Dafny

HireFlow is a React front end for a hiring platform. It has two sides:
- **recruiters** post jobs, configure interview rounds and assessments, move applicants between rounds, review applicants and answer notifications;
- **applicants** browse jobs, keep a profile, take skill assessments and video interviews, and answer interview requests.

All data is mock data. The logic sits in component event handlers. Each handler is a deterministic transition over the component's local state.

This project models those handlers.

State that a component updates in place is a Dafny `class`. Its fields are the component's `useState` variables, and each handler is a `method` whose `modifies` clause names the fields it sets. Each method's `ensures` gives the complete new state, either directly or through a specification function.

Pure lookups and filters are functions with lemmas about them:
- `getTypeColor`, `getMatchColor`, `getGradeColor`, `getRatingText`;
- the `matchesSearch` filters and the tab filters;
- `overallScore`.

The JavaScript library behaviour the handlers rely on is written out in three shared modules:
- `Text`: `trim`, ASCII `toLowerCase` and `includes`;
- `Decimal`: `${n}` and `parseInt`;
- `Seqs`: `filter` and `splice`.

Timers, random draws, `Date.now()` ids and `prompt()` answers become method parameters.

Layout, one module per file:
- `wrappers.dfy`: Option.
- `text.dfy`, `decimal.dfy`, `seqs.dfy`: the library behaviour above.
- `tag_list.dfy`: trimmed, duplicate-free tag lists.
- `interview_types.dfy`, `match_colors.dfy`, `decision.dfy`: lookups and the accept/reject step that several components share.
- One file per component or page: `interview_rounds.dfy`, `interview_configuration.dfy`, `assessment_configuration.dfy`, `interview_scheduler.dfy`, `job_post.dfy`, `company_profile.dfy`, `profile.dfy`, `job_listings.dfy`, `recommended_candidates.dfy`, `recruiter_notifications.dfy`, `applicant_notifications.dfy`, `skill_assessment.dfy`, `video_interview.dfy`, `applicant_review.dfy`, `applicant_card.dfy`, `skill_card.dfy`, `job_card.dfy`.

Where the code and its documentation disagree, the model follows the code:
- In `handleDrop`, a card dropped onto its own round is appended a second time.
- A card whose id is missing from the source round is still appended to the target.
- `DropOntoSameRound` and `DropAbsentItem` state both behaviours.
- A `matchScore` of 0 does not hide the job card's badge slot; it leaves a "0". `MatchSlotAsWritten` and `CardViewAsWritten` model the code as written. `MatchSlot` and `CardView` model the corrected guard (see Findings).

## Model

| member | source | states |
|---|---|---|
| Text.Trim | src/components/recruiter/AssessmentConfiguration.tsx:40 | `trim` gives the slice of the input left once a white-space prefix and a white-space suffix are cut, and that slice neither starts nor ends with white space, so it is the longest such cut on both sides; it gives "" exactly when every character is white space |
| Text.TrimIdempotent | src/pages/recruiter/CompanyProfile.tsx:87-88 | trimming an already trimmed text changes nothing, so a stored trimmed tag is found again by `includes(x.trim())` |
| Text.Lower | src/pages/recruiter/JobPost.tsx:61 | `toLowerCase` keeps the length and maps each ASCII capital to its small letter, leaving every other character as it is |
| Text.LowerIdempotent | src/pages/applicant/JobListings.tsx:65-67 | lower-casing a lower-cased text changes nothing |
| Text.Contains | src/pages/applicant/JobListings.tsx:65-70 | `String.prototype.includes`, specified by `ContainsAt`: the needle occurs as a contiguous block at some index |
| Text.ContainsAt | src/pages/applicant/JobListings.tsx:65-70 | `includes` holds exactly when the needle occurs as a contiguous block at some index |
| Text.EmptyTermMentioned | src/pages/applicant/JobListings.tsx:64-67 | every text includes the empty search term, ignoring case |
| Decimal.ToDecimal | src/components/recruiter/InterviewRounds.tsx:146 | `${n}` is a non-empty digit string with no leading zero |
| Decimal.ToDecimalInjective | src/components/recruiter/InterviewRounds.tsx:146 | two numbers print the same exactly when they are equal |
| Decimal.LeadingDigits | src/components/recruiter/InterviewScheduler.tsx:49 | the digits `parseInt` reads: a prefix of the text made of digits only, followed by a non-digit or the end |
| Decimal.ParseInt | src/components/recruiter/InterviewScheduler.tsx:49 | `parseInt(s)` in radix 10, specified by `ParseIntToDecimal` (it reads back every `${n}`) and used by `DurationParses`: leading white space skipped, one optional sign, the longest digit run, None (NaN) without digits |
| Decimal.ParseIntToDecimal | src/components/recruiter/InterviewScheduler.tsx:49 | `parseInt` reads back every numeral that `${n}` writes |
| Seqs.Filter | src/pages/applicant/JobListings.tsx:63 | `Array.prototype.filter`, specified by `FilterSpec` |
| Seqs.FilterSpec | src/pages/applicant/JobListings.tsx:63 | a `filter` result is an order-preserving subsequence whose entries all pass, and it holds each passing value exactly as often as the input does |
| Seqs.Without | src/components/recruiter/AssessmentConfiguration.tsx:50 | `filter(y => y !== x)` drops every copy of `x`, keeps the order and count of every other value, and returns the list unchanged when `x` is absent |
| Seqs.WithoutKey | src/components/recruiter/InterviewConfiguration.tsx:98 | filtering by id drops exactly the entries with that id, and keeps the order and count of all the others |
| Seqs.WithoutAppended | src/pages/recruiter/CompanyProfile.tsx:88-94 | removing a value just appended to a list without it restores the list |
| Seqs.WithoutKeyAppended | src/components/recruiter/AssessmentConfiguration.tsx:62-72 | removing the id of an entry just appended under a fresh id restores the list |
| Seqs.SpliceOne | src/pages/recruiter/JobPost.tsx:67-71 | `splice(i, 1)` on a copy: an index inside the list removes exactly that entry and shifts the later ones down; an index past the end removes nothing; a negative index counts from the end |
| Seqs.SpliceOneMultiset | src/pages/recruiter/JobPost.tsx:68-69 | removing the entry at an index keeps every other entry, as often as before |
| TagList.AddTrimmed | src/components/recruiter/AssessmentConfiguration.tsx:39-47 | the old list stays a prefix; the trimmed input is appended exactly when it is non-blank and not yet listed; the list stays free of duplicates and blanks |
| TagList.AddTrimmedIdempotent | src/pages/recruiter/CompanyProfile.tsx:86-91 | entering the same text twice adds it once |
| TagList.RemoveKeepsClean | src/pages/recruiter/CompanyProfile.tsx:93-95 | removal keeps a list free of duplicates and blanks |
| TagList.AddThenRemove | src/pages/recruiter/CompanyProfile.tsx:86-95 | adding an accepted text and then removing its trimmed form restores the list |
| InterviewTypes.TypeColor | src/components/recruiter/InterviewRounds.tsx:172-185 | `getTypeColor`, specified by `TypeColorDistinct`: one badge class per type and a default for the missing type |
| InterviewTypes.TypeColorDistinct | src/components/recruiter/InterviewRounds.tsx:172-185 | `getTypeColor` gives each of the four types, and the missing type, a badge of its own |
| InterviewRounds.Merge | src/components/recruiter/InterviewRounds.tsx:123-126 | `{...round, ...editForm}`: each field set in the edit form replaces the round's, the others are kept; specified by `EditOf` and `SaveEditKeepsKeys` |
| InterviewRounds.EditOf | src/components/recruiter/InterviewRounds.tsx:116-118 | an edit form filled from a round and merged back (`{...round, ...editForm}`) gives the round unchanged |
| InterviewRounds.RoundKey | src/components/recruiter/InterviewRounds.tsx:146 | `round${n}`, specified by `RoundKeyInjective` and `KeySeqFresh` |
| InterviewRounds.RoundKeyInjective | src/components/recruiter/InterviewRounds.tsx:146 | `round${n}` keys are equal exactly when their numbers are |
| InterviewRounds.KeySeqFresh | src/components/recruiter/InterviewRounds.tsx:146 | the keys round1..roundN are distinct and never include round<N+1>; appending it gives round1..round<N+1> |
| InterviewRounds.Drop | src/components/recruiter/InterviewRounds.tsx:99-110 | the buckets after `handleDrop`, specified by `DropBetweenRounds`, `DropOntoSameRound`, `DropAbsentItem` and `DropPreservesTotal` |
| InterviewRounds.DropBetweenRounds | src/components/recruiter/InterviewRounds.tsx:99-110 | between two different rounds, the source loses every entry with the dragged id and keeps the others in order and number; the dragged record is appended once to the target's end; the set of buckets and every other bucket are unchanged |
| InterviewRounds.DropOntoSameRound | src/components/recruiter/InterviewRounds.tsx:99-110 | dropping a card onto the round it came from appends it a second time to the unfiltered list |
| InterviewRounds.DropAbsentItem | src/components/recruiter/InterviewRounds.tsx:99-104 | a card whose id is not in the source leaves the source as it was and is still appended to the target |
| InterviewRounds.DropPreservesTotal | src/components/recruiter/InterviewRounds.tsx:99-110 | moving a card that occurs exactly once in its source to a different round keeps the number of cards on the board |
| InterviewRounds.SaveEdit | src/components/recruiter/InterviewRounds.tsx:121-128 | the configuration after `saveRoundEdit` has as many rounds as before; which rounds change is stated by `SaveEditKeepsKeys` |
| InterviewRounds.SaveEditKeepsKeys | src/components/recruiter/InterviewRounds.tsx:121-128 | saving an edit whose key is unset or is the edited key merges it into exactly the rounds with that key, changes no other round and keeps the key list |
| InterviewRounds.Board.constructor | src/components/recruiter/InterviewRounds.tsx:33-42 | round1 holds all the given applicants in order and round2 and round3 are empty; there is no drag, no edit and no add form; the keys are round1..round3 |
| InterviewRounds.Board.HandleDragStart | src/components/recruiter/InterviewRounds.tsx:84-87 | records the dragged card and the bucket it came from |
| InterviewRounds.Board.HandleDrop | src/components/recruiter/InterviewRounds.tsx:93-114 | without a recorded card and source round, nothing changes; otherwise the buckets become the Drop of the old buckets, and the dragged card and source are cleared |
| InterviewRounds.Board.StartEditRound | src/components/recruiter/InterviewRounds.tsx:116-119 | opens the edit form on the round, filled from it |
| InterviewRounds.Board.SetEditText | src/components/recruiter/InterviewRounds.tsx:237-261 | an edit input box sets its own field of the edit form and nothing else |
| InterviewRounds.Board.SetEditType | src/components/recruiter/InterviewRounds.tsx:269 | the edit form's type select sets the type alone |
| InterviewRounds.Board.SaveRoundEdit | src/components/recruiter/InterviewRounds.tsx:121-133 | with no round being edited nothing changes; otherwise the edit is merged into that round and the form is closed; the keys stay round1..roundN |
| InterviewRounds.Board.CancelEdit | src/components/recruiter/InterviewRounds.tsx:135-138 | closes the edit form and never touches the configuration |
| InterviewRounds.Board.SetNewRoundText | src/components/recruiter/InterviewRounds.tsx:356-382 | an add-form input box sets its own field and nothing else |
| InterviewRounds.Board.SetNewRoundType | src/components/recruiter/InterviewRounds.tsx:389 | the add form's type select sets the type alone |
| InterviewRounds.Board.SetAddingRound | src/components/recruiter/InterviewRounds.tsx:196 | the Add Round and Cancel buttons open and close the add form |
| InterviewRounds.Board.AddNewRound | src/components/recruiter/InterviewRounds.tsx:140-170 | a form missing its title, interviewer or venue changes nothing; otherwise a round keyed round<N+1> is appended, a new empty bucket is created under that fresh key, the existing buckets are untouched, and the form is reset (type "technical") and closed |
| InterviewConfiguration.Validate | src/components/recruiter/InterviewConfiguration.tsx:51-66 | refuses a form missing its title, interviewer, venue or duration; refuses an assessment round with generation on and no skills, or with generation off and no questions; every other type passes once the required fields are filled |
| InterviewConfiguration.RoundOf | src/components/recruiter/InterviewConfiguration.tsx:68-79 | the round record `addRound` builds from the draft under a fresh id, specified by `RoundOfDefaults` and by `Configuration.AddRound` |
| InterviewConfiguration.RoundOfDefaults | src/components/recruiter/InterviewConfiguration.tsx:68-79 | a round added from a form with only its required fields filled carries an empty description, generation off, and no skills or questions |
| InterviewConfiguration.AddThenRemoveRound | src/components/recruiter/InterviewConfiguration.tsx:81-98 | removing a round just added under a fresh id restores the list |
| InterviewConfiguration.Configuration.constructor | src/components/recruiter/InterviewConfiguration.tsx:36-48 | no rounds, the add form closed, and the empty draft with type "technical" |
| InterviewConfiguration.Configuration.AddRound | src/components/recruiter/InterviewConfiguration.tsx:50-95 | the returned refusal is Validate's verdict; a refused form changes nothing; an accepted one appends exactly one round at the end, resets the draft and closes the form |
| InterviewConfiguration.Configuration.RemoveRound | src/components/recruiter/InterviewConfiguration.tsx:97-100 | removes the rounds with the id and keeps the order of the rest |
| InterviewConfiguration.Configuration.HandleComplete | src/components/recruiter/InterviewConfiguration.tsx:117-123 | hands over the rounds exactly when there is at least one |
| InterviewConfiguration.Configuration.SetAddingRound | src/components/recruiter/InterviewConfiguration.tsx:132 | opens or closes the add form |
| InterviewConfiguration.Configuration.SetText | src/components/recruiter/InterviewConfiguration.tsx:217-275 | a draft input box sets its own field of the draft and nothing else |
| InterviewConfiguration.Configuration.SetType | src/components/recruiter/InterviewConfiguration.tsx:254 | the type select sets the draft's type alone |
| InterviewConfiguration.Configuration.SetUseAIAssessment | src/components/recruiter/InterviewConfiguration.tsx:286 | the checkbox sets the generation flag alone |
| InterviewConfiguration.Configuration.OnSkillsChange | src/components/recruiter/InterviewConfiguration.tsx:294 | the assessment editor's skill list replaces the draft's and nothing else |
| InterviewConfiguration.Configuration.OnQuestionsChange | src/components/recruiter/InterviewConfiguration.tsx:295 | the assessment editor's question list replaces the draft's and nothing else |
| AssessmentConfiguration.MakeQuestion | src/components/recruiter/AssessmentConfiguration.tsx:57-61 | a stored question keeps its id, its question is `Trim` of the question input and its answer `Trim` of the answer input; both are non-blank and already trimmed |
| AssessmentConfiguration.WithQuestion | src/components/recruiter/AssessmentConfiguration.tsx:56-62 | the list grows by one question at the end exactly when both the question and the answer are non-blank after trimming |
| AssessmentConfiguration.AddThenRemoveQuestion | src/components/recruiter/AssessmentConfiguration.tsx:62-72 | removing a question just added under a fresh id restores the list |
| AssessmentConfiguration.Editor.constructor | src/components/recruiter/AssessmentConfiguration.tsx:33-37 | starts from the given skills and questions with empty inputs |
| AssessmentConfiguration.Editor.AddSkill | src/components/recruiter/AssessmentConfiguration.tsx:39-47 | the skills become AddTrimmed of the old skills; on an accepted input the new list is reported and the box is cleared; otherwise nothing is reported and the input is kept; a clean list stays clean |
| AssessmentConfiguration.Editor.RemoveSkill | src/components/recruiter/AssessmentConfiguration.tsx:49-53 | every equal skill goes, the rest keep their order, the same list is reported, and a clean list stays clean |
| AssessmentConfiguration.Editor.AddQuestion | src/components/recruiter/AssessmentConfiguration.tsx:55-69 | reports WithQuestion's result; on success the list becomes it and both boxes are cleared; otherwise nothing changes |
| AssessmentConfiguration.Editor.RemoveQuestion | src/components/recruiter/AssessmentConfiguration.tsx:71-75 | the questions with the id go, the rest keep their order, and the same list is reported |
| InterviewScheduler.TimeSlotsHalfHourly | src/components/recruiter/InterviewScheduler.tsx:32-36 | there are 18 slots, the i-th at 09:00 plus 30·i minutes |
| InterviewScheduler.TimeSlotsAscending | src/components/recruiter/InterviewScheduler.tsx:32-36 | the slots are in strictly ascending order, from 09:00 to 17:30 |
| InterviewScheduler.DurationsParse | src/components/recruiter/InterviewScheduler.tsx:119-122 | the four durations read as 30, 45, 60 and 90 |
| InterviewScheduler.DurationParses | src/components/recruiter/InterviewScheduler.tsx:49 | every duration the select offers parses to a number of minutes in {30, 45, 60, 90} |
| InterviewScheduler.LinkOrDefault | src/components/recruiter/InterviewScheduler.tsx:50 | the entered link is kept when it is non-empty; an empty link becomes https://meet.google.com/new |
| InterviewScheduler.Scheduler.constructor | src/components/recruiter/InterviewScheduler.tsx:27-30 | the dialog opens on today, with no time, duration "60" and no link |
| InterviewScheduler.Scheduler.SelectDate | src/components/recruiter/InterviewScheduler.tsx:27 | the calendar sets or clears the date |
| InterviewScheduler.Scheduler.SelectTime | src/components/recruiter/InterviewScheduler.tsx:32-36 | the time select sets one of the listed slots |
| InterviewScheduler.Scheduler.SelectDuration | src/components/recruiter/InterviewScheduler.tsx:119-122 | the duration select sets one of its four values |
| InterviewScheduler.Scheduler.HandleSchedule | src/components/recruiter/InterviewScheduler.tsx:38-62 | without a date or a time, emits nothing and changes nothing; otherwise it first emits the record (the name, round, date and time as given, the parsed duration, and the link or its default), then the close, then resets the fields to today, "", "60" and "" |
| JobPost.JobFormValid | src/pages/recruiter/JobPost.tsx:19-30 | `jobFormSchema`: the title has at least 3 characters; the department, location and employment type at least 1; the description, responsibilities and qualifications at least 10; salary, benefits and the skill box are optional. Specified by `ValidityIgnoresOptional`, `DefaultFormInvalid` and `Page.Submit` |
| JobPost.ValidityIgnoresOptional | src/pages/recruiter/JobPost.tsx:24-29 | salary, benefits and the skill box never affect whether the form is valid |
| JobPost.DefaultFormInvalid | src/pages/recruiter/JobPost.tsx:45-56 | the empty default form is not valid (the title needs at least 3 characters) |
| JobPost.SkillBadgeColor | src/pages/recruiter/JobPost.tsx:73-82 | `getSkillBadgeColor`, specified by `SkillBadgeColorDistinct` |
| JobPost.SkillBadgeColorDistinct | src/pages/recruiter/JobPost.tsx:73-82 | each skill level has its own badge colour |
| JobPost.WithSkill | src/pages/recruiter/JobPost.tsx:59-65 | the old skills stay a prefix; the untrimmed input is appended with the chosen level exactly when it is non-empty and not listed under any casing; names stay distinct ignoring case; a non-empty input is listed afterwards |
| JobPost.WithSkillCaseInsensitive | src/pages/recruiter/JobPost.tsx:61 | once a name is added, entering it again in any casing adds nothing |
| JobPost.SpliceKeepsNoCaseDuplicates | src/pages/recruiter/JobPost.tsx:67-71 | removing by index keeps the names distinct ignoring case |
| JobPost.Page.constructor | src/pages/recruiter/JobPost.tsx:40-56 | no skills, level "intermediate", and the default form |
| JobPost.Page.AddSkill | src/pages/recruiter/JobPost.tsx:59-65 | the skills become WithSkill of the old ones; the box is cleared exactly when the skill was added; case-distinct names stay case-distinct |
| JobPost.Page.RemoveSkill | src/pages/recruiter/JobPost.tsx:67-71 | the skills become the splice at the index, and case-distinct names stay case-distinct |
| JobPost.Page.Submit | src/pages/recruiter/JobPost.tsx:84-101 | an invalid form, or a valid one without skills, is refused with nothing changed; otherwise the form and skills are posted, then the form is reset and the skills emptied |
| CompanyProfile.CompanyProfileValid | src/pages/recruiter/CompanyProfile.tsx:15-33 | `companyProfileSchema`: the company name has at least 2 characters; the target market, headquarters and working style at least 5; the overview, mission, vision, key achievements, team dynamic and leadership approach at least 10; branch offices and global presence are optional. Specified by `ValidityIgnoresOptional` and `DefaultFormInvalid` |
| CompanyProfile.ValidityIgnoresOptional | src/pages/recruiter/CompanyProfile.tsx:26-27 | branch offices and global presence never affect validity |
| CompanyProfile.DefaultFormInvalid | src/pages/recruiter/CompanyProfile.tsx:47-60 | the empty default profile is not valid |
| CompanyProfile.Page.constructor | src/pages/recruiter/CompanyProfile.tsx:40-61 | no values and no awards, empty inputs, and the empty default profile |
| CompanyProfile.Page.AddValue | src/pages/recruiter/CompanyProfile.tsx:86-91 | the values become AddTrimmed of the old ones; the box is cleared only on success; the awards are untouched; both lists stay clean |
| CompanyProfile.Page.RemoveValue | src/pages/recruiter/CompanyProfile.tsx:93-95 | every equal value goes and the rest keep their order; the awards are untouched |
| CompanyProfile.Page.AddAward | src/pages/recruiter/CompanyProfile.tsx:97-102 | the same contract as AddValue, on the awards; the values are untouched |
| CompanyProfile.Page.RemoveAward | src/pages/recruiter/CompanyProfile.tsx:104-106 | the same contract as RemoveValue, on the awards; the values are untouched |
| Profile.Extracted | src/pages/applicant/Profile.tsx:71-99 | extraction appends GraphQL, Redux, Jest and Webpack to the skills, puts the new job first, and puts the certificate after the old education; every other field is kept |
| Profile.ExtractedMayDuplicate | src/pages/applicant/Profile.tsx:73-79 | extraction has no duplicate check: an extracted skill that was already listed ends up listed twice |
| Profile.WithSkill | src/pages/applicant/Profile.tsx:116-124 | the prompt's answer is appended exactly when it is a non-empty string that is not listed (an exact match, with no trim); a duplicate-free list stays duplicate-free |
| Profile.AddThenRemoveSkill | src/pages/applicant/Profile.tsx:116-131 | removing a skill just added restores the list |
| Profile.SkillAddedDuringUploadIsLost | src/pages/applicant/Profile.tsx:66-99 | a skill added while the resume is being processed is absent once extraction finishes |
| Profile.Page.constructor | src/pages/applicant/Profile.tsx:17-55 | progress 65, no upload running, and the mock profile |
| Profile.Page.SetField | src/pages/applicant/Profile.tsx:206-254 | an input box sets its own profile field and nothing else |
| Profile.Page.AddSkill | src/pages/applicant/Profile.tsx:116-124 | the skills become WithSkill of the old ones; every other field is kept |
| Profile.Page.RemoveSkill | src/pages/applicant/Profile.tsx:126-131 | every equal skill goes; every other field is kept; a duplicate-free list stays duplicate-free |
| Profile.Page.StartUpload | src/pages/applicant/Profile.tsx:57-58 | while no upload is running, uploading starts and the pending callback captures the current profile |
| Profile.Page.UploadTimerFires | src/pages/applicant/Profile.tsx:61-63 | uploading ends and auto-filling starts |
| Profile.Page.AutoFillTimerFires | src/pages/applicant/Profile.tsx:66-99 | auto-filling ends, progress becomes 85, and the profile becomes the extraction of the captured profile |
| JobListings.MatchesSearch | src/pages/applicant/JobListings.tsx:64-67 | the search test, specified by `FilteredJobsMembership` and `NoFilterShowsAll`: the term occurs, ignoring case, in the title, the company or some skill |
| JobListings.MatchesSelect | src/pages/applicant/JobListings.tsx:69-70 | a select passes a job when it is "all" or a case-sensitive substring of the field; specified by `FilteredJobsMembership`, `NoFilterShowsAll` and the two option lemmas |
| JobListings.FilteredJobs | src/pages/applicant/JobListings.tsx:63-73 | an order-preserving subsequence holding exactly the jobs that match the search and both selects, each as often as in the input |
| JobListings.FilteredJobsMembership | src/pages/applicant/JobListings.tsx:63-73 | a job is listed exactly when it is in the input and shown |
| JobListings.NoFilterShowsAll | src/pages/applicant/JobListings.tsx:64-72 | an empty search with both selects at "all" lists every job in order |
| JobListings.LocationOptionsSelectJobs | src/pages/applicant/JobListings.tsx:19-60 | every location the select offers (lines 115-119) lists at least one of the page's jobs; "Remote" lists both the remote job and "San Francisco, CA (Remote)" |
| JobListings.JobTypeOptionsSelectJobs | src/pages/applicant/JobListings.tsx:19-60 | Full-time, Part-time and Contract (lines 102-106) each list at least one of the page's jobs; no job is an Internship, so that option lists nothing |
| JobListings.Page.constructor | src/pages/applicant/JobListings.tsx:14-16 | an empty search and both selects at "all" |
| JobListings.Page.Reset | src/pages/applicant/JobListings.tsx:160-164 | Reset Filters sets the search to "" and both selects to "all" |
| RecommendedCandidates.MatchesSearch | src/pages/recruiter/RecommendedCandidates.tsx:95-98 | the search test, specified by `FilteredCandidatesMembership` and `NoFilterShowsAll`: the term occurs, ignoring case, in the name, the title or some top skill |
| RecommendedCandidates.MatchesJob | src/pages/recruiter/RecommendedCandidates.tsx:100 | the job filter passes a candidate when it is "all" or exactly the candidate's job; specified by `FilteredCandidatesMembership` and `NoFilterShowsAll` |
| RecommendedCandidates.FilteredCandidates | src/pages/recruiter/RecommendedCandidates.tsx:94-103 | an order-preserving subsequence holding exactly the candidates that match the search (name, title or some top skill, ignoring case) and the job filter ("all" or an exact match) |
| RecommendedCandidates.FilteredCandidatesMembership | src/pages/recruiter/RecommendedCandidates.tsx:94-103 | a candidate is listed exactly when it is in the input and shown |
| RecommendedCandidates.NoFilterShowsAll | src/pages/recruiter/RecommendedCandidates.tsx:95-100 | an empty search with the filter at "all" lists every candidate |
| RecommendedCandidates.Page.constructor | src/pages/recruiter/RecommendedCandidates.tsx:17-19 | an empty search, the filter "all", and nobody invited |
| RecommendedCandidates.Page.SendInvitation | src/pages/recruiter/RecommendedCandidates.tsx:84-91 | adds exactly this id to the invited set, which makes the call idempotent; disables the id's invite button and leaves every other id's button as it was |
| RecommendedCandidates.Page.Reset | src/pages/recruiter/RecommendedCandidates.tsx:238-241 | the search becomes "" and the filter "all" |
| RecruiterNotifications.SetStatus | src/pages/recruiter/Notifications.tsx:84-88 | entries with the id get the status, and every other entry and the order stay as they were |
| RecruiterNotifications.SetStatusIdempotent | src/pages/recruiter/Notifications.tsx:83-89 | setting a status twice is setting it once, and no id changes |
| RecruiterNotifications.OnTab | src/pages/recruiter/Notifications.tsx:92-101 | the tab test, specified by `FilteredNotifications` and `MarkedReadLeavesUrgent`: interviews by type, applications by type, urgent by status, all on any other tab |
| RecruiterNotifications.FilteredNotifications | src/pages/recruiter/Notifications.tsx:91-102 | an order-preserving subsequence of exactly the entries on the tab: interviews, applications, urgent (needs_reschedule or new), and everything on any other tab |
| RecruiterNotifications.MarkedReadLeavesUrgent | src/pages/recruiter/Notifications.tsx:83-98 | a notification marked read is off the urgent tab |
| RecruiterNotifications.StatusBadge | src/pages/recruiter/Notifications.tsx:118-130 | `getStatusBadge`, specified by `StatusBadgeTable`: the table's badge, the "new" badge for an unknown status |
| RecruiterNotifications.StatusBadgeTable | src/pages/recruiter/Notifications.tsx:118-130 | an unknown status gets the "new" badge, and the six known statuses each get a badge of their own |
| RecruiterNotifications.RescheduleOffered | src/pages/recruiter/Notifications.tsx:169 | the Reschedule panel's guard: a declined interview that needs rescheduling; specified by `RescheduledNotOffered` |
| RecruiterNotifications.MarkReadOffered | src/pages/recruiter/Notifications.tsx:217 | the Mark as Read guard: any status other than "read"; specified by `RescheduledNotOffered` |
| RecruiterNotifications.RescheduledNotOffered | src/pages/recruiter/Notifications.tsx:169-217 | a rescheduled notification is no longer offered rescheduling, and a notification marked read is no longer offered Mark as Read |
| RecruiterNotifications.Page.constructor | src/pages/recruiter/Notifications.tsx:61-64 | the given notifications, tab "all", the scheduler closed, nothing selected |
| RecruiterNotifications.Page.HandleReschedule | src/pages/recruiter/Notifications.tsx:66-69 | selects the notification and opens the scheduler, which is then shown |
| RecruiterNotifications.Page.HandleScheduleInterview | src/pages/recruiter/Notifications.tsx:71-81 | with a selection, that notification becomes "rescheduled" and the selection is cleared; with none, nothing changes |
| RecruiterNotifications.Page.CloseScheduler | src/pages/recruiter/Notifications.tsx:237-240 | closes the scheduler and clears the selection |
| RecruiterNotifications.Page.HandleMarkAsRead | src/pages/recruiter/Notifications.tsx:83-89 | the entries with the id become "read" |
| RecruiterNotifications.Page.SetActiveTab | src/pages/recruiter/Notifications.tsx:62 | the tab list sets the tab |
| ApplicantNotifications.Accept | src/pages/applicant/Notifications.tsx:63-70 | entries with the id get status "accepted" and the chosen date; every other entry stays as it was |
| ApplicantNotifications.Decline | src/pages/applicant/Notifications.tsx:72-79 | entries with the id get status "declined"; every other entry stays as it was |
| ApplicantNotifications.ResponseOffered | src/pages/applicant/Notifications.tsx:182 | the response panel's guard: an interview request awaiting a response; specified by `AcceptChoices` and `AnsweredNotOffered` |
| ApplicantNotifications.AcceptChoices | src/pages/applicant/Notifications.tsx:182-198 | the proposed dates are offered exactly for an interview request awaiting a response |
| ApplicantNotifications.AnsweredNotOffered | src/pages/applicant/Notifications.tsx:182 | after accepting or declining, a notification is no longer offered either answer |
| ApplicantNotifications.OnTab | src/pages/applicant/Notifications.tsx:82-89 | the tab test, specified by `FilteredNotifications` and `AnswerKeepsTabs`: interviews by type, applications by type, all on any other tab |
| ApplicantNotifications.FilteredNotifications | src/pages/applicant/Notifications.tsx:81-90 | an order-preserving subsequence of exactly the entries on the tab, with every entry on any tab but interviews or applications |
| ApplicantNotifications.AnswerKeepsTabs | src/pages/applicant/Notifications.tsx:63-90 | answering moves no notification between tabs |
| ApplicantNotifications.StatusBadge | src/pages/applicant/Notifications.tsx:106-118 | `getStatusBadge`, specified by `StatusBadgeTable`: the table's badge, the "pending" badge for an unknown status |
| ApplicantNotifications.StatusBadgeTable | src/pages/applicant/Notifications.tsx:106-118 | an unknown status gets the "pending" badge, and the six known statuses each get a badge of their own |
| ApplicantNotifications.Page.constructor | src/pages/applicant/Notifications.tsx:60-61 | the given notifications, tab "all" |
| ApplicantNotifications.Page.HandleAcceptInterview | src/pages/applicant/Notifications.tsx:63-70 | the list becomes Accept of the old list |
| ApplicantNotifications.Page.HandleDeclineInterview | src/pages/applicant/Notifications.tsx:72-79 | the list becomes Decline of the old list |
| ApplicantNotifications.Page.SetActiveTab | src/pages/applicant/Notifications.tsx:61 | the tab list sets the tab |
| SkillAssessment.OverallScore | src/pages/applicant/SkillAssessment.tsx:33 | no results give NaN (None); otherwise the mean rounded half up, the k with 2n·k ≤ 2·sum + n < 2n·k + 2n |
| SkillAssessment.OverallScoreUnique | src/pages/applicant/SkillAssessment.tsx:33 | that rounding property pins the score down: only one integer satisfies it |
| SkillAssessment.PageOverallScore | src/pages/applicant/SkillAssessment.tsx:26-33 | the page's four results sum to 293 and give an overall score of 73 |
| SkillAssessment.FindResult | src/pages/applicant/SkillAssessment.tsx:47 | `find` returns the first result in the list with the named skill (no earlier entry has that name), or None when no result has that name |
| SkillAssessment.CourseDialogDue | src/pages/applicant/SkillAssessment.tsx:46-50 | the course dialog's condition: the first React result exists and scored below 50; specified by `CourseDialogNeverDue` and `Assessment.HandleNextSkill` |
| SkillAssessment.CourseDialogNeverDue | src/pages/applicant/SkillAssessment.tsx:26-31 | with the page's results (React scored 78) the course dialog never opens |
| SkillAssessment.BandOf | src/pages/applicant/SkillAssessment.tsx:54-66 | the four score bands, at 80, 60 and 40 and up |
| SkillAssessment.ScoreColor | src/pages/applicant/SkillAssessment.tsx:54-59 | `getScoreColor`, specified by `ColoursFollowBands`: one colour per band of `BandOf` |
| SkillAssessment.ProgressColor | src/pages/applicant/SkillAssessment.tsx:61-66 | `getProgressColor`, specified by `ColoursFollowBands`: one colour per band of `BandOf` |
| SkillAssessment.PerformanceText | src/pages/applicant/SkillAssessment.tsx:156-158 | the verdict line, specified by `PerformanceFollowsBands` |
| SkillAssessment.ColoursFollowBands | src/pages/applicant/SkillAssessment.tsx:54-66 | `getScoreColor` and `getProgressColor` each give two scores the same colour exactly when they share a band |
| SkillAssessment.PerformanceFollowsBands | src/pages/applicant/SkillAssessment.tsx:156-158 | the verdict text agrees with the two top bands and merges the two lower ones |
| SkillAssessment.Assessment.constructor | src/pages/applicant/SkillAssessment.tsx:12-16 | not started, at skill 0, no results, no dialog, not complete |
| SkillAssessment.Assessment.HandleStartAssessment | src/pages/applicant/SkillAssessment.tsx:35-37 | the assessment is started |
| SkillAssessment.Assessment.HandleNextSkill | src/pages/applicant/SkillAssessment.tsx:39-52 | before the last skill, moves to the next one; at the last, keeps the index, shows the results, marks the evaluation complete, and opens the course dialog when it is due; the index stays within the skills |
| SkillAssessment.Assessment.CloseCourseDialog | src/pages/applicant/SkillAssessment.tsx:225 | closes the course dialog |
| VideoInterview.ButtonFor | src/pages/applicant/VideoInterview.tsx:215-223 | "Complete Interview" is offered exactly at the last question |
| VideoInterview.NextIndex | src/pages/applicant/VideoInterview.tsx:48-52 | moves one question on before the last and stays put at the last, so the index stays within the questions |
| VideoInterview.NextIndexIterated | src/pages/applicant/VideoInterview.tsx:48-52 | k presses from the first question reach question min(k, 4) |
| VideoInterview.Interview.constructor | src/pages/applicant/VideoInterview.tsx:10-13 | video and audio on, not started, at question 0 |
| VideoInterview.Interview.ToggleVideo | src/pages/applicant/VideoInterview.tsx:36-38 | flips the video flag alone |
| VideoInterview.Interview.ToggleAudio | src/pages/applicant/VideoInterview.tsx:40-42 | flips the audio flag alone |
| VideoInterview.Interview.StartInterview | src/pages/applicant/VideoInterview.tsx:44-46 | the interview is started |
| VideoInterview.Interview.NextQuestion | src/pages/applicant/VideoInterview.tsx:48-52 | the index becomes NextIndex of the old one |
| VideoInterview.Interview.EndInterview | src/pages/applicant/VideoInterview.tsx:54-56 | the interview is stopped and back at question 0 |
| Decision.Step | src/pages/recruiter/ApplicantReview.tsx:73-94 | accept always gives accepted, reject always gives rejected, scheduling keeps the status, and undo gives pending |
| Decision.StepIdempotent | src/components/recruiter/ApplicantCard.tsx:37-51 | pressing the same button twice is the same as pressing it once |
| ApplicantReview.Offered | src/pages/recruiter/ApplicantReview.tsx:126-237 | Schedule Interview is always offered; accept and reject are offered exactly while pending; undo exactly when rejected |
| ApplicantReview.Badge | src/pages/recruiter/ApplicantReview.tsx:117-121 | the decision badge, specified by `BadgeDistinct` |
| ApplicantReview.BadgeDistinct | src/pages/recruiter/ApplicantReview.tsx:117-121 | Under Review, Accepted and Rejected badges: each decision has its own |
| ApplicantReview.OfferedTransitions | src/pages/recruiter/ApplicantReview.tsx:213-237 | through the offered buttons an accepted applicant stays accepted, a rejected one stays rejected or returns to pending, and accepting or rejecting a pending one decides it |
| ApplicantReview.Review.constructor | src/pages/recruiter/ApplicantReview.tsx:71 | the decision starts pending |
| ApplicantReview.Review.HandleAccept | src/pages/recruiter/ApplicantReview.tsx:73-79 | the status becomes Step(old, Accept) |
| ApplicantReview.Review.HandleReject | src/pages/recruiter/ApplicantReview.tsx:81-87 | the status becomes Step(old, Reject) |
| ApplicantReview.Review.UndoRejection | src/pages/recruiter/ApplicantReview.tsx:233 | the status becomes Step(old, UndoRejection) |
| ApplicantCard.Offered | src/components/recruiter/ApplicantCard.tsx:150-173 | accept and reject are offered exactly while pending, Schedule exactly when accepted, undo never; a rejected card offers nothing |
| ApplicantCard.ViewProfileWithActions | src/components/recruiter/ApplicantCard.tsx:150-173 | the "View Profile" link appears exactly in the footers that offer some action, pending and accepted |
| ApplicantCard.DecisionIsFinal | src/components/recruiter/ApplicantCard.tsx:150-173 | no offered button changes a decided status, and every offered button decides a pending one |
| ApplicantCard.GradeColor | src/components/recruiter/ApplicantCard.tsx:67-80 | `getGradeColor`: a listed grade gets its listed colour and any other grade gray |
| ApplicantCard.GrayIffUnlisted | src/components/recruiter/ApplicantCard.tsx:67-80 | the listed grades get their colours, and the colour is gray exactly for a grade outside the nine |
| ApplicantCard.Card.constructor | src/components/recruiter/ApplicantCard.tsx:34 | the decision starts pending |
| ApplicantCard.Card.HandleAccept | src/components/recruiter/ApplicantCard.tsx:37-43 | the status becomes Step(old, Accept) |
| ApplicantCard.Card.HandleReject | src/components/recruiter/ApplicantCard.tsx:45-51 | the status becomes Step(old, Reject) |
| MatchColors.MatchColor | src/components/applicant/JobCard.tsx:39-44 | `getMatchColor`, the same four bands in both cards, specified by `MatchColorBands` |
| MatchColors.MatchBand | src/components/applicant/JobCard.tsx:39-44 | the band number of a score: 3 (90 and up) down to 0 (below 60) |
| MatchColors.MatchColorBands | src/components/recruiter/ApplicantCard.tsx:60-65 | two scores share a `getMatchColor` colour exactly when they share a band, and the band never falls as the score rises |
| SkillCard.Rating | src/components/applicant/SkillCard.tsx:27 | the drawn rating lies in 65..95 and is 65 plus the floor of 31 times the random fraction |
| SkillCard.RatingReachesAll | src/components/applicant/SkillCard.tsx:27 | every rating from 65 to 95 can be drawn |
| SkillCard.RatingText | src/components/applicant/SkillCard.tsx:39-44 | `getRatingText`, specified by `TextAndColorAgree` |
| SkillCard.RatingColor | src/components/applicant/SkillCard.tsx:46-51 | `getRatingColor`, specified by `TextAndColorAgree` |
| SkillCard.TextAndColorAgree | src/components/applicant/SkillCard.tsx:39-51 | `getRatingText` and `getRatingColor` name the same band: two ratings share a text exactly when they share a colour |
| SkillCard.Card.constructor | src/components/applicant/SkillCard.tsx:16-18 | not evaluating, no rating, not evaluated |
| SkillCard.Card.HandleEvaluate | src/components/applicant/SkillCard.tsx:21-22 | from an enabled button, the evaluation starts |
| SkillCard.Card.EvaluationTimerFires | src/components/applicant/SkillCard.tsx:25-30 | the rating is drawn, evaluating ends, the card is evaluated, the rating panel shows, and the evaluate button is gone |
| JobCard.ShownSkills | src/components/applicant/JobCard.tsx:81 | the first min(3, n) skills, in order |
| JobCard.MoreBadge | src/components/applicant/JobCard.tsx:84-86 | a "+N more" badge exists exactly when there are more than three skills |
| JobCard.MoreBadgeCountsHidden | src/components/applicant/JobCard.tsx:84-86 | the badge reads "+N more", where N is the number of skills not shown |
| JobCard.MatchSlotAsWritten | src/components/applicant/JobCard.tsx:51-55 | the match slot as the code renders it, specified by `ZeroScoreRendersText` and `MatchSlotAgrees` |
| JobCard.ZeroScoreRendersText | src/components/applicant/JobCard.tsx:51-55 | with the guard as written, a match score of 0 renders the bare text "0" |
| JobCard.MatchSlot | src/components/applicant/JobCard.tsx:51-55 | the guard as intended: never bare text, and a badge in the score's colour exactly for a given, non-zero score |
| JobCard.MatchSlotAgrees | src/components/applicant/JobCard.tsx:51-55 | the intended guard differs from the written one exactly at a score of 0 |
| JobCard.CardViewAsWritten | src/components/applicant/JobCard.tsx:51-86 | the card as the code renders it, specified by `CardViewAsWrittenShape` |
| JobCard.CardViewAsWrittenShape | src/components/applicant/JobCard.tsx:51-86 | the card as written shows a bare number exactly for a score of 0, and at any other score it is the card with the corrected guard |
| JobCard.CardView | src/components/applicant/JobCard.tsx:51-86 | the card with the corrected guard, specified by `CardViewShape` |
| JobCard.CardViewShape | src/components/applicant/JobCard.tsx:51-86 | the card with the corrected guard shows no bare number and at most three skill badges, and it shows all the skills unless the "+N more" badge accounts for the rest |

## Left out

- Rendering, styling, icons and toasts are not modelled. They are output only. The class strings modelled are those the handlers' lookups return, and the distinctness lemmas are about those.
- Routing and `navigate` calls are not modelled. The "View Profile" links are modelled only as shown or hidden (`ViewProfileShown`), not as navigation.
- Timers (`setTimeout`, `await`) become separate methods. The handler starts the work and a method such as `UploadTimerFires` runs the callback. Interleavings beyond the component's own fields are not modelled.
- `Math.random()` becomes the fraction `num / den` with `num < den`. Floating-point rounding of `Math.random() * 31` is not modelled.
- `Date.now()` ids are method parameters. So are the answer to `prompt()` in Profile and today's date in the scheduler.
- Dates are natural day numbers. The calendar's disabling of past days is not modelled, and neither is `getDaysAgo` in the job card.
- Camera, microphone and track handling in the video interview are browser APIs and are left out.
- The resume file upload and the extractor's file reading are left out. They are browser APIs; the extracted data is the constant the page writes.
- CompanyProfile's `onSubmit` and its `isLoading` flag are left out. The handler only waits and shows a toast.
- The zod schemas become plain length predicates `JobFormValid` and `CompanyProfileValid`. The form library's handling of invalid submissions is modelled only as JobPost's `Invalid` outcome.
- Strings are sequences of characters, whereas JavaScript counts UTF-16 code units. Lengths can differ above U+FFFF.
- `toLowerCase` is modelled for ASCII letters only.
- `parseInt` is modelled for decimal input without the `0x` prefix. Only decimal strings reach it here.
- Object property lookups in `getGradeColor` and both `getStatusBadge` functions are modelled as finite maps. A key such as "constructor" would find an inherited property in JavaScript and is not modelled.
- Optional TypeScript fields (`interviewer?`, `venue?`, `duration?`, `interviewType?`) are strings or enums. An unset field is modelled as "" (or the missing type for `getTypeColor`), which matches how every guard here treats it.
- The InterviewScheduler's `onSchedule` and `onClose` callbacks are returned as an event list. The recruiter Notifications page's reaction to them is in `HandleScheduleInterview` and `CloseScheduler`.
- The DocumentAIExtractor component, the chatbot, the dashboards, the posts table, login and registration are not part of this model.
- InterviewRounds.Board.HandleDrop: it does not restate the card count in its contract. `DropPreservesTotal` proves that about the `Drop` the method's contract names.
- InterviewScheduler.Scheduler.HandleSchedule: the record's duration is stated as `ParseInt` of the selected text. That this is one of 30, 45, 60 or 90 is proved separately by `DurationParses`.
- The resume callback in Profile closes over the profile of the render that started the upload. The model keeps that profile in the field `captured` and does not model a second copy of the component. As `SkillAddedDuringUploadIsLost` states, a skill added while extraction runs is overwritten.
- Some inputs only store what is typed or picked. They are direct assignments to the class's fields, not methods:
  - the text fields of AssessmentConfiguration, CompanyProfile and RecommendedCandidates;
  - the JobListings search box and its `jobType` and `location` selects (JobListings.tsx:97, 110);
  - RecommendedCandidates' `jobFilter` select (RecommendedCandidates.tsx:129);
  - the InterviewScheduler's `meetingLink` box (InterviewScheduler.tsx:132);
  - JobPost's form fields (`form`) and its `newSkillLevel` select (JobPost.tsx:252).

## Findings

| source | as written | input that shows it | evidently intended | confidence | as-written member | corrected member |
|---|---|---|---|---|---|---|
| src/components/applicant/JobCard.tsx:51 | `{matchScore && <Badge…/>}` evaluates to the number 0 when the score is 0, and React renders that number as the text "0" next to the title | `matchScore = 0` | a score of 0, like an absent one, shows no badge and no text | not executed | JobCard.ZeroScoreRendersText | JobCard.MatchSlot |
