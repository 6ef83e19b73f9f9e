# Career assessment core, modelled in Dafny

This project models the logic of a career-assessment web application. A user
picks one of six career paths. They then answer either a fixed five-question
assessment or a staged "AI" assessment. The application turns the answers
into skill gaps, a score and a readiness level. From these it builds a
learning path, a results page, a comparison table of careers, a progress page
with weekly buckets, skill progress and achievements, and a dashboard over the
stored history. Around this sit the checks that decide whether the Gemini
and Supabase back ends are configured, and the mock answers used when they
are not.

Layout, one module per source file:

- `base.dfy`: `Option`, order-preserving `Filter`, `Take`, `Slice` and `Drop`, with their lemmas.
- `text.dfy`: decimal printing, `parseInt`, and `replace` of one character.
- `types.dfy`: the shared records. These are `Question`, `SkillGap`, `AssessmentResult`, `Career`, history rows and companies.
- `careers.dfy`: the skill lists of the six catalogue careers.
- `questions.dfy`: the question bank.
- `assessment.dfy`: the fixed-question session.
- `aiassessment.dfy`: the AI-assessment session.
- `app.dfy`: the screen machine.
- `gemini.dfy`: the AI provider's fallbacks and parsers.
- `learning_plan.dfy`: the learning-plan helpers.
- `skill_gap_analysis.dfy`, `learning_path.dfy`, `results.dfy` and `ai_results.dfy`: the pages that read skill gaps.
- `career_comparison.dfy`, `progress.dfy`, `dashboard.dfy` and `market.dfy`: the other pages.
- `supabase.dfy`: the backend configuration and the stand-in client.

The inputs the code reads from outside are parameters:

- the environment values;
- the clock (`now` in milliseconds, plus a time-zone offset);
- the values `Math.random()` draws;
- the reply of the model service, after `JSON.parse`;
- the stored history rows;
- the resource catalogue.

State that a component updates step by step is a class:

- the two assessment sessions;
- the screen machine;
- the completed phases of the learning path;
- the comparison selection;
- the company dialog.

Everything else is a function, with lemmas beside it.

## Model

| member | source | states |
|---|---|---|
| Careers.CareerPaths | src/data/careers.ts:3-63 | There are six careers. Each one's skill list is the one stored under its id, which the question bank is checked against. |
| QuestionBank.GenerateQuestions | src/data/questions.ts:3-211 | An unknown career id gives the empty list. A known id gives five well-formed questions with ids `<prefix>-1..5`, each assessing one of that career's skills. Multiple choice has exactly four options, a scale question has none, and there is no text question. |
| QuestionBank.NumberedIdsDistinct | src/data/questions.ts:7-35 | Ids numbered 1..9 under one prefix are pairwise different, so question ids are unique. |
| QuestionBank.SoftwareEngineerQuestions | src/data/questions.ts:5-38 | The software-engineer entry has the bank's shape with prefix `se`. |
| QuestionBank.DataScientistQuestions | src/data/questions.ts:39-72 | The data-scientist entry has the bank's shape with prefix `ds`. |
| QuestionBank.ProductManagerQuestions | src/data/questions.ts:73-106 | The product-manager entry has the bank's shape with prefix `pm`. |
| QuestionBank.UxDesignerQuestions | src/data/questions.ts:107-140 | The UX-designer entry has the bank's shape with prefix `ux`. |
| QuestionBank.DigitalMarketerQuestions | src/data/questions.ts:141-174 | The digital-marketer entry has the bank's shape with prefix `dm`. |
| QuestionBank.CybersecurityAnalystQuestions | src/data/questions.ts:175-208 | The cybersecurity entry has the bank's shape with prefix `cs`. |
| FixedAssessment.Progress | src/components/Assessment.tsx:38 | The progress bar lies in (0, 100]. It is 100 exactly on the last question. |
| FixedAssessment.Session.constructor | src/components/Assessment.tsx:13-15 | The questions come from the bank for the career id. The session starts on question 0 with no answers. |
| FixedAssessment.Session.HandleResponse | src/components/Assessment.tsx:17-22 | The answer is stored under the question id. Every other answer is kept, and no key is removed. |
| FixedAssessment.Session.NextQuestion | src/components/Assessment.tsx:24-30 | Below the last index, the cursor advances and nothing completes. On the last question, the cursor stays and the whole answer map is handed over. |
| FixedAssessment.Session.PrevQuestion | src/components/Assessment.tsx:32-36 | The cursor moves back one step unless it is at 0. The cursor always stays in range. |
| FixedAssessment.Session.CurrentQuestion | src/components/Assessment.tsx:39-42 | There is no question on screen exactly when the list is empty, and then nothing renders. |
| FixedAssessment.Session.CanGoNext | src/components/Assessment.tsx:40 | Next is enabled exactly when the current question already has an answer. |
| FixedAssessment.Session.CanGoPrev | src/components/Assessment.tsx:153 | Previous is disabled exactly at index 0. |
| AIAssessment.ElementText | src/components/AIAssessment.tsx:38 | A template literal prints a missing element as `undefined`. |
| AIAssessment.MockPrompts | src/components/AIAssessment.tsx:37-43 | There are five prompts. The second falls back to 'relevant technologies' when the career has fewer than two skills or an empty second skill, and names the second skill otherwise. |
| AIAssessment.MockGap | src/components/AIAssessment.tsx:61-67 | The current level is in [2,4], the required level is 4 and the gap is in [1,2]. The priority is 'high' iff the draw exceeds 0.5, and is never 'low'. |
| AIAssessment.CompleteAssessment | src/components/AIAssessment.tsx:59-79 | There is one gap per career skill, in order. The score is in [60,89], yet the readiness is always 'Medium'. There are three recommendations, and the first two name skills 0 and 1. |
| AIAssessment.KeyCountCoversIndices | src/components/AIAssessment.tsx:182 | Keys drawn from the prompt indices number at most n. They number n exactly when every index is answered. |
| AIAssessment.CompletionMeansAllAnswered | src/components/AIAssessment.tsx:182 | When answers are stored only under prompt indices, completion enabled means every prompt has a key. A key counts even when its answer text is empty. |
| AIAssessment.AISession.constructor | src/components/AIAssessment.tsx:14-17 | The session starts at step 0, not generating, with no prompts and no answers. |
| AIAssessment.AISession.GenerateQuestions | src/components/AIAssessment.tsx:28-47 | The stage loop ends on the last stage. The prompts are then the five mock prompts, and generation is over. |
| AIAssessment.AISession.HandleResponse | src/components/AIAssessment.tsx:52-57 | Only the key for that prompt index changes. Every other answer is kept. |
| AIAssessment.AISession.CanComplete | src/components/AIAssessment.tsx:182 | Completion is enabled iff the number of answer keys reaches the number of prompts. |
| AIAssessment.AISession.Complete | src/components/AIAssessment.tsx:59-82 | It hands over the mock result together with the answer map unchanged. |
| AppFlow.App.constructor | src/App.tsx:11-13 | The app starts on career selection, with no career and no answers. |
| AppFlow.App.HandleCareerSelection | src/App.tsx:15-18 | The career is stored and the screen becomes the assessment. The answers are kept. |
| AppFlow.App.HandleAssessmentComplete | src/App.tsx:20-23 | The answers are stored and the screen becomes the results. The career is unchanged. |
| AppFlow.App.HandleStartOver | src/App.tsx:25-29 | The career and the answers are cleared, and the app returns to career selection. |
| AppFlow.App.HandleBackToCareerSelection | src/App.tsx:31-33 | Only the screen changes. The career and the answers are kept. |
| AppFlow.App.ShowsAssessment | src/App.tsx:47 | The assessment renders only with a selected career. In a valid state it renders exactly on its screen. |
| AppFlow.App.ShowsResults | src/App.tsx:55 | The results render only with a selected career. In a valid state they render exactly on their screen. |
| Gemini.IsGeminiConfigured | src/lib/gemini.ts:6-9 | A key is configured only if it is present, is neither placeholder and is longer than 20 characters. |
| Gemini.ConfiguredByLength | src/lib/gemini.ts:6-9 | Apart from the long placeholder, length alone decides, because the short placeholder is too short anyway. |
| Gemini.OrElse | src/lib/gemini.ts:180-185 | `s \|\| fallback` keeps a truthy string and otherwise gives the fallback. |
| Gemini.ElementOr | src/lib/gemini.ts:183 | `xs[i] \|\| fallback` gives the fallback for a missing or empty element. |
| Gemini.MockQuestions | src/lib/gemini.ts:210-241 | There are four templates, each with every field filled. Only the multiple-choice one carries options, and it has exactly four. |
| Gemini.GetMockQuestion | src/lib/gemini.ts:209-243 | The question is one of the templates, fully filled, with options iff it is multiple choice. |
| Gemini.ParseQuestionResponse | src/lib/gemini.ts:176-191 | A failed parse gives the mock question. Otherwise each truthy field is kept and each missing one gets its default: type 'text', skill `focusAreas[0]` or 'General', difficulty 'intermediate'. The type is not checked against the allowed values. |
| Gemini.GenerateAdaptiveQuestion | src/lib/gemini.ts:61-78 | It never yields null. Unconfigured or after a failed call it gives the mock question; otherwise it gives the parsed reply. |
| Gemini.ListOr | src/lib/gemini.ts:198-200 | A missing list becomes the empty list. |
| Gemini.MockAnalysis | src/lib/gemini.ts:245-273 | The answers are ignored. The single gap has gap = target − current = 1 and priority 'high'. The confidence is 78. |
| Gemini.ParseAnalysisResponse | src/lib/gemini.ts:193-207 | A failed parse gives the mock analysis. Any falsy confidence, including 0, becomes 75, and missing lists become empty. |
| Gemini.AnalyzeUserResponses | src/lib/gemini.ts:80-100 | It never yields null. Unconfigured or after a failed call it gives the mock analysis; otherwise it gives the parsed reply. |
| LearningPlan.EstimateTimeToImprove | src/services/learningPlanService.ts:219-229 | A gap of 0 is 'Already proficient' and gaps 1..5 use the table. Anything else gives '6+ months'. |
| LearningPlan.EstimateCost | src/services/learningPlanService.ts:231-239 | The four known types have their cost band. Any other type gives '$50-150'. |
| LearningPlan.GenerateStudySchedule | src/services/learningPlanService.ts:241-258 | It gives '2-3 hours' iff there are more than five skills. There are always four weekly goals and four monthly milestones. |
| LearningPlan.GetJobOpportunities | src/services/learningPlanService.ts:260-270 | The six known titles get four roles each. Anything else gets the three generic roles. |
| LearningPlan.GenerateTimeline | src/services/learningPlanService.ts:272-296 | It returns the same timeline for every input, since the counts it computes are unused. |
| LearningPlan.GenerateDefaultLearningPath | src/services/learningPlanService.ts:298-349 | There are three phases, over skills [0,3), [3,6) and [6,..). |
| LearningPlan.DefaultPathCoversSkills | src/services/learningPlanService.ts:298-349 | The three phases' skills, concatenated, are exactly the career's skills. |
| LearningPlan.PotentialWord | src/services/learningPlanService.ts:352 | The word is 'strong' iff the score is at least 70. |
| LearningPlan.ReadinessClause | src/services/learningPlanService.ts:352 | The clause is 'well-prepared' iff the readiness is 'High'. |
| LearningPlan.GenerateDefaultInsights | src/services/learningPlanService.ts:351-353 | The text opens with the fixed phrase and the career title. |
| LearningPlan.InsightsDependOnThreshold | src/services/learningPlanService.ts:351-353 | Two results with the same readiness, on the same side of 70, give the same insight. |
| LearningPlan.InsightsRevealThreshold | src/services/learningPlanService.ts:351-353 | Conversely, two results with the same insight text for a career lie on the same side of 70. |
| LearningPlan.InsightsRevealReadiness | src/services/learningPlanService.ts:351-353 | Conversely, two results with the same insight text for a career have the same readiness level. |
| LearningPlan.AnalyseSkills | src/services/learningPlanService.ts:123-138 | There is one entry per gap, in order, with target = required level. The priority skills are the 'high' gaps and the strong skills are the closed gaps. |
| LearningPlan.SkillAnalysisLists | src/services/learningPlanService.ts:132-137 | A name is a priority skill iff some 'high' gap has it. A name is a strong skill iff some closed gap has it. |
| SkillGapAnalysis.Critical | src/components/SkillGapAnalysis.tsx:14 | These are exactly the 'high' gaps, in input order, each copy kept. |
| SkillGapAnalysis.Moderate | src/components/SkillGapAnalysis.tsx:15 | These are exactly the 'medium' gaps, in input order, each copy kept. |
| SkillGapAnalysis.Strong | src/components/SkillGapAnalysis.tsx:16 | These are exactly the 'low' gaps and the closed gaps, in input order, each copy kept. |
| SkillGapAnalysis.CriticalModerateDisjoint | src/components/SkillGapAnalysis.tsx:14-15 | No gap is both critical and moderate. |
| SkillGapAnalysis.StrongOverlapsCritical | src/components/SkillGapAnalysis.tsx:14-16 | A closed 'high' gap is both critical and strong. |
| SkillGapAnalysis.GetEstimatedTime | src/components/SkillGapAnalysis.tsx:25-35 | A gap of 0 is '0 weeks' and gaps 1..5 use the table. Anything else gives '6+ months'. |
| SkillGapAnalysis.TotalMonths | src/components/SkillGapAnalysis.tsx:200 | The months are 2·critical + moderate, at most 2·gaps, and equal to that bound iff every gap is 'high'. |
| LearningPath.ExpectedIds | src/components/LearningPathGenerator.tsx:36-92 | There are two to four distinct phase ids. |
| LearningPath.GapStep | src/components/LearningPathGenerator.tsx:36-64 | A gap phase's skills are the names of the selected gaps. Its resources are the first 3 catalogue entries, in catalogue order, that teach one of those skills. |
| LearningPath.SpecializationStep | src/components/LearningPathGenerator.tsx:68-80 | Its skills are the first three career skills. Its resources are the first 3 catalogue entries that are advanced and share a skill with the career. |
| LearningPath.PortfolioStep | src/components/LearningPathGenerator.tsx:83-92 | Its resources are the first 2 tutorials of the catalogue, in catalogue order. |
| LearningPath.LearningStepIds | src/components/LearningPathGenerator.tsx:29-95 | Foundation comes first iff some gap is 'high'. Development comes next iff some gap is 'medium'. Specialization and portfolio always follow. |
| LearningPath.LearningStepsWellBuilt | src/components/LearningPathGenerator.tsx:29-95 | Every phase holds what its kind prescribes: its skills, its priority ('high', 'medium', 'medium', 'low'), and as resources the first entries of the catalogue that qualify for its kind, up to its limit. |
| LearningPath.GenerateLearningSteps | src/components/LearningPathGenerator.tsx:29-95 | The conditional pushes produce exactly the specified phase list. |
| LearningPath.Toggled | src/components/LearningPathGenerator.tsx:99-107 | Toggling flips the membership of that id and no other. |
| LearningPath.ToggleTwice | src/components/LearningPathGenerator.tsx:99-107 | Toggling twice is the identity. |
| LearningPath.PathProgress.constructor | src/components/LearningPathGenerator.tsx:25 | No phase is completed at first. |
| LearningPath.PathProgress.ToggleStepCompletion | src/components/LearningPathGenerator.tsx:99-107 | The completed set becomes the toggled set, and only phase ids are ever in it. |
| LearningPath.PathProgress.IsActive | src/components/LearningPathGenerator.tsx:171 | Phase 0 is always active. Phase i > 0 is active iff phase i−1 is completed. |
| LearningPath.PathProgress.CompletionPercentage | src/components/LearningPathGenerator.tsx:118 | The completion is within [0, 100], because only phase ids are toggled. When the phase ids are distinct, it is 100 iff every phase is completed. |
| Results.StrongSkills | src/components/Results.tsx:24 | This is the number of positions whose gap is closed. It is 0 iff none is closed, and the total iff all are. |
| Results.ImprovementAreas | src/components/Results.tsx:25 | This is the number of positions whose gap is open. It is 0 iff none is open, and the total iff all are. |
| Results.SkillCountsCover | src/components/Results.tsx:24-25 | The two counts never exceed the gaps. They sum to the total iff no gap is negative. |
| Results.DisplayedReadiness | src/components/Results.tsx:85 | The readiness is 'High' from 80, 'Medium' from 60, and 'Low' below. |
| Results.StoredReadinessIgnored | src/components/Results.tsx:85 | The card reads the score and not the stored level: a mock AI result is shown 'High' while storing 'Medium'. |
| Results.RecommendedResources | src/components/Results.tsx:28-30 | These are the first 6 catalogue entries, in catalogue order, that teach an open gap. Below 6, none is left out. |
| Results.HiringCompanies | src/components/Results.tsx:34 | An unknown career id gives the empty list. |
| Results.MarketSection | src/components/Results.tsx:177 | The section renders iff the career has insights, with its companies or the empty list. |
| AIResults.GapTone | src/components/AIResults.tsx:76-81 | The tone is green iff the gap is closed, yellow for a gap up to 2, and red above. |
| AIResults.BadgeText | src/components/AIResults.tsx:81 | The badge is 'Proficient' iff the gap is closed. Otherwise it reads '<gap> levels to go'. |
| AIResults.BarWidth | src/components/AIResults.tsx:91 | The width is never below 20. For a gap ≥ 0 it is at most 100, and it is 100 iff the gap is 0. |
| AIResults.BarWidthMonotone | src/components/AIResults.tsx:91 | Over gaps ≥ 0, a larger gap never gives a wider bar. |
| AIResults.Row | src/components/AIResults.tsx:74-91 | The badge, the colour and the bar agree: green iff 'Proficient' iff a full bar (gaps ≥ 0). |
| CareerComparison.WithDefaults | src/components/CareerComparison.tsx:15-20 | A catalogue entry is kept with the three extra fields filled in. |
| CareerComparison.AvailableCareers | src/components/CareerComparison.tsx:14-21 | Every catalogue entry except the current career, in order, with defaults. Each copy is kept. |
| CareerComparison.FilterKeepsDistinctIds | src/components/CareerComparison.tsx:29-31 | Removing by id keeps the ids distinct. |
| CareerComparison.Comparison.constructor | src/components/CareerComparison.tsx:13-21 | The selection starts as the current career alone. The offers exclude its id. |
| CareerComparison.Comparison.Add | src/components/CareerComparison.tsx:23-27 | The career is appended only below three entries and when its id is absent. Otherwise nothing changes, so there are at most 3 entries with distinct ids. |
| CareerComparison.Comparison.Remove | src/components/CareerComparison.tsx:29-31 | Every entry with the id is dropped and the rest keep their order. |
| CareerComparison.Comparison.Offers | src/components/CareerComparison.tsx:65 | Below three selections, the offers are the first six available careers. At three, there are none. |
| CareerComparison.GrowthRateValue | src/components/CareerComparison.tsx:33-35 | The value is NaN exactly when no digits follow the first '%' removed. |
| CareerComparison.GrowthRateOfPercent | src/components/CareerComparison.tsx:33-35 | 'N%' reads as N. |
| CareerComparison.MatchSalary | src/components/CareerComparison.tsx:38 | The leftmost '$' followed by a digit matches. There is no match iff there is no such pair. |
| CareerComparison.SalaryValue | src/components/CareerComparison.tsx:37-40 | With no '$' followed by a digit, the value is 0. |
| CareerComparison.MatchWithComma | src/components/CareerComparison.tsx:38 | '$A,B' matches with groups A and B. |
| CareerComparison.MatchWithoutComma | src/components/CareerComparison.tsx:38 | '$A' not followed by a comma matches with group A only. |
| CareerComparison.SalaryWithComma | src/components/CareerComparison.tsx:37-40 | '$A,B…' reads as the digits of A followed by those of B. |
| CareerComparison.SalaryWithoutComma | src/components/CareerComparison.tsx:37-40 | '$A' with no comma reads as A thousands. |
| CareerComparison.SalaryOfCatalogueEntry | src/components/CareerComparison.tsx:37-40 | '$95,000 - $150,000' reads as 95000, the lower bound. |
| CareerComparison.DifficultyScore | src/components/CareerComparison.tsx:42-45 | The score is 1, 2 or 3 for the three levels, and 2 otherwise. |
| CareerComparison.DemandScore | src/components/CareerComparison.tsx:47-50 | The score is 1..4 for the four levels, and 2 otherwise, including for a missing level. |
| CareerComparison.MaxOf | src/components/CareerComparison.tsx:120 | `Math.max` is an upper bound that some entry attains. |
| CareerComparison.Badges | src/components/CareerComparison.tsx:120 | An entry gets the badge iff its value is defined and not below any other. |
| CareerComparison.SomeBadge | src/components/CareerComparison.tsx:120 | A row of defined values awards at least one badge. |
| CareerComparison.SalaryBadges | src/components/CareerComparison.tsx:120 | 'Highest' goes to exactly the maximal salaries, so at least one career gets it. |
| CareerComparison.GrowthBadges | src/components/CareerComparison.tsx:138 | One rate that reads as NaN takes 'Fastest' from everyone. With all rates defined, exactly the maximal rates get it, and someone does. |
| CareerComparison.DemandBadges | src/components/CareerComparison.tsx:176 | Exactly the careers with the maximal demand score get 'Top Demand'. Someone always does, and a 'Very High' career always does. |
| ProgressTracker.RoundDiv | src/components/ProgressTracker.tsx:63 | `Math.round(s/n)` is the nearest integer to s/n. |
| ProgressTracker.AverageScore | src/components/ProgressTracker.tsx:62-64 | The average is 0 for no rows. Otherwise it is the mean rounded to the nearest integer. The dashboard's average, src/components/Dashboard.tsx:52-54, is the same expression. |
| ProgressTracker.TotalScoreBounds | src/components/ProgressTracker.tsx:63 | Scores in [lo,hi] sum to between n·lo and n·hi. |
| ProgressTracker.AverageScoreBounds | src/components/ProgressTracker.tsx:62-64 | The average of scores in [lo,hi] lies in [lo,hi]. |
| ProgressTracker.SkillsImproved | src/components/ProgressTracker.tsx:67 | This counts the rows whose current level reaches the target. It is 0 iff none does, and the total iff all do. |
| ProgressTracker.CompletedResources | src/components/ProgressTracker.tsx:69 | The sum counts a missing list as 0. It is 0 iff every row has none, and it is at least each row's count. |
| ProgressTracker.Days | src/components/ProgressTracker.tsx:75 | This gives the local day of each assessment. |
| ProgressTracker.LearningStreak | src/components/ProgressTracker.tsx:72-76 | The distinct days among the last 30 days' assessments. This is at most the number of those assessments, and 0 iff there are none. |
| ProgressTracker.TimeSpent | src/components/ProgressTracker.tsx:90 | The hours are `floor(2.5·n)`. |
| ProgressTracker.WeekLabel | src/components/ProgressTracker.tsx:132 | A label is 'W' followed by the week number, or by 'Now'. |
| ProgressTracker.WeekLabelsDistinct | src/components/ProgressTracker.tsx:132 | Different weeks have different labels. |
| ProgressTracker.WeeklyProgress | src/components/ProgressTracker.tsx:112-138 | There are eight buckets labelled W7..W1, WNow. A window with no assessments scores 0. |
| ProgressTracker.GenerateWeeklyProgress | src/components/ProgressTracker.tsx:112-138 | The loop from week 7 down to 0 pushes exactly the eight buckets. |
| ProgressTracker.WeeklyScoresBounded | src/components/ProgressTracker.tsx:127-129 | With all scores in [lo,hi], every bucket is 0 or in [lo,hi]. |
| ProgressTracker.WeekWindowsMissLastDay | src/components/ProgressTracker.tsx:116-123 | As written, an assessment made in the day before now lies in no window. |
| ProgressTracker.WeeklyProgressMissesRecentAssessment | src/components/ProgressTracker.tsx:112-138 | As written, an assessment made half a day ago leaves every bucket at 0. |
| ProgressTracker.TrailingWeeklyProgress | src/components/ProgressTracker.tsx:112-138 | The corrected buckets are eight, with the same labels. |
| ProgressTracker.TrailingWeeksPartition | src/components/ProgressTracker.tsx:116-123 | The corrected windows put each instant of the last 56 days in exactly one week, and nothing older or later in any. |
| ProgressTracker.TrailingWeeklyProgressCountsRecentAssessment | src/components/ProgressTracker.tsx:112-138 | With the corrected windows, an assessment of the last day scores in the 'WNow' bucket. |
| ProgressTracker.LevelOr | src/components/ProgressTracker.tsx:152-153 | `level \|\| fallback`: a missing or zero level takes the fallback. |
| ProgressTracker.LatestBySkill | src/components/ProgressTracker.tsx:143-148 | The map's key list and its entries name the same skills. |
| ProgressTracker.LatestBySkillKeys | src/components/ProgressTracker.tsx:143-148 | There is one key per skill name seen, and each appears once. |
| ProgressTracker.LatestBySkillKeysOrder | src/components/ProgressTracker.tsx:141-150 | The keys keep the `Map`'s insertion order: a key listed before another was seen before the other's first row. |
| ProgressTracker.LatestBySkillKept | src/components/ProgressTracker.tsx:143-148 | Each skill keeps its strictly latest row, and the first one seen on ties. |
| ProgressTracker.KeptWhenUnchanged | src/components/ProgressTracker.tsx:145 | A row that is not strictly later leaves the kept row in place. |
| ProgressTracker.KeptWhenReplaced | src/components/ProgressTracker.tsx:145-146 | A row strictly later than every earlier row of its skill becomes the kept one. |
| ProgressTracker.ProgressOf | src/components/ProgressTracker.tsx:150-155 | A missing level defaults to 1 for current and 5 for target. The progress is current/target·100. |
| ProgressTracker.ProgressReachesTarget | src/components/ProgressTracker.tsx:154 | A row at or above its target shows at least 100 percent. |
| ProgressTracker.SkillProgressList | src/components/ProgressTracker.tsx:150-155 | There is one entry per key, in key order. |
| ProgressTracker.CollectLatest | src/components/ProgressTracker.tsx:143-148 | The `forEach` loop builds exactly the latest-per-skill map. |
| ProgressTracker.GenerateSkillProgress | src/components/ProgressTracker.tsx:140-156 | The result is the entries of that map, in insertion order. |
| ProgressTracker.SkillProgressShowsLatest | src/components/ProgressTracker.tsx:140-156 | The shown skills are distinct, and each is built from its skill's latest row. |
| ProgressTracker.AchievementsShape | src/components/ProgressTracker.tsx:157-203 | There are one to four achievements, and the streak is always last. |
| ProgressTracker.AchievementsUnlocked | src/components/ProgressTracker.tsx:157-203 | 'first-assessment' iff count ≥ 1, 'assessment-explorer' iff count ≥ 5, and 'high-achiever' iff average ≥ 80. |
| ProgressTracker.AchievementsDistinct | src/components/ProgressTracker.tsx:157-203 | No achievement is listed twice. |
| ProgressTracker.GenerateAchievements | src/components/ProgressTracker.tsx:157-203 | The conditional pushes produce exactly the specified list. |
| Dashboard.ScoreHue | src/components/Dashboard.tsx:46-50 | The hue is green from 80, yellow from 60, and red below. |
| Dashboard.ScoreColor | src/components/Dashboard.tsx:46-50 | Green from 80, yellow from 60, red below, at shade 400 in dark mode and 600 otherwise. |
| Dashboard.ScoreColorBands | src/components/Dashboard.tsx:46-50 | Two scores share a colour iff they share a band, so dark mode changes only the shade. |
| Dashboard.ScoreHueIsReadiness | src/components/Dashboard.tsx:46-50 | The score hue matches the readiness the results page shows for that score. |
| Dashboard.ReadinessHue | src/components/Dashboard.tsx:208-212 | The badge is green for 'High', yellow for 'Medium', and red for anything else. |
| Dashboard.ReadinessHueMatchesScore | src/components/Dashboard.tsx:208-212 | A level stored as the score implies is coloured like the score. |
| Dashboard.StoredReadinessHueDisagrees | src/components/Dashboard.tsx:208-212 | A mock AI row can score green while its stored level is yellow. |
| Dashboard.AICount | src/components/Dashboard.tsx:139 | This is the number of positions holding an 'ai' row. It is at most the total, and 0 iff all rows are standard. |
| Dashboard.AICountComplement | src/components/Dashboard.tsx:139 | The AI rows plus the standard rows make up the whole history. |
| Dashboard.LastAssessment | src/components/Dashboard.tsx:155 | This is row 0, or none for an empty history. |
| Dashboard.ReplaceFirst | src/components/Dashboard.tsx:191 | `replace('-', ' ')` keeps the length and does nothing without a '-'. |
| Dashboard.ReplaceFirstAt | src/components/Dashboard.tsx:191 | Only the first '-' changes. |
| Dashboard.TitleCase | src/components/Dashboard.tsx:191 | Each character that starts a word is upper-cased, and every other character is kept. Word characters stay word characters. |
| Dashboard.TitleCaseIdempotent | src/components/Dashboard.tsx:191 | Title-casing twice is title-casing once. |
| Dashboard.CareerTitle | src/components/Dashboard.tsx:191 | The title keeps the length of the id. |
| Dashboard.CareerTitleOfTwoWords | src/components/Dashboard.tsx:191 | 'word-word' reads as 'Word Word'. |
| MarketInsights.CompaniesOfKind | src/components/MarketInsights.tsx:30-32 | This gives exactly the companies of one kind, in order. |
| MarketInsights.CompaniesOfKindCopies | src/components/MarketInsights.tsx:30-32 | A group holds every copy of a company of its kind and no copy of any other company. |
| MarketInsights.KindsPartition | src/components/MarketInsights.tsx:30-32 | The three lists plus the startups hold each company exactly once. |
| MarketInsights.StartupsNotListed | src/components/MarketInsights.tsx:30-32 | A 'Startup' company is in none of the three lists. |
| MarketInsights.GroupNonEmpty | src/components/MarketInsights.tsx:143 | A list is non-empty iff a company of its kind is present. |
| MarketInsights.ShownGroups | src/components/MarketInsights.tsx:143-237 | A section renders iff its kind has a company. Startups never get one. |
| MarketInsights.CompetitionColor | src/components/MarketInsights.tsx:14-22 | The four known levels get their colours, and anything else is grey. |
| MarketInsights.CompetitionColorsDistinct | src/components/MarketInsights.tsx:14-22 | Different known levels never share a colour. |
| MarketInsights.TrendIconOf | src/components/MarketInsights.tsx:24-28 | The icon is up for 'Growing', a dot for 'Stable', and down for anything else. |
| MarketInsights.CompanyDialog.constructor | src/components/MarketInsights.tsx:11 | No company is selected at first, so no dialog is shown. |
| MarketInsights.CompanyDialog.Shown | src/components/MarketInsights.tsx:285 | The dialog shows iff a company is selected. |
| MarketInsights.CompanyDialog.Select | src/components/MarketInsights.tsx:154 | Clicking a card selects it and shows the dialog. |
| MarketInsights.CompanyDialog.Close | src/components/MarketInsights.tsx:298 | Close clears the selection and hides the dialog. |
| Supabase.IsConfigured | src/lib/supabase.ts:7-14 | It is false for an empty URL or key, and for the template values. It is false unless the URL starts with 'https://' and the key is longer than 20 characters. |
| Supabase.TemplateRejected | src/lib/supabase.ts:10-12 | The template URL or the template key is never accepted. |
| Supabase.PlaceholderKeyTooShort | src/lib/supabase.ts:12-13 | The template key already fails the length test. |
| Supabase.ConfiguredWhenValid | src/lib/supabase.ts:7-14 | Any other https URL with a key longer than 20 characters is accepted. |
| Supabase.CreateClient | src/lib/supabase.ts:27-29 | A client exists iff the configuration is accepted. |
| Supabase.MockSignIn | src/lib/supabase.ts:40-43 | There is no user and no session, and the error message is not empty. |
| Supabase.MockSignUp | src/lib/supabase.ts:44-47 | There is no user and no session, and the error message is not empty. |
| Supabase.MockGetSession | src/lib/supabase.ts:34 | There is no session and no error. |
| Text.NatToStringValue | src/components/AIResults.tsx:81 | Printing a number in decimal and reading the digits back gives it again. |
| Text.ParseInt | src/components/CareerComparison.tsx:34 | `parseInt` is NaN exactly when no digits follow the spaces and sign. |
| Text.ParseIntOfNatToString | src/components/CareerComparison.tsx:34 | `parseInt` reads back what `String(n)` printed. |
| Text.RemoveFirst | src/components/CareerComparison.tsx:34 | `replace('%', '')` removes one character when there is a '%', and otherwise nothing. |
| Text.RemoveFirstAt | src/components/CareerComparison.tsx:34 | `replace('%', '')` removes exactly the first '%' and keeps every other character in order. |
| Text.RemoveFirstOfAppended | src/components/CareerComparison.tsx:34 | Removing the '%' of 'N%' gives 'N'. |

## Left out

- Network, storage and authentication are left out. This covers the Supabase queries and the auth context and its screens. Every stored history row and the catalogue are parameters.
- The Gemini network calls and `JSON.parse` are left out. A reply is either a failed call or an optional record with optional fields. Prompt text building is left out too.
- `Math.random`, timers and effects are left out. Drawn values are parameters in [0, 1). The 1.5-second wait between generation stages is not modelled; only the order of the stages is.
- The clock is a parameter `now` in milliseconds. The local day is `DayOf(t, offset)` with a fixed time-zone offset, so daylight-saving changes are not modelled.
- ProgressTracker.LearningStreak: the 30-day window is `now − 30 days` to the millisecond. The calendar arithmetic of `setDate` across a daylight-saving change is not modelled.
- Floating point is modelled as `real`. This covers the two percentages (the question progress and the path completion) and the skill progress ratio. Rounding of floats is not modelled.
- Markup, styling, icons and dark-mode classes are left out, except the colour choices that are logic. Date formatting, the learning-plan HTML export and the timeframe multipliers are left out too.
- `generatePersonalLearningPlan` is left out because it is asynchronous I/O; only its pure helpers are modelled.
- ProgressTracker.Achievements: an achievement has no `description` or `icon` field, because they are fixed display text. All entries share one `unlockedAt` parameter, whereas the source reads the clock at each push.
- The achievement-row mapping and the recent-assessment slice of the progress page are left out, because they only read stored rows.
- Gemini.MockAnalysis does not take the answers, because the mock ignores them.
- Text.ParseInt reads decimal digits after optional ASCII whitespace (space, tab, line feed, carriage return, vertical tab, form feed) and a sign. The `0x` prefix and non-ASCII whitespace are not modelled, and the salary and growth texts do not use them.
- CareerComparison.DifficultyScore and CareerComparison.DemandScore treat only the listed level names as known. A lookup of an inherited object key such as 'constructor' is not modelled.
- QuestionBank.GenerateQuestions, LearningPlan.EstimateCost, LearningPlan.GetJobOpportunities and Results.HiringCompanies treat only the listed keys as known. An inherited object key such as 'constructor' or 'toString' would find a prototype member in JavaScript; the model gives the fallback instead.
- CareerComparison.SalaryValue: JavaScript numbers lose precision above 2^53, but the model reads digits as unbounded integers.
- The readiness level of a stored row is a string that the model takes as given, and `overall_score` is an integer.
- The question texts and option labels of the bank are transcribed. Only the properties above are stated about them, not their exact wording.

## Findings

| source | as written | input that shows it | evidently intended | confidence | as-written member | corrected member |
|---|---|---|---|---|---|---|
| src/components/ProgressTracker.tsx:116-123 | Week i's window runs from `now − 7i` days to six days later. The 'WNow' window lies entirely after now, and window 1 ends one day before now. | An assessment created half a day before now falls in no window, so every bucket scores 0. | The eight buckets split the last 56 days into trailing weeks `(now − 7(i+1) days, now − 7i days]`, so a recent assessment counts in 'WNow'. | not executed | ProgressTracker.WeekWindowsMissLastDay, ProgressTracker.WeeklyProgressMissesRecentAssessment | ProgressTracker.TrailingWeeksPartition, ProgressTracker.TrailingWeeklyProgressCountsRecentAssessment |
