# AI Resume Maker — a verified model of the ATS checker, the form helpers and the preview text

The resume builder keeps one resume snapshot (`ResumeData`). Three parts
of the application are modelled here:

- **The rule-based ATS checker.** It scores the snapshot in six
  categories: contact 20, summary 15, experience 25, education 15,
  skills 15 and format 10. Each category gets a four-tier status and a list
  of suggestions. The checker then adds the six scores into an overall
  percentage and counts sixteen keywords in the resume text.
- **The form helpers.** They add, update and remove entries of the
  snapshot.
- **The preview's text shaping.** It builds the contact line, turns a
  free-text description into bullet lines, and shows fallback texts for
  missing values.

Modules:

- `Text` (`text.dfy`) states the JavaScript string primitives the code
  relies on, over `seq<char>`:
  - string truthiness;
  - `trim` and the regex class `\s`, using ECMAScript's white-space and
    line-terminator set;
  - ASCII `toLowerCase`, `includes` and `startsWith`;
  - `split` on one character, and `join`;
  - `\d`;
  - the number of non-overlapping matches of a literal pattern.
- `ResumeData` (`resume_data.dfy`) holds the snapshot's records. Optional
  properties are `Option` values.
- `AtsScoreChecker` (`ats_score_checker.dfy`) holds the six sub-scorers
  and the analysis. Each sub-scorer is an imperative method shaped like
  the TypeScript: `score +=`, `suggestions.push` and a `while` loop for
  `forEach`. Each method is proved equal to a specification function, and
  the properties are lemmas about those functions. Suggestions are a
  datatype. `Suggestion.Message()` gives the exact text the code pushes.
- `KeywordDensity` (`keyword_density.dfy`) holds the keyword count, filter,
  stable sort and top-ten cut, as a pure pipeline.
- `ResumeForm` (`resume_form.dfy`) holds every `add*`, `update*` and
  `remove*` helper of the form. Each is a pure function from the old
  snapshot to the new one, and the new entry's id is a parameter.
- `ResumePreview` (`resume_preview.dfy`) holds the contact line, the
  description bullet lines and the fallbacks. The page's print view repeats
  the same shaping at app/page.tsx:109-114 and 354-357.

## Model

| member | source | states |
|---|---|---|
| AtsScoreChecker.StatusMonotone | components/ats-score-checker.tsx:175 | for any thresholds, a higher score never gives a lower tier |
| AtsScoreChecker.StatusBands | components/ats-score-checker.tsx:217 | each tier is reached exactly from its threshold up to the next, in both directions |
| AtsScoreChecker.PushMember | components/ats-score-checker.tsx:157-158 | after a conditional push, a suggestion is present exactly when it was already there or it is the advice of a failed check |
| AtsScoreChecker.CalculatePersonalInfoScore | components/ats-score-checker.tsx:153-178 | the if-chain returns exactly `ContactScore`: the sum of 5/5/3/3/2/2 over the non-empty fields, the status for thresholds 18/15/10, and one suggestion per empty field |
| AtsScoreChecker.ContactScoreProperties | components/ats-score-checker.tsx:153-177 | score in [0, 20]; 20 exactly when no field is empty, which is exactly when nothing is suggested; the number of suggestions equals the number of empty fields |
| AtsScoreChecker.ContactScoreMonotone | components/ats-score-checker.tsx:157-175 | filling in more fields never lowers the contact score or its tier |
| AtsScoreChecker.CalculateSummaryScore | components/ats-score-checker.tsx:180-220 | returns exactly `SummaryScore`: an empty summary stops at 0/poor with one suggestion; 30..80 words earn 8, other counts earn 4 plus a too-short or too-long suggestion; an action verb earns 4 and a digit earns 3 |
| AtsScoreChecker.SummaryScoreProperties | components/ats-score-checker.tsx:184-217 | score in [0, 15]; an empty summary gives 0, poor and one suggestion; a non-empty summary earns at least 4; 15 exactly when 30..80 words, an action verb and a digit are all present; nothing suggested exactly at 15 |
| AtsScoreChecker.WordCountIsSpacesPlusOne | components/ats-score-checker.tsx:189 | the word count is the number of single spaces plus one, so double spaces count as extra words |
| AtsScoreChecker.ActionWordInsideWord | components/ats-score-checker.tsx:200-202 | "led", "Led" or "LED" anywhere, even inside a longer word such as "skilled", earns the action-verb credit |
| AtsScoreChecker.CheckExperienceEntry | components/ats-score-checker.tsx:237-263 | the loop body adds exactly `EntryPoints` and appends exactly the entry's suggestions, numbered from 1 |
| AtsScoreChecker.CalculateExperienceScore | components/ats-score-checker.tsx:222-272 | returns exactly `ExperienceScore`: no entries stops at 0/poor with one suggestion; base 8/6/4 by entry count plus the entries' points, capped at min(25, 8 + 6n); the suggestions of all entries in order |
| AtsScoreChecker.EntryPointsBound | components/ats-score-checker.tsx:237-262 | one entry earns at most 8 points, and at most 5 without a description |
| AtsScoreChecker.EntriesPointsBound | components/ats-score-checker.tsx:237-263 | n entries earn at most 8n points before the cap |
| AtsScoreChecker.ExperienceScoreProperties | components/ats-score-checker.tsx:226-267 | score in [0, min(25, 8 + 6n)]; an empty list gives 0, poor and exactly one suggestion |
| AtsScoreChecker.EntryPointsMonotone | components/ats-score-checker.tsx:238-262 | an entry whose filled fields stay filled, and whose description, if any, is kept, earns at least as much |
| AtsScoreChecker.EntriesPointsReplace | components/ats-score-checker.tsx:237-264 | replacing one entry changes the raw sum by exactly the difference of that entry's points |
| AtsScoreChecker.ExperienceScoreMonotone | components/ats-score-checker.tsx:232-269 | filling in missing fields of any one entry never lowers the experience score or its tier |
| AtsScoreChecker.ExperienceAddEntryMonotone | components/ats-score-checker.tsx:226-269 | adding an entry, however empty, never lowers the experience score or its tier |
| AtsScoreChecker.EmptyDescriptionAdvice | components/ats-score-checker.tsx:247-249 | an entry without a description gets the add-description suggestion and neither the bullet nor the digit suggestion |
| AtsScoreChecker.DescriptionAdviceIff | components/ats-score-checker.tsx:250-262 | with a description: the bullet suggestion is made exactly when fewer than two lines are bullets; the achievements suggestion exactly when there is no digit; the full 8 points exactly when nothing is suggested |
| AtsScoreChecker.MarkedLineIsBullet | components/ats-score-checker.tsx:252 | a line starting with • counts as a bullet line |
| AtsScoreChecker.TwoBulletLines | components/ats-score-checker.tsx:250-253 | two •-lines separated by one line break count as two bullets |
| AtsScoreChecker.FullExperienceEntry | components/ats-score-checker.tsx:237-262 | an entry with company, position, start date and a two-bullet description containing a digit earns 8 points and adds no suggestion |
| AtsScoreChecker.ParseFromDigit | components/ats-score-checker.tsx:296 | `parseFloat` of text starting with a digit reads the leading digits, with no sign and no white space to skip |
| AtsScoreChecker.FractionOfOneDigit | components/ats-score-checker.tsx:296 | a point and one digit, followed by nothing that continues the number, give the value ab/10 |
| AtsScoreChecker.ParseOneDecimal | components/ats-score-checker.tsx:296 | "a.b" followed by anything that neither continues the number nor starts an exponent parses as ab/10 |
| AtsScoreChecker.OneDecimalGpaBonus | components/ats-score-checker.tsx:296 | a one-decimal GPA followed by nothing that continues the number (no digit, no exponent) earns the bonus exactly when it is at least 3.5 |
| AtsScoreChecker.GpaFourPointZero | components/ats-score-checker.tsx:296 | "4.0" earns the GPA bonus |
| AtsScoreChecker.GpaOutOfFour | components/ats-score-checker.tsx:296 | a GPA written "a.b/4.0" is read up to the slash, so the bonus depends on a.b alone: exactly when it is at least 3.5 |
| AtsScoreChecker.NoGpaBonusExamples | components/ats-score-checker.tsx:296 | "3.4", text that starts with no digit, and a missing GPA earn no bonus |
| AtsScoreChecker.CheckEducationEntry | components/ats-score-checker.tsx:283-297 | the loop body adds exactly 4/4/3/2 for the filled fields plus 2 for a GPA of at least 3.5, and one suggestion per missing field |
| AtsScoreChecker.CalculateEducationScore | components/ats-score-checker.tsx:274-304 | returns exactly `EducationScore`: no entries stops at 0/poor with one suggestion; otherwise the sum over the entries capped at 15, with thresholds 12/9/6 |
| AtsScoreChecker.AllEducationPointsAtLeast | components/ats-score-checker.tsx:283-297 | the raw sum is at least the points of any one entry |
| AtsScoreChecker.EducationScoreProperties | components/ats-score-checker.tsx:278-301 | score in [0, 15]; an empty list gives 0, poor and one suggestion; one complete entry with a GPA of at least 3.5 already gives 15 |
| AtsScoreChecker.EducationPointsMonotone | components/ats-score-checker.tsx:284-296 | an entry whose filled fields stay filled, and whose GPA, if any, is kept, earns at least as much |
| AtsScoreChecker.AllEducationPointsReplace | components/ats-score-checker.tsx:283-297 | replacing one entry changes the raw sum by exactly the difference of that entry's points |
| AtsScoreChecker.EducationScoreMonotone | components/ats-score-checker.tsx:283-301 | filling in missing fields of any one entry never lowers the education score or its tier |
| AtsScoreChecker.EducationAddEntryMonotone | components/ats-score-checker.tsx:278-301 | adding an entry never lowers the education score or its tier |
| AtsScoreChecker.ThreeCompleteEducations | components/ats-score-checker.tsx:283-301 | three complete entries earn 45 raw points but score exactly 15, excellent |
| AtsScoreChecker.CalculateSkillsScore | components/ats-score-checker.tsx:306-338 | returns exactly `SkillsScore`: no categories stops at 0/poor with one suggestion; 8/6/4 for 15/10/5 skills, 4 for two categories, 3 for a technical term found case-insensitively |
| AtsScoreChecker.SkillsScoreProperties | components/ats-score-checker.tsx:310-335 | score in [0, 15]; empty gives 0, poor and one suggestion; 15 exactly with 15+ skills in 2+ categories including a technical one; nothing suggested exactly with 5+ skills, 2+ categories and a technical one |
| AtsScoreChecker.CalculateFormatScore | components/ats-score-checker.tsx:340-373 | returns exactly `FormatScore`: 3 for experience and education present, 2 for all dates in MM/YYYY form (end dates only when not current), 2 for • or - in some description, 3 for name, email and phone |
| AtsScoreChecker.FormatScoreProperties | components/ats-score-checker.tsx:346-370 | score in [0, 10], 10 exactly when nothing is suggested; with no experience, the date check gives neither points nor a suggestion, but the bullet suggestion is still made |
| AtsScoreChecker.MalformedEndDate | components/ats-score-checker.tsx:350-355 | a finished job whose end date is not MM/YYYY draws the date-format suggestion and loses the 2 date points, while the other checks apply as usual |
| AtsScoreChecker.FormatScoreMonotone | components/ats-score-checker.tsx:365-370 | filling in the name, email or phone never lowers the format score or its tier |
| AtsScoreChecker.FormatAddEducationMonotone | components/ats-score-checker.tsx:344-370 | adding an education entry never lowers the format score or its tier |
| AtsScoreChecker.ItemsTotals | components/ats-score-checker.tsx:69-138 | the six items come in the fixed order with their names and maxima; the maxima add up to 100 and the total is the sum of the six scores |
| AtsScoreChecker.PerformATSAnalysis | components/ats-score-checker.tsx:68-151 | pushing the six items and reducing them returns exactly `Analyze` of the resume |
| AtsScoreChecker.RoundedPercentOfHundred | components/ats-score-checker.tsx:139 | rounding total/100·100 gives the total back, so the overall score is the plain sum |
| AtsScoreChecker.AssembleProperties | components/ats-score-checker.tsx:137-150 | six results within their maxima make a well-formed analysis: fixed order and maxima, each score within its maximum, overall = sum in [0, 100], format score repeated, readability 85, keyword report kept |
| AtsScoreChecker.AnalysisProperties | components/ats-score-checker.tsx:68-151 | every analysis of every resume is well formed in that sense |
| AtsScoreChecker.EmptyResumeCategories | components/ats-score-checker.tsx:153-372 | each sub-scorer gives 0 and poor on the initial empty resume |
| AtsScoreChecker.AssembleAllPoor | components/ats-score-checker.tsx:137-139 | six results that are all 0 and poor give overall 0 and six poor items |
| AtsScoreChecker.EmptyResumeAnalysis | components/ats-score-checker.tsx:68-151 | the empty resume analyses to 0 overall with every category 0 and poor |
| AtsScoreChecker.EmptyResumeNotAnalyzed | components/ats-score-checker.tsx:63 | the initial empty resume does not start an analysis |
| KeywordDensity.ExperienceTexts | components/ats-score-checker.tsx:378 | one text per experience, its position, a space and its description, in order |
| KeywordDensity.CountKeywords | components/ats-score-checker.tsx:403-407 | one entry per vocabulary term, in order, carrying the number of non-overlapping matches of the term in the text |
| KeywordDensity.Positive | components/ats-score-checker.tsx:408 | only entries with a positive count remain, each from the input |
| KeywordDensity.Insert | components/ats-score-checker.tsx:409 | inserting adds exactly that entry (as a multiset) |
| KeywordDensity.SortByCount | components/ats-score-checker.tsx:409 | the sort is a permutation of its input |
| KeywordDensity.WithCountFirst | components/ats-score-checker.tsx:409 | the first entry of a given count is an entry of the list |
| KeywordDensity.InsertSorted | components/ats-score-checker.tsx:409 | inserting into a list sorted by decreasing count keeps it sorted |
| KeywordDensity.InsertWithCount | components/ats-score-checker.tsx:409 | inserting puts the new entry before all earlier entries of its count |
| KeywordDensity.InsertDistinct | components/ats-score-checker.tsx:409 | inserting a new keyword keeps keywords distinct |
| KeywordDensity.SortSorted | components/ats-score-checker.tsx:409 | the sort orders by decreasing count |
| KeywordDensity.SortStable | components/ats-score-checker.tsx:409 | the sort is stable: entries of equal count keep their input order |
| KeywordDensity.SortDistinct | components/ats-score-checker.tsx:409 | sorting keeps keywords distinct |
| KeywordDensity.PositiveDistinct | components/ats-score-checker.tsx:408 | filtering keeps keywords distinct |
| KeywordDensity.PositiveKeeps | components/ats-score-checker.tsx:408 | every entry with a positive count survives the filter |
| KeywordDensity.PositiveWithCount | components/ats-score-checker.tsx:408 | the filter keeps each positive count class whole and in order |
| KeywordDensity.WithCountPrefix | components/ats-score-checker.tsx:410 | cutting to a prefix keeps a prefix of each count class |
| KeywordDensity.CommonKeywordsDistinct | components/ats-score-checker.tsx:384-401 | the sixteen vocabulary terms are pairwise different |
| KeywordDensity.ReportFromCounts | components/ats-score-checker.tsx:403-410 | at most ten entries are reported, each one of the counts with a positive count |
| KeywordDensity.ReportDistinct | components/ats-score-checker.tsx:403-410 | no keyword is reported twice |
| KeywordDensity.ReportSorted | components/ats-score-checker.tsx:409-410 | the report is ordered by decreasing count |
| KeywordDensity.ReportStable | components/ats-score-checker.tsx:409-410 | for each count, the reported entries are the first input entries of that count, in vocabulary order |
| KeywordDensity.ReportComplete | components/ats-score-checker.tsx:408-410 | a positive entry left out was crowded out by ten entries with counts at least as large |
| KeywordDensity.AfterPrefix | components/ats-score-checker.tsx:410 | an entry whose keyword is not among the first n comes after them |
| KeywordDensity.ReportedCounts | components/ats-score-checker.tsx:403-410 | every reported entry is a vocabulary term paired with its number of matches in the text |
| KeywordDensity.CountsDistinct | components/ats-score-checker.tsx:403-407 | the counts carry no keyword twice |
| KeywordDensity.KeywordDensityProperties | components/ats-score-checker.tsx:375-411 | for the lower-cased text of summary, positions and descriptions, and skills: at most 10 entries, each a vocabulary term with its positive match count, none twice, counts non-increasing, ties in vocabulary order |
| KeywordDensity.KeywordDensityTopTen | components/ats-score-checker.tsx:403-410 | a term that occurs but is not reported means ten terms with counts at least as large are reported |
| ResumeForm.UpdateWhere | components/resume-form.tsx:62 | `map` by id keeps length and order, applies the edit exactly to the entries with the id, and changes nothing when no entry has it |
| ResumeForm.RemoveWhere | components/resume-form.tsx:69 | `filter` by id never lengthens the list |
| ResumeForm.RemoveWhereMembers | components/resume-form.tsx:69 | no entry with the id remains, and every entry with another id is kept |
| ResumeForm.RemoveWhereAppend | components/resume-form.tsx:69 | kept entries stay in order: filtering a concatenation filters each part |
| ResumeForm.RemoveWhereAbsent | components/resume-form.tsx:69 | removing an id no entry has changes nothing |
| ResumeForm.RemoveAppended | components/resume-form.tsx:55-69 | removing the id of an entry just appended with a fresh id gives the old list back |
| ResumeForm.DropIndex | components/resume-form.tsx:137 | `filter((_, index) => index !== k)` removes exactly the item at k, and nothing when k is out of range |
| ResumeForm.SetPersonalValue | components/resume-form.tsx:28-31 | the named field reads back the value; every other field is as before |
| ResumeForm.UpdatePersonalInfo | components/resume-form.tsx:25-33 | only the named personal field changes; the rest of the resume is identical |
| ResumeForm.UpdateSummary | components/resume-form.tsx:35-40 | only the summary changes |
| ResumeForm.SetExperienceValue | components/resume-form.tsx:62 | the named field reads back the value, the id and every other field stay |
| ResumeForm.BlankExperience | components/resume-form.tsx:43-52 | a new experience has the given id, every text empty and `current` false |
| ResumeForm.AddExperience | components/resume-form.tsx:42-57 | exactly one blank entry is appended at the end; earlier entries and the rest of the resume are unchanged |
| ResumeForm.UpdateExperience | components/resume-form.tsx:59-64 | length and order kept; entries with the id get the value in that field only; other entries and the rest of the resume are identical |
| ResumeForm.RemoveExperience | components/resume-form.tsx:66-71 | no entry with the id remains, every other entry is kept, nothing else changes |
| ResumeForm.RemoveAddedExperience | components/resume-form.tsx:42-71 | removing a freshly added entry gives the resume back |
| ResumeForm.SetEducationValue | components/resume-form.tsx:91 | the named field reads back the value (the GPA becomes present); the id and every other field stay |
| ResumeForm.BlankEducation | components/resume-form.tsx:74-81 | a new education entry has the given id and every field empty, the GPA included |
| ResumeForm.AddEducation | components/resume-form.tsx:73-86 | exactly one blank entry is appended at the end; nothing else changes |
| ResumeForm.UpdateEducation | components/resume-form.tsx:88-93 | length and order kept; entries with the id get the value in that field only; others identical |
| ResumeForm.RemoveEducation | components/resume-form.tsx:95-100 | no entry with the id remains, every other entry is kept, nothing else changes |
| ResumeForm.RemoveAddedEducation | components/resume-form.tsx:73-100 | removing a freshly added entry gives the resume back |
| ResumeForm.BlankSkillCategory | components/resume-form.tsx:103-107 | a new category is "Technical Skills" with no items |
| ResumeForm.AddSkillCategory | components/resume-form.tsx:102-112 | exactly one new category is appended at the end; nothing else changes |
| ResumeForm.UpdateSkillCategory | components/resume-form.tsx:114-119 | categories with the id are renamed, keeping id and items; others and the rest are identical |
| ResumeForm.AddSkillToCategory | components/resume-form.tsx:121-130 | a blank skill changes nothing; otherwise the trimmed skill is appended to the items of the categories with the id only |
| ResumeForm.AddedSkillIsTrimmed | components/resume-form.tsx:122-127 | an added skill is non-empty and has no white space at either end |
| ResumeForm.RemoveSkillFromCategory | components/resume-form.tsx:132-141 | only the item at the index goes, and only in categories with the id; an out-of-range index deletes nothing |
| ResumeForm.RemoveSkillCategory | components/resume-form.tsx:143-148 | no category with the id remains, every other is kept, nothing else changes |
| ResumeForm.RemoveAddedSkillCategory | components/resume-form.tsx:102-148 | removing a freshly added category gives the resume back |
| ResumeForm.SetProjectValue | components/resume-form.tsx:168 | the named field reads back the value (the link becomes present); id, technologies and other fields stay |
| ResumeForm.BlankProject | components/resume-form.tsx:152-158 | a new project has the given id, empty texts and link, and no technologies |
| ResumeForm.AddProject | components/resume-form.tsx:151-163 | exactly one blank project is appended at the end; nothing else changes |
| ResumeForm.UpdateProject | components/resume-form.tsx:165-170 | length and order kept; projects with the id get the value in that field only; others identical |
| ResumeForm.AddTechnologyToProject | components/resume-form.tsx:172-181 | a blank technology changes nothing; otherwise the trimmed technology is appended to the projects with the id only |
| ResumeForm.RemoveTechnologyFromProject | components/resume-form.tsx:183-192 | only the technology at the index goes, only in projects with the id; an out-of-range index deletes nothing |
| ResumeForm.RemoveProject | components/resume-form.tsx:194-199 | no project with the id remains, every other is kept, nothing else changes |
| ResumeForm.RemoveAddedProject | components/resume-form.tsx:151-199 | removing a freshly added project gives the resume back |
| ResumeForm.Activities | components/resume-form.tsx:214 | a missing activity list reads as empty |
| ResumeForm.SetActivityValue | components/resume-form.tsx:222 | the named field reads back the value; the id and every other field stay |
| ResumeForm.BlankActivity | components/resume-form.tsx:203-211 | a new activity has the given id, every text empty and `current` false |
| ResumeForm.AddExtraCurricular | components/resume-form.tsx:202-216 | the list becomes present and gets exactly one blank activity at the end; nothing else changes |
| ResumeForm.UpdateExtraCurricular | components/resume-form.tsx:218-225 | the list becomes present; length and order kept; activities with the id get the value in that field only |
| ResumeForm.RemoveExtraCurricular | components/resume-form.tsx:227-232 | the list becomes present; no activity with the id remains and every other is kept |
| ResumeForm.RemoveAddedExtraCurricular | components/resume-form.tsx:202-232 | removing a freshly added activity gives the resume back, except that a missing list is now present and empty |
| ResumePreview.BuildContactLine | components/resume-preview.tsx:10-15 | the conditional pushes build exactly `ContactParts`, joined by " • ", and no part is empty |
| ResumePreview.KeepSet | components/resume-preview.tsx:11-14 | keeps exactly the non-empty strings, each from the input |
| ResumePreview.KeepSetSnoc | components/resume-preview.tsx:11-14 | a conditional push onto the kept values keeps the values of the longer list |
| ResumePreview.ContactPartsAreSetFields | components/resume-preview.tsx:10-14 | the parts are exactly the non-empty ones of phone, email, LinkedIn, website, in that order |
| ResumePreview.JoinEmptyIff | components/resume-preview.tsx:15 | joining non-empty parts is empty only for no parts |
| ResumePreview.ContactLineEmptyIff | components/resume-preview.tsx:10-46 | the contact line, shown only when non-empty, is empty exactly when all four fields are empty |
| ResumePreview.TwoContactParts | components/resume-preview.tsx:15 | two filled fields are joined by exactly one separator, whichever fields they are |
| ResumePreview.StripMarker | components/resume-preview.tsx:232 | removes one leading •, - or * and the white space after it, and nothing else; a line not starting with a marker is unchanged |
| ResumePreview.KeepNonBlank | components/resume-preview.tsx:225 | keeps exactly the lines that are not blank, unchanged and each from the input |
| ResumePreview.KeptLinesTrimNonEmpty | components/resume-preview.tsx:225 | a line is kept exactly when its trimmed text is not empty |
| ResumePreview.KeepNonBlankAppend | components/resume-preview.tsx:225 | the kept lines stay in order |
| ResumePreview.StripMarkers | components/resume-preview.tsx:226-232 | one stripped line per kept line, in order |
| ResumePreview.DescriptionLinesStep | components/resume-preview.tsx:223-232 | the first line becomes the first bullet unless blank, followed by the bullets of the rest |
| ResumePreview.DescriptionOfOneLine | components/resume-preview.tsx:223-232 | a one-line description gives that line stripped, or nothing if it is blank |
| ResumePreview.EmptyDescriptionHasNoLines | components/resume-preview.tsx:221-225 | an empty description gives no bullets |
| ResumePreview.StripOneMarker | components/resume-preview.tsx:232 | a marker, white space and a text give the text |
| ResumePreview.NestedMarkerKept | components/resume-preview.tsx:232 | only one marker goes: "• • x" shows as "• x" |
| ResumePreview.IndentedMarkerKept | components/resume-preview.tsx:224-232 | an indented line is kept whole with its marker, because the test looks at the untrimmed line |
| ResumePreview.DisplayName | components/resume-preview.tsx:44 | the heading is the name when one is set, and it is never empty because a placeholder stands in |
| ResumePreview.GraduationLabel | components/resume-preview.tsx:142 | the graduation date when set; never empty, because a placeholder stands in |
| ResumePreview.DateRange | components/resume-preview.tsx:213 | the start date, " - ", then "Present" for a current entry and the end date otherwise |
| ResumePreview.CurrentIgnoresEndDate | components/resume-preview.tsx:213 | a current position shows the same dates whatever end date it holds |
| ResumePreview.DegreeLine | components/resume-preview.tsx:125-126 | the degree, followed by " of " and the field only when the field is set |
| ResumePreview.GpaLine | components/resume-preview.tsx:132-134 | a GPA line appears exactly for a present, non-empty GPA, reading "GPA: " and the value |
| Text.TrimEmptyIff | components/resume-preview.tsx:225 | `trim()` gives the empty string exactly for a string of white space |
| Text.TrimKeepsFirst | components/ats-score-checker.tsx:252 | trimming a line that starts with a non-space character keeps that character first |
| Text.ToLower | components/ats-score-checker.tsx:202 | lower-casing keeps the length and maps each character on its own |
| Text.ContainsIff | components/ats-score-checker.tsx:202 | `includes` holds exactly when the pattern occurs at some position |
| Text.JoinSplit | components/ats-score-checker.tsx:189 | joining the pieces of a split with the separator gives the text back |
| Text.SplitPiecesHaveNoSeparator | components/ats-score-checker.tsx:189 | no piece of a split contains the separator |
| Text.SplitCount | components/ats-score-checker.tsx:189 | a split gives one piece more than there are separators |
| Text.SplitFirstPiece | components/resume-preview.tsx:224 | a separator-free first line is the first piece, followed by the pieces of the rest |
| Text.CountMatches | components/ats-score-checker.tsx:406 | non-overlapping matches never exceed the text's length divided by the pattern's |
| Text.CountMatchesPositiveIff | components/ats-score-checker.tsx:406 | a pattern has a match exactly when the text contains it |

## Left out

- The analysis trigger's timer, `useEffect` and the loading state
  (components/ats-score-checker.tsx:48-66) are not modelled. They are timer
  and rendering plumbing. Only the start condition at line 63 is kept, as
  `ShouldAnalyze`. The code does not cancel a pending timer, so no
  last-write-wins guarantee is claimed for it.
- `Math.round` over floating point (line 139) is modelled as exact integer
  half-up rounding of 100·total/max. With max 100 the two agree.
- `parseFloat` is modelled as a decimal-prefix reader: white space, sign,
  digits, fraction, exponent and "Infinity". Its result is compared
  exactly with 3.5. Binary rounding of values within about 1e-16 of 3.5 is
  not modelled.
- Text.ToLower: `toLowerCase` is modelled on ASCII letters only, one
  character to one. Other cased letters are left as they are, so a
  non-ASCII upper-case letter (U+212A, which JavaScript lowers to "k") is
  not folded, and U+0130, which JavaScript lowers to two code units, keeps
  its length.
- Strings are sequences of code points, not UTF-16 code units. Nothing in
  the model depends on surrogate pairs.
- `getScoreColor`, `getStatusIcon`, `getStatusColor`, and all JSX and CSS
  are presentation only.
- The preview's location line (components/resume-preview.tsx:65) is a
  plain JSX guard on `location` with no text shaping of its own, so it is
  not modelled.
- The id the form takes from `Date.now()` is a parameter.
- `generateAISummary` (components/resume-form.tsx:234-240) writes a fixed
  text, which `UpdateSummary` covers.
- app/page.tsx's download view (`window.open`, `document.write`, `print`)
  and the AI-enhance sleep are browser I/O. Their text shaping is the same
  as the preview's.
- app/api/enhance is a network call to a language model. app/layout.tsx is
  font and metadata setup. Neither is part of this model.
- ResumeForm.UpdatePersonalInfo, UpdateExperience, UpdateEducation,
  UpdateProject and UpdateExtraCurricular take a field enumeration and a value of that
  field's type. The TypeScript accepts any key string and `string |
  boolean`. A call that writes an unknown key or a value of the wrong type
  is not modelled, and the form never makes one.
- ResumePreview.DescriptionLinesStep gives the one-line-at-a-time law of
  the bullet pipeline. A general law for splitting at an arbitrary point
  is not stated.
- AtsScoreChecker.Suggestion.Message: the suggestion texts are given
  exactly, but that different suggestions have different texts is not
  proved. Properties are stated over the `Suggestion` values.

Notes on the code's own behaviour, which the model follows:

- The summary word count splits on the single character `" "`: tabs and
  line breaks do not separate words, and every extra space adds one
  (`WordCountIsSpacesPlusOne`).
- Three complete education entries with GPA 4.0 earn 45 raw points (15
  each), which the clamp brings to exactly 15 (`ThreeCompleteEducations`).
- The keyword report is ordered by non-increasing count. Equal counts keep
  vocabulary order.
- Each experience contributes its position, a space and its description
  to the keyword text.
