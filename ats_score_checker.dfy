/** The rule-based ATS compatibility checker. Six sub-scorers each read one
    part of the resume and return a score, a status tier chosen by fixed
    thresholds, and suggestions in the order the rules are applied; the
    analysis puts the six results together with the keyword density.

    Each sub-scorer is given twice: a function that says what the result is
    (`ContactScore`, `SummaryScore`, ...) and a method that computes it step by
    step the way the checker does (`CalculatePersonalInfoScore`, ...), proved
    to agree with the function. The lemmas state what the functions promise. */
module AtsScoreChecker {
  import opened Text
  import opened ResumeData
  import opened KeywordDensity

  /** The four tiers, from worst to best. */
  datatype Status = Poor | Warning | Good | Excellent {
    function Rank(): nat {
      match this
      case Poor => 0
      case Warning => 1
      case Good => 2
      case Excellent => 3
    }
  }

  /** The lowest score for each tier above `Poor`. */
  datatype Thresholds = Thresholds(excellent: int, good: int, warning: int)

  const ContactThresholds := Thresholds(18, 15, 10)
  const SummaryThresholds := Thresholds(13, 10, 6)
  const ExperienceThresholds := Thresholds(20, 15, 10)
  const EducationThresholds := Thresholds(12, 9, 6)
  const SkillsThresholds := Thresholds(12, 9, 6)
  const FormatThresholds := Thresholds(8, 6, 4)

  function StatusFor(t: Thresholds, score: int): Status {
    if score >= t.excellent then Excellent
    else if score >= t.good then Good
    else if score >= t.warning then Warning
    else Poor
  }

  /** What every sub-scorer returns. */
  datatype CategoryResult = CategoryResult(score: int, status: Status, suggestions: seq<Suggestion>)

  function Min(a: int, b: int): int {
    if a <= b then a else b
  }

  function Points(earned: bool, points: nat): nat {
    if earned then points else 0
  }

  /** `if (!ok) suggestions.push(advice)`. */
  function Push(suggestions: seq<Suggestion>, ok: bool, advice: Suggestion): seq<Suggestion> {
    if ok then suggestions else suggestions + [advice]
  }

  /** A suggestion is in the list after a push exactly when it was there
      before or it is the advice and the check failed; the list is empty
      after it exactly when it was empty and the check passed. */
  lemma PushMember(suggestions: seq<Suggestion>, ok: bool, advice: Suggestion, x: Suggestion)
    ensures x in Push(suggestions, ok, advice) <==> x in suggestions || (!ok && x == advice)
    ensures Push(suggestions, ok, advice) == [] <==> suggestions == [] && ok
  {
  }

  // ---------------------------------------------------------------------
  // Suggestions

  /** One value per suggestion the checker can make; `entry` is the number
      of the experience or education entry, counting from 1. */
  datatype Suggestion =
    | AddFullName | AddEmail | AddPhone | AddLocation | AddLinkedIn | AddWebsite
    | AddSummary | SummaryTooShort | SummaryTooLong | AddActionVerbs | AddSummaryNumbers
    | AddExperience | AddCompany(entry: nat) | AddJobTitle(entry: nat) | AddStartDate(entry: nat)
    | AddJobDescription(entry: nat) | UseBulletPoints(entry: nat) | AddAchievements(entry: nat)
    | AddEducation | AddInstitution(entry: nat) | AddDegree(entry: nat) | AddField(entry: nat)
    | AddGraduationDate(entry: nat)
    | AddSkills | AddMoreSkills | OrganizeSkills | AddTechnicalSkills
    | AddSections | UseDateFormat | UseBulletsInJobs | CompleteContact
  {
    /** The text shown to the user, word for word. */
    function Message(): string {
      match this
      case AddFullName => "Add your full name"
      case AddEmail => "Add a professional email address"
      case AddPhone => "Add your phone number"
      case AddLocation => "Add your location (city, state)"
      case AddLinkedIn => "Add your LinkedIn profile URL"
      case AddWebsite => "Consider adding a portfolio website"
      case AddSummary => "Add a professional summary"
      case SummaryTooShort => "Professional summary is too short (aim for 30-80 words)"
      case SummaryTooLong => "Professional summary is too long (aim for 30-80 words)"
      case AddActionVerbs => "Include strong action verbs in your summary"
      case AddSummaryNumbers => "Include quantifiable achievements in your summary"
      case AddExperience => "Add work experience entries"
      case AddCompany(n) => "Add company name for experience " + NatToString(n)
      case AddJobTitle(n) => "Add job title for experience " + NatToString(n)
      case AddStartDate(n) => "Add start date for experience " + NatToString(n)
      case AddJobDescription(n) => "Add job description for experience " + NatToString(n)
      case UseBulletPoints(n) => "Use bullet points in job description for experience " + NatToString(n)
      case AddAchievements(n) => "Include quantifiable achievements in experience " + NatToString(n)
      case AddEducation => "Add education information"
      case AddInstitution(n) => "Add institution name for education " + NatToString(n)
      case AddDegree(n) => "Add degree type for education " + NatToString(n)
      case AddField(n) => "Add field of study for education " + NatToString(n)
      case AddGraduationDate(n) => "Add graduation date for education " + NatToString(n)
      case AddSkills => "Add skills sections"
      case AddMoreSkills => "Add more skills (aim for 10-20 relevant skills)"
      case OrganizeSkills => "Organize skills into categories (e.g., Technical Skills, Soft Skills)"
      case AddTechnicalSkills => "Include relevant technical skills for your field"
      case AddSections => "Include standard sections: Experience, Education, Skills"
      case UseDateFormat => "Use consistent date format (MM/YYYY)"
      case UseBulletsInJobs => "Use bullet points for job descriptions"
      case CompleteContact => "Complete all essential contact information"
    }
  }

  // ---------------------------------------------------------------------
  // Tiers

  /** A higher score never gives a lower tier, whatever the thresholds. */
  lemma StatusMonotone(t: Thresholds, a: int, b: int)
    requires a <= b
    ensures StatusFor(t, a).Rank() <= StatusFor(t, b).Rank()
  {
  }

  /** Each tier is reached exactly from its threshold up to the next one. */
  lemma StatusBands(t: Thresholds, score: int)
    requires t.excellent >= t.good >= t.warning
    ensures StatusFor(t, score) == Excellent <==> score >= t.excellent
    ensures StatusFor(t, score) == Good <==> t.good <= score < t.excellent
    ensures StatusFor(t, score) == Warning <==> t.warning <= score < t.good
    ensures StatusFor(t, score) == Poor <==> score < t.warning
  {
  }

  // ---------------------------------------------------------------------
  // Contact information: 5/5/3/3/2/2 points for the six fields

  function ContactScore(p: PersonalInfo): CategoryResult {
    var score :=
      Points(Truthy(p.fullName), 5) + Points(Truthy(p.email), 5) + Points(Truthy(p.phone), 3)
      + Points(Truthy(p.location), 3) + Points(Truthy(p.linkedin), 2) + Points(Truthy(p.website), 2);
    var s1 := Push([], Truthy(p.fullName), AddFullName);
    var s2 := Push(s1, Truthy(p.email), AddEmail);
    var s3 := Push(s2, Truthy(p.phone), AddPhone);
    var s4 := Push(s3, Truthy(p.location), AddLocation);
    var s5 := Push(s4, Truthy(p.linkedin), AddLinkedIn);
    CategoryResult(score, StatusFor(ContactThresholds, score),
                   Push(s5, Truthy(p.website), AddWebsite))
  }

  method CalculatePersonalInfoScore(p: PersonalInfo) returns (r: CategoryResult)
    ensures r == ContactScore(p)
  {
    var score := 0;
    var suggestions: seq<Suggestion> := [];

    if Truthy(p.fullName) { score := score + 5; }
    else { suggestions := suggestions + [AddFullName]; }
    ghost var points, advice := Points(Truthy(p.fullName), 5), Push([], Truthy(p.fullName), AddFullName);
    assert score == points && suggestions == advice;

    if Truthy(p.email) { score := score + 5; }
    else { suggestions := suggestions + [AddEmail]; }
    points, advice := points + Points(Truthy(p.email), 5), Push(advice, Truthy(p.email), AddEmail);
    assert score == points && suggestions == advice;

    if Truthy(p.phone) { score := score + 3; }
    else { suggestions := suggestions + [AddPhone]; }
    points, advice := points + Points(Truthy(p.phone), 3), Push(advice, Truthy(p.phone), AddPhone);
    assert score == points && suggestions == advice;

    if Truthy(p.location) { score := score + 3; }
    else { suggestions := suggestions + [AddLocation]; }
    points, advice := points + Points(Truthy(p.location), 3), Push(advice, Truthy(p.location), AddLocation);
    assert score == points && suggestions == advice;

    if Truthy(p.linkedin) { score := score + 2; }
    else { suggestions := suggestions + [AddLinkedIn]; }
    points, advice := points + Points(Truthy(p.linkedin), 2), Push(advice, Truthy(p.linkedin), AddLinkedIn);
    assert score == points && suggestions == advice;

    if Truthy(p.website) { score := score + 2; }
    else { suggestions := suggestions + [AddWebsite]; }

    r := CategoryResult(score, StatusFor(ContactThresholds, score), suggestions);
  }

  /** The number of empty contact fields. */
  function MissingContactFields(p: PersonalInfo): nat {
    Points(!Truthy(p.fullName), 1) + Points(!Truthy(p.email), 1) + Points(!Truthy(p.phone), 1)
    + Points(!Truthy(p.location), 1) + Points(!Truthy(p.linkedin), 1) + Points(!Truthy(p.website), 1)
  }

  /** The contact score lies in [0, 20]; it is 20 exactly when no field is
      empty, which is exactly when there is no suggestion; there is one
      suggestion per empty field. A field of white space counts as present. */
  lemma ContactScoreProperties(p: PersonalInfo)
    ensures var r := ContactScore(p);
      && 0 <= r.score <= 20
      && (r.score == 20 <==> MissingContactFields(p) == 0)
      && (r.suggestions == [] <==> r.score == 20)
      && |r.suggestions| == MissingContactFields(p)
  {
  }

  /** Filling in fields never lowers the contact score or its tier. */
  lemma ContactScoreMonotone(p: PersonalInfo, q: PersonalInfo)
    requires Truthy(p.fullName) ==> Truthy(q.fullName)
    requires Truthy(p.email) ==> Truthy(q.email)
    requires Truthy(p.phone) ==> Truthy(q.phone)
    requires Truthy(p.location) ==> Truthy(q.location)
    requires Truthy(p.linkedin) ==> Truthy(q.linkedin)
    requires Truthy(p.website) ==> Truthy(q.website)
    ensures ContactScore(p).score <= ContactScore(q).score
    ensures ContactScore(p).status.Rank() <= ContactScore(q).status.Rank()
  {
    StatusMonotone(ContactThresholds, ContactScore(p).score, ContactScore(q).score);
  }

  // ---------------------------------------------------------------------
  // Professional summary

  const ActionWords: seq<string> :=
    ["achieved", "developed", "managed", "led", "created", "improved", "increased", "reduced"]

  /** `summary.split(" ").length`: pieces between single spaces, so two
      spaces in a row make an empty word. */
  function WordCount(summary: string): nat {
    |Split(summary, ' ')|
  }

  predicate HasActionWord(summary: string) {
    exists k | 0 <= k < |ActionWords| :: Contains(ToLower(summary), ActionWords[k])
  }

  function LengthPoints(words: nat): nat {
    if 30 <= words <= 80 then 8 else 4
  }

  function LengthAdvice(words: nat): seq<Suggestion> {
    if 30 <= words <= 80 then []
    else if words < 30 then [SummaryTooShort]
    else [SummaryTooLong]
  }

  function SummaryScore(summary: string): CategoryResult {
    if !Truthy(summary) then CategoryResult(0, Poor, [AddSummary])
    else
      var words := WordCount(summary);
      var score := LengthPoints(words) + Points(HasActionWord(summary), 4) + Points(HasDigit(summary), 3);
      var s1 := Push(LengthAdvice(words), HasActionWord(summary), AddActionVerbs);
      CategoryResult(score, StatusFor(SummaryThresholds, score),
                     Push(s1, HasDigit(summary), AddSummaryNumbers))
  }

  method CalculateSummaryScore(summary: string) returns (r: CategoryResult)
    ensures r == SummaryScore(summary)
  {
    var score := 0;
    var suggestions: seq<Suggestion> := [];

    if !Truthy(summary) {
      suggestions := suggestions + [AddSummary];
      return CategoryResult(0, Poor, suggestions);
    }

    var wordCount := |Split(summary, ' ')|;
    if wordCount >= 30 && wordCount <= 80 {
      score := score + 8;
    } else if wordCount < 30 {
      score := score + 4;
      suggestions := suggestions + [SummaryTooShort];
    } else {
      score := score + 4;
      suggestions := suggestions + [SummaryTooLong];
    }

    if HasActionWord(summary) {
      score := score + 4;
    } else {
      suggestions := suggestions + [AddActionVerbs];
    }

    if HasDigit(summary) {
      score := score + 3;
    } else {
      suggestions := suggestions + [AddSummaryNumbers];
    }

    r := CategoryResult(score, StatusFor(SummaryThresholds, score), suggestions);
  }

  /** An empty summary scores 0, is poor and gets one suggestion; any other
      summary earns at least the 4 length points; the score is at most 15 and
      is 15 exactly when there is nothing to suggest. */
  lemma SummaryScoreProperties(summary: string)
    ensures var r := SummaryScore(summary);
      && 0 <= r.score <= 15
      && (summary == "" ==> r.score == 0 && r.status == Poor && |r.suggestions| == 1)
      && (summary != "" ==> r.score >= 4)
      && (r.score == 15 <==>
            summary != "" && 30 <= WordCount(summary) <= 80
            && HasActionWord(summary) && HasDigit(summary))
      && (r.suggestions == [] <==> r.score == 15)
  {
  }

  /** The word count is one more than the number of single spaces. */
  lemma WordCountIsSpacesPlusOne(summary: string)
    ensures WordCount(summary) == Occurrences(summary, ' ') + 1
  {
    SplitCount(summary, ' ');
  }

  /** Action verbs are found as substrings: "led" inside "skilled" or
      "Led" at the start of a sentence both count. */
  lemma ActionWordInsideWord(prefix: string, led: string, suffix: string)
    requires led == "led" || led == "Led" || led == "LED"
    ensures HasActionWord(prefix + led + suffix)
  {
    var s := prefix + led + suffix;
    var t := ToLower(s);
    var n := |prefix|;
    assert s[n] == led[0] && s[n + 1] == led[1] && s[n + 2] == led[2];
    assert t[n] == LowerChar(s[n]) && t[n + 1] == LowerChar(s[n + 1]) && t[n + 2] == LowerChar(s[n + 2]);
    assert t[n..n + 3] == ActionWords[3];
    assert OccursAt(t, ActionWords[3], n);
    ContainsIff(t, ActionWords[3]);
  }

  // ---------------------------------------------------------------------
  // Work experience

  /** 8, 6 or 4 points for three or more, two, or one entries. */
  function BasePoints(entries: nat): nat {
    if entries >= 3 then 8 else if entries >= 2 then 6 else 4
  }

  /** The score is never above `min(25, 8 + 6 * entries)`. */
  function ExperienceCap(entries: nat): int {
    Min(25, 8 + entries * 6)
  }

  /** A line counts as a bullet when, once trimmed, it starts with • or -. */
  predicate IsBulletLine(line: string) {
    StartsWith(Trim(line), "\U{2022}") || StartsWith(Trim(line), "-")
  }

  /** `.split("\n").filter(...)`: the bullet lines, in order. */
  function BulletLines(lines: seq<string>): (r: seq<string>)
    ensures |r| <= |lines|
    ensures forall i | 0 <= i < |r| :: IsBulletLine(r[i])
  {
    if lines == [] then []
    else if IsBulletLine(lines[0]) then [lines[0]] + BulletLines(lines[1..])
    else BulletLines(lines[1..])
  }

  function BulletCount(description: string): nat {
    |BulletLines(Split(description, '\n'))|
  }

  /** What one entry earns: company 2, position 2, start date 1 and, only
      when there is a description, 2 for at least two bullet lines and 1 for
      a digit. */
  function EntryPoints(e: Experience): nat {
    Points(Truthy(e.company), 2) + Points(Truthy(e.position), 2) + Points(Truthy(e.startDate), 1)
    + (if !Truthy(e.description) then 0
       else Points(BulletCount(e.description) >= 2, 2) + Points(HasDigit(e.description), 1))
  }

  /** The suggestions after the entry shown as number `n` (counting from 1)
      is checked, given those made before it. */
  function EntryAdvice(suggestions: seq<Suggestion>, e: Experience, n: nat): seq<Suggestion> {
    var s1 := Push(suggestions, Truthy(e.company), AddCompany(n));
    var s2 := Push(s1, Truthy(e.position), AddJobTitle(n));
    var s3 := Push(s2, Truthy(e.startDate), AddStartDate(n));
    if !Truthy(e.description) then s3 + [AddJobDescription(n)]
    else
      var s4 := Push(s3, BulletCount(e.description) >= 2,
                     UseBulletPoints(n));
      Push(s4, HasDigit(e.description), AddAchievements(n))
  }

  function EntriesPoints(es: seq<Experience>): nat {
    if es == [] then 0 else EntriesPoints(es[..|es| - 1]) + EntryPoints(es[|es| - 1])
  }

  function EntriesAdvice(es: seq<Experience>): seq<Suggestion> {
    if es == [] then [] else EntryAdvice(EntriesAdvice(es[..|es| - 1]), es[|es| - 1], |es|)
  }

  function ExperienceScore(experience: seq<Experience>): CategoryResult {
    if experience == [] then CategoryResult(0, Poor, [AddExperience])
    else
      var score := Min(BasePoints(|experience|) + EntriesPoints(experience), ExperienceCap(|experience|));
      CategoryResult(score, StatusFor(ExperienceThresholds, score), EntriesAdvice(experience))
  }

  /** The body of the loop over the entries: checks the entry shown as
      number `n` and adds its points and suggestions to those so far. */
  method CheckExperienceEntry(score: int, suggestions: seq<Suggestion>, exp: Experience, n: nat)
    returns (score': int, suggestions': seq<Suggestion>)
    ensures score' == score + EntryPoints(exp)
    ensures suggestions' == EntryAdvice(suggestions, exp, n)
  {
    score', suggestions' := score, suggestions;

    if !Truthy(exp.company) { suggestions' := suggestions' + [AddCompany(n)]; }
    else { score' := score' + 2; }

    if !Truthy(exp.position) { suggestions' := suggestions' + [AddJobTitle(n)]; }
    else { score' := score' + 2; }

    if !Truthy(exp.startDate) { suggestions' := suggestions' + [AddStartDate(n)]; }
    else { score' := score' + 1; }

    if !Truthy(exp.description) {
      suggestions' := suggestions' + [AddJobDescription(n)];
    } else {
      var bulletPoints := BulletLines(Split(exp.description, '\n'));
      if |bulletPoints| >= 2 { score' := score' + 2; }
      else { suggestions' := suggestions' + [UseBulletPoints(n)]; }

      if HasDigit(exp.description) { score' := score' + 1; }
      else { suggestions' := suggestions' + [AddAchievements(n)]; }
    }
  }

  method CalculateExperienceScore(experience: seq<Experience>) returns (r: CategoryResult)
    ensures r == ExperienceScore(experience)
  {
    var score := 0;
    var suggestions: seq<Suggestion> := [];

    if |experience| == 0 {
      suggestions := suggestions + [AddExperience];
      return CategoryResult(0, Poor, suggestions);
    }

    if |experience| >= 3 { score := score + 8; }
    else if |experience| >= 2 { score := score + 6; }
    else { score := score + 4; }

    var index := 0;
    while index < |experience|
      invariant 0 <= index <= |experience|
      invariant score == BasePoints(|experience|) + EntriesPoints(experience[..index])
      invariant suggestions == EntriesAdvice(experience[..index])
    {
      score, suggestions := CheckExperienceEntry(score, suggestions, experience[index], index + 1);
      assert experience[..index + 1][..index] == experience[..index];
      index := index + 1;
    }
    assert experience[..index] == experience;

    var maxPossibleScore := Min(25, 8 + |experience| * 6);
    score := Min(score, maxPossibleScore);
    r := CategoryResult(score, StatusFor(ExperienceThresholds, score), suggestions);
  }

  /** One entry earns at most 8 points, and at most 5 without a description. */
  lemma EntryPointsBound(e: Experience)
    ensures EntryPoints(e) <= 8
    ensures !Truthy(e.description) ==> EntryPoints(e) <= 5
  {
  }

  lemma {:induction false} EntriesPointsBound(es: seq<Experience>)
    ensures EntriesPoints(es) <= 8 * |es|
  {
    if es != [] {
      EntriesPointsBound(es[..|es| - 1]);
      EntryPointsBound(es[|es| - 1]);
    }
  }

  /** The experience score lies in [0, min(25, 8 + 6n)]; no entries scores 0,
      is poor and gets exactly one suggestion. */
  lemma ExperienceScoreProperties(experience: seq<Experience>)
    ensures var r := ExperienceScore(experience);
      && 0 <= r.score <= ExperienceCap(|experience|) <= 25
      && (experience == [] ==> r.score == 0 && r.status == Poor && |r.suggestions| == 1)
  {
  }

  /** `f` is `e` with missing fields possibly filled in: every field `e` has
      stays filled, and a description `e` already has is kept as it is. */
  predicate ExperienceFilledIn(e: Experience, f: Experience) {
    && (Truthy(e.company) ==> Truthy(f.company))
    && (Truthy(e.position) ==> Truthy(f.position))
    && (Truthy(e.startDate) ==> Truthy(f.startDate))
    && (Truthy(e.description) ==> f.description == e.description)
  }

  /** Filling in an entry never lowers what it earns. */
  lemma EntryPointsMonotone(e: Experience, f: Experience)
    requires ExperienceFilledIn(e, f)
    ensures EntryPoints(e) <= EntryPoints(f)
  {
  }

  /** Replacing one entry changes the sum by the difference of its points. */
  lemma {:induction false} EntriesPointsReplace(es: seq<Experience>, k: nat, f: Experience)
    requires k < |es|
    ensures EntriesPoints(es[k := f]) == EntriesPoints(es) - EntryPoints(es[k]) + EntryPoints(f)
  {
    var n := |es|;
    if k == n - 1 {
      assert es[k := f][..n - 1] == es[..n - 1];
    } else {
      EntriesPointsReplace(es[..n - 1], k, f);
      assert es[k := f][..n - 1] == es[..n - 1][k := f];
    }
  }

  /** Filling in missing fields of one entry never lowers the experience
      score or its tier. */
  lemma ExperienceScoreMonotone(experience: seq<Experience>, k: nat, f: Experience)
    requires k < |experience| && ExperienceFilledIn(experience[k], f)
    ensures ExperienceScore(experience).score <= ExperienceScore(experience[k := f]).score
    ensures ExperienceScore(experience).status.Rank() <= ExperienceScore(experience[k := f]).status.Rank()
  {
    EntryPointsMonotone(experience[k], f);
    EntriesPointsReplace(experience, k, f);
    StatusMonotone(ExperienceThresholds, ExperienceScore(experience).score,
                   ExperienceScore(experience[k := f]).score);
  }

  /** Adding an entry, however empty, never lowers the experience score or
      its tier: the base points and the cap only grow. */
  lemma ExperienceAddEntryMonotone(experience: seq<Experience>, f: Experience)
    ensures ExperienceScore(experience).score <= ExperienceScore(experience + [f]).score
    ensures ExperienceScore(experience).status.Rank() <= ExperienceScore(experience + [f]).status.Rank()
  {
    assert (experience + [f])[..|experience|] == experience;
    StatusMonotone(ExperienceThresholds, ExperienceScore(experience).score,
                   ExperienceScore(experience + [f]).score);
  }

  /** An entry without a description gets the "add description" suggestion
      and neither bullet nor digit suggestion, whatever else it lacks. */
  lemma EmptyDescriptionAdvice(e: Experience, n: nat)
    requires e.description == ""
    ensures AddJobDescription(n) in EntryAdvice([], e, n)
    ensures UseBulletPoints(n) !in EntryAdvice([], e, n)
    ensures AddAchievements(n) !in EntryAdvice([], e, n)
  {
    var s1 := Push([], Truthy(e.company), AddCompany(n));
    var s2 := Push(s1, Truthy(e.position), AddJobTitle(n));
    var s3 := Push(s2, Truthy(e.startDate), AddStartDate(n));
    assert EntryAdvice([], e, n) == s3 + [AddJobDescription(n)];
  }

  /** With a description, the bullet suggestion is made exactly when fewer
      than two lines are bullets and the achievements suggestion exactly when
      there is no digit; each suggestion stands for points withheld. */
  lemma DescriptionAdviceIff(e: Experience, n: nat)
    requires Truthy(e.description)
    ensures AddJobDescription(n) !in EntryAdvice([], e, n)
    ensures UseBulletPoints(n) in EntryAdvice([], e, n) <==> BulletCount(e.description) < 2
    ensures AddAchievements(n) in EntryAdvice([], e, n) <==> !HasDigit(e.description)
    ensures EntryPoints(e) == 8 <==> EntryAdvice([], e, n) == []
  {
    var bullets, digits := BulletCount(e.description) >= 2, HasDigit(e.description);
    var s1 := Push([], Truthy(e.company), AddCompany(n));
    var s2 := Push(s1, Truthy(e.position), AddJobTitle(n));
    var s3 := Push(s2, Truthy(e.startDate), AddStartDate(n));
    var s4 := Push(s3, bullets, UseBulletPoints(n));
    var s5 := Push(s4, digits, AddAchievements(n));
    assert EntryAdvice([], e, n) == s5;
    PushMember([], Truthy(e.company), AddCompany(n), UseBulletPoints(n));
    PushMember(s1, Truthy(e.position), AddJobTitle(n), UseBulletPoints(n));
    PushMember(s2, Truthy(e.startDate), AddStartDate(n), UseBulletPoints(n));
    PushMember(s3, bullets, UseBulletPoints(n), UseBulletPoints(n));
    PushMember(s4, digits, AddAchievements(n), UseBulletPoints(n));
    PushMember([], Truthy(e.company), AddCompany(n), AddAchievements(n));
    PushMember(s1, Truthy(e.position), AddJobTitle(n), AddAchievements(n));
    PushMember(s2, Truthy(e.startDate), AddStartDate(n), AddAchievements(n));
    PushMember(s3, bullets, UseBulletPoints(n), AddAchievements(n));
    PushMember(s4, digits, AddAchievements(n), AddAchievements(n));
    PushMember([], Truthy(e.company), AddCompany(n), AddJobDescription(n));
    PushMember(s1, Truthy(e.position), AddJobTitle(n), AddJobDescription(n));
    PushMember(s2, Truthy(e.startDate), AddStartDate(n), AddJobDescription(n));
    PushMember(s3, bullets, UseBulletPoints(n), AddJobDescription(n));
    PushMember(s4, digits, AddAchievements(n), AddJobDescription(n));
  }

  /** A line that starts with the bullet character is a bullet line. */
  lemma MarkedLineIsBullet(line: string)
    requires line != "" && line[0] == '\U{2022}'
    ensures IsBulletLine(line)
  {
    TrimKeepsFirst(line);
  }

  /** Two marked lines separated by one line break make two bullets. */
  lemma TwoBulletLines(first: string, second: string)
    requires first != "" && first[0] == '\U{2022}' && '\n' !in first
    requires second != "" && second[0] == '\U{2022}' && '\n' !in second
    ensures BulletCount(first + "\n" + second) == 2
  {
    SplitFirstPiece(first, second, '\n');
    SplitNoSeparator(second, '\n');
    assert Split(first + "\n" + second, '\n') == [first, second];
    MarkedLineIsBullet(first);
    MarkedLineIsBullet(second);
    assert BulletLines([first, second][1..]) == [second];
  }

  /** An entry with a company, a position, a start date and a description
      of two bullet lines holding a figure earns the full 8 points and no
      suggestion. */
  lemma FullExperienceEntry(e: Experience, first: string, second: string)
    requires Truthy(e.company) && Truthy(e.position) && Truthy(e.startDate)
    requires first != "" && first[0] == '\U{2022}' && '\n' !in first
    requires second != "" && second[0] == '\U{2022}' && '\n' !in second
    requires e.description == first + "\n" + second && HasDigit(e.description)
    ensures EntryPoints(e) == 8
    ensures forall before :: EntryAdvice(before, e, 1) == before
  {
    TwoBulletLines(first, second);
  }

  // ---------------------------------------------------------------------
  // GPA: `Number.parseFloat(gpa) >= 3.5`

  /** What `parseFloat` reads from the start of a string: nothing it can
      use, an infinity, or the finite value ±`digits` / 10^`scale`. */
  datatype Numeral = NotANumber | Infinite(negative: bool) | Finite(negative: bool, digits: nat, scale: int)

  function Pow10(k: nat): (r: nat)
    ensures r >= 1
  {
    if k == 0 then 1 else 10 * Pow10(k - 1)
  }

  /** The longest prefix of ASCII digits. */
  function LeadingDigits(s: string): (r: string)
    ensures |r| <= |s| && r == s[..|r|]
    ensures forall i | 0 <= i < |r| :: IsDigit(r[i])
    ensures |r| < |s| ==> !IsDigit(s[|r|])
  {
    if s != "" && IsDigit(s[0]) then [s[0]] + LeadingDigits(s[1..]) else ""
  }

  function DigitValue(c: char): int {
    c as int - '0' as int
  }

  function DigitsValue(ds: string): nat
    requires forall i | 0 <= i < |ds| :: IsDigit(ds[i])
  {
    if ds == "" then 0
    else
      assert IsDigit(ds[|ds| - 1]);
      10 * DigitsValue(ds[..|ds| - 1]) + DigitValue(ds[|ds| - 1])
  }

  /** An optional exponent `e`/`E`, optional sign, digits; 0 when absent or
      incomplete (the unused characters are then ignored by `parseFloat`). */
  function ExponentPrefix(s: string): int {
    if s == "" || (s[0] != 'e' && s[0] != 'E') then 0
    else
      var t := s[1..];
      var negative := t != "" && t[0] == '-';
      var u := if t != "" && (t[0] == '-' || t[0] == '+') then t[1..] else t;
      var ds := LeadingDigits(u);
      var magnitude: int := DigitsValue(ds);
      if ds == "" then 0 else if negative then -magnitude else magnitude
  }

  /** `Number.parseFloat`: leading white space, an optional sign, then
      `Infinity` or the longest decimal literal (digits, an optional fraction,
      an optional exponent) that starts the rest; `NotANumber` when no digit
      is there. */
  function ParseFloat(s: string): Numeral {
    var t := TrimStart(s);
    var negative := t != "" && t[0] == '-';
    if t != "" && (t[0] == '-' || t[0] == '+') then ParseUnsigned(negative, t[1..])
    else ParseUnsigned(negative, t)
  }

  /** What follows the sign. */
  function ParseUnsigned(negative: bool, u: string): Numeral {
    if StartsWith(u, "Infinity") then Infinite(negative)
    else
      var whole := LeadingDigits(u);
      ParseFraction(negative, whole, u[|whole|..])
  }

  /** What follows the integer digits `whole`. */
  function ParseFraction(negative: bool, whole: string, rest: string): Numeral
    requires forall i | 0 <= i < |whole| :: IsDigit(whole[i])
  {
    if rest != "" && rest[0] == '.' then
      var fraction := LeadingDigits(rest[1..]);
      if whole == "" && fraction == "" then NotANumber
      else Finite(negative, DigitsValue(whole + fraction), |fraction| - ExponentPrefix(rest[1 + |fraction|..]))
    else if whole == "" then NotANumber
    else Finite(negative, DigitsValue(whole), -ExponentPrefix(rest))
  }

  /** The parsed value is at least 3.5 (= 7/2). */
  predicate AtLeastThreeAndAHalf(n: Numeral) {
    match n
    case NotANumber => false
    case Infinite(negative) => !negative
    case Finite(negative, digits, scale) =>
      !negative &&
      (if scale >= 0 then 2 * digits >= 7 * Pow10(scale) else 2 * digits * Pow10(-scale) >= 7)
  }

  /** `edu.gpa && Number.parseFloat(edu.gpa) >= 3.5`. */
  predicate GpaBonus(gpa: Option<string>) {
    gpa.Some? && Truthy(gpa.value) && AtLeastThreeAndAHalf(ParseFloat(gpa.value))
  }

  lemma NotInfinity(s: string)
    requires s != "" && s[0] != 'I'
    ensures !StartsWith(s, "Infinity")
  {
    if |s| >= 8 {
      assert s[..8][0] != "Infinity"[0];
    }
  }

  lemma NoSpaceToSkip(s: string)
    requires s != "" && !IsWhitespace(s[0])
    ensures TrimStart(s) == s
  {
    assert LeadingSpace(s) == 0;
  }

  /** Text that starts with a digit has no sign and no white space to skip. */
  lemma ParseFromDigit(s: string)
    requires s != "" && IsDigit(s[0])
    ensures ParseFloat(s) == ParseFraction(false, LeadingDigits(s), s[|LeadingDigits(s)|..])
  {
    NoSpaceToSkip(s);
    assert ParseFloat(s) == ParseUnsigned(false, s);
    NotInfinity(s);
  }

  /** The fraction of a single digit after the point, with nothing after it
      that continues the number. */
  lemma FractionOfOneDigit(a: char, b: char, tail: string)
    requires IsDigit(a) && IsDigit(b)
    requires tail == "" || (!IsDigit(tail[0]) && tail[0] != 'e' && tail[0] != 'E')
    ensures ParseFraction(false, [a], ['.', b] + tail) == Finite(false, 10 * DigitValue(a) + DigitValue(b), 1)
  {
    var rest := ['.', b] + tail;
    assert rest[1..] == [b] + tail && ([b] + tail)[1..] == tail;
    assert LeadingDigits([b] + tail) == [b];
    assert rest[2..] == tail;
    assert ExponentPrefix(tail) == 0;
    assert [a] + [b] == [a, b] && [a, b][..1] == [a] && [a][..0] == [];
    assert DigitsValue([a]) == DigitValue(a);
    assert DigitsValue([a, b]) == 10 * DigitValue(a) + DigitValue(b);
    assert ParseFraction(false, [a], rest) == Finite(false, DigitsValue([a] + [b]), 1 - ExponentPrefix(tail));
  }

  /** A digit, a point and a digit, followed by anything that neither
      continues the number nor starts an exponent, read as `ab` / 10. */
  lemma ParseOneDecimal(a: char, b: char, tail: string)
    requires IsDigit(a) && IsDigit(b)
    requires tail == "" || (!IsDigit(tail[0]) && tail[0] != 'e' && tail[0] != 'E')
    ensures ParseFloat([a] + (['.', b] + tail)) == Finite(false, 10 * DigitValue(a) + DigitValue(b), 1)
  {
    var rest := ['.', b] + tail;
    var s := [a] + rest;
    ParseFromDigit(s);
    assert s[0] == a && s[1..] == rest;
    assert LeadingDigits(rest) == "";
    assert LeadingDigits(s) == [a];
    FractionOfOneDigit(a, b, tail);
  }

  /** A GPA written as a digit, a point and a digit, whatever follows that
      does not continue the number, earns the bonus exactly when it is at
      least 3.5. */
  lemma OneDecimalGpaBonus(a: char, b: char, tail: string)
    requires IsDigit(a) && IsDigit(b)
    requires tail == "" || (!IsDigit(tail[0]) && tail[0] != 'e' && tail[0] != 'E')
    ensures GpaBonus(Some([a] + (['.', b] + tail))) <==> 10 * DigitValue(a) + DigitValue(b) >= 35
  {
    ParseOneDecimal(a, b, tail);
    assert Pow10(1) == 10;
  }

  /** "4.0" earns the bonus. */
  lemma GpaFourPointZero()
    ensures GpaBonus(Some("4.0"))
  {
    OneDecimalGpaBonus('4', '0', "");
    assert "4.0" == ['4'] + (['.', '0'] + "");
  }

  /** A GPA written "a.b/4.0" is read up to the slash: the scale is ignored
      and the bonus depends on a.b alone, so "3.8/4.0" earns it and
      "3.4/4.0" does not. */
  lemma GpaOutOfFour(a: char, b: char)
    requires IsDigit(a) && IsDigit(b)
    ensures GpaBonus(Some([a] + (['.', b] + "/4.0"))) <==> 10 * DigitValue(a) + DigitValue(b) >= 35
  {
    var tail := "/4.0";
    assert tail[0] == '/';
    OneDecimalGpaBonus(a, b, tail);
  }

  /** "3.4", text that starts with no digit and a missing GPA earn nothing. */
  lemma NoGpaBonusExamples()
    ensures !GpaBonus(Some("3.4")) && !GpaBonus(Some("abc")) && !GpaBonus(None)
  {
    OneDecimalGpaBonus('3', '4', "");
    assert "3.4" == ['3'] + (['.', '4'] + "");
    var s := "abc";
    NoSpaceToSkip(s);
    assert ParseFloat(s) == ParseUnsigned(false, s);
    NotInfinity(s);
    assert LeadingDigits(s) == "";
  }

  // ---------------------------------------------------------------------
  // Education

  /** Institution 4, degree 4, field 3, graduation date 2 and 2 for a GPA of
      at least 3.5. */
  function EducationPoints(e: Education): nat {
    Points(Truthy(e.institution), 4) + Points(Truthy(e.degree), 4) + Points(Truthy(e.field), 3)
    + Points(Truthy(e.graduationDate), 2) + Points(GpaBonus(e.gpa), 2)
  }

  /** The suggestions after the entry shown as number `n` is checked; a low
      or unreadable GPA is not mentioned. */
  function EducationAdvice(suggestions: seq<Suggestion>, e: Education, n: nat): seq<Suggestion> {
    var s1 := Push(suggestions, Truthy(e.institution), AddInstitution(n));
    var s2 := Push(s1, Truthy(e.degree), AddDegree(n));
    var s3 := Push(s2, Truthy(e.field), AddField(n));
    Push(s3, Truthy(e.graduationDate), AddGraduationDate(n))
  }

  function AllEducationPoints(es: seq<Education>): nat {
    if es == [] then 0 else AllEducationPoints(es[..|es| - 1]) + EducationPoints(es[|es| - 1])
  }

  function AllEducationAdvice(es: seq<Education>): seq<Suggestion> {
    if es == [] then [] else EducationAdvice(AllEducationAdvice(es[..|es| - 1]), es[|es| - 1], |es|)
  }

  function EducationScore(education: seq<Education>): CategoryResult {
    if education == [] then CategoryResult(0, Poor, [AddEducation])
    else
      var score := Min(AllEducationPoints(education), 15);
      CategoryResult(score, StatusFor(EducationThresholds, score), AllEducationAdvice(education))
  }

  /** The body of the loop over the entries: checks the entry shown as
      number `n` and adds its points and suggestions to those so far. */
  method CheckEducationEntry(score: int, suggestions: seq<Suggestion>, edu: Education, n: nat)
    returns (score': int, suggestions': seq<Suggestion>)
    ensures score' == score + EducationPoints(edu)
    ensures suggestions' == EducationAdvice(suggestions, edu, n)
  {
    score', suggestions' := score, suggestions;

    if Truthy(edu.institution) { score' := score' + 4; }
    else { suggestions' := suggestions' + [AddInstitution(n)]; }

    if Truthy(edu.degree) { score' := score' + 4; }
    else { suggestions' := suggestions' + [AddDegree(n)]; }

    if Truthy(edu.field) { score' := score' + 3; }
    else { suggestions' := suggestions' + [AddField(n)]; }

    if Truthy(edu.graduationDate) { score' := score' + 2; }
    else { suggestions' := suggestions' + [AddGraduationDate(n)]; }

    if GpaBonus(edu.gpa) { score' := score' + 2; }
  }

  method CalculateEducationScore(education: seq<Education>) returns (r: CategoryResult)
    ensures r == EducationScore(education)
  {
    var score := 0;
    var suggestions: seq<Suggestion> := [];

    if |education| == 0 {
      suggestions := suggestions + [AddEducation];
      return CategoryResult(0, Poor, suggestions);
    }

    var index := 0;
    while index < |education|
      invariant 0 <= index <= |education|
      invariant score == AllEducationPoints(education[..index])
      invariant suggestions == AllEducationAdvice(education[..index])
    {
      score, suggestions := CheckEducationEntry(score, suggestions, education[index], index + 1);
      assert education[..index + 1][..index] == education[..index];
      index := index + 1;
    }
    assert education[..index] == education;

    score := Min(score, 15);
    r := CategoryResult(score, StatusFor(EducationThresholds, score), suggestions);
  }

  predicate CompleteEducation(e: Education) {
    Truthy(e.institution) && Truthy(e.degree) && Truthy(e.field) && Truthy(e.graduationDate)
    && GpaBonus(e.gpa)
  }

  lemma {:induction false} AllEducationPointsAtLeast(es: seq<Education>, k: nat)
    requires k < |es|
    ensures AllEducationPoints(es) >= EducationPoints(es[k])
  {
    if k < |es| - 1 {
      AllEducationPointsAtLeast(es[..|es| - 1], k);
    }
  }

  /** The education score lies in [0, 15]; no entries scores 0, is poor and
      gets exactly one suggestion; one complete entry with a GPA of at least
      3.5 already reaches the ceiling of 15. */
  lemma EducationScoreProperties(education: seq<Education>)
    ensures var r := EducationScore(education);
      && 0 <= r.score <= 15
      && (education == [] ==> r.score == 0 && r.status == Poor && |r.suggestions| == 1)
      && ((exists k | 0 <= k < |education| :: CompleteEducation(education[k])) ==> r.score == 15)
  {
    if k :| 0 <= k < |education| && CompleteEducation(education[k]) {
      AllEducationPointsAtLeast(education, k);
    }
  }

  /** `f` is `e` with missing fields possibly filled in: every field `e` has
      stays filled, and a GPA `e` already has is kept as it is. */
  predicate EducationFilledIn(e: Education, f: Education) {
    && (Truthy(e.institution) ==> Truthy(f.institution))
    && (Truthy(e.degree) ==> Truthy(f.degree))
    && (Truthy(e.field) ==> Truthy(f.field))
    && (Truthy(e.graduationDate) ==> Truthy(f.graduationDate))
    && (e.gpa.Some? && Truthy(e.gpa.value) ==> f.gpa == e.gpa)
  }

  /** Filling in an entry never lowers what it earns. */
  lemma EducationPointsMonotone(e: Education, f: Education)
    requires EducationFilledIn(e, f)
    ensures EducationPoints(e) <= EducationPoints(f)
  {
  }

  /** Replacing one entry changes the sum by the difference of its points. */
  lemma {:induction false} AllEducationPointsReplace(es: seq<Education>, k: nat, f: Education)
    requires k < |es|
    ensures AllEducationPoints(es[k := f]) == AllEducationPoints(es) - EducationPoints(es[k]) + EducationPoints(f)
  {
    var n := |es|;
    if k == n - 1 {
      assert es[k := f][..n - 1] == es[..n - 1];
    } else {
      AllEducationPointsReplace(es[..n - 1], k, f);
      assert es[k := f][..n - 1] == es[..n - 1][k := f];
    }
  }

  /** Filling in missing fields of one entry never lowers the education
      score or its tier. */
  lemma EducationScoreMonotone(education: seq<Education>, k: nat, f: Education)
    requires k < |education| && EducationFilledIn(education[k], f)
    ensures EducationScore(education).score <= EducationScore(education[k := f]).score
    ensures EducationScore(education).status.Rank() <= EducationScore(education[k := f]).status.Rank()
  {
    EducationPointsMonotone(education[k], f);
    AllEducationPointsReplace(education, k, f);
    StatusMonotone(EducationThresholds, EducationScore(education).score,
                   EducationScore(education[k := f]).score);
  }

  /** Adding an entry never lowers the education score or its tier. */
  lemma EducationAddEntryMonotone(education: seq<Education>, f: Education)
    ensures EducationScore(education).score <= EducationScore(education + [f]).score
    ensures EducationScore(education).status.Rank() <= EducationScore(education + [f]).status.Rank()
  {
    assert (education + [f])[..|education|] == education;
    StatusMonotone(EducationThresholds, EducationScore(education).score,
                   EducationScore(education + [f]).score);
  }

  /** Three complete entries earn 45 raw points but score exactly 15. */
  lemma ThreeCompleteEducations(e1: Education, e2: Education, e3: Education)
    requires CompleteEducation(e1) && CompleteEducation(e2) && CompleteEducation(e3)
    ensures AllEducationPoints([e1, e2, e3]) == 45
    ensures EducationScore([e1, e2, e3]).score == 15
    ensures EducationScore([e1, e2, e3]).status == Excellent
  {
    assert EducationPoints(e1) == 15 && EducationPoints(e2) == 15 && EducationPoints(e3) == 15;
    assert [e1][..0] == [];
    assert AllEducationPoints([e1]) == 15;
    assert [e1, e2][..1] == [e1];
    assert AllEducationPoints([e1, e2]) == 30;
    assert [e1, e2, e3][..2] == [e1, e2];
  }

  // ---------------------------------------------------------------------
  // Skills

  const TechnicalKeywords: seq<string> :=
    ["javascript", "python", "react", "node", "sql", "aws", "docker", "git"]

  /** `skills.reduce((sum, category) => sum + category.items.length, 0)`. */
  function TotalSkills(skills: seq<SkillCategory>): nat {
    if skills == [] then 0 else |skills[0].items| + TotalSkills(skills[1..])
  }

  predicate IsTechnical(skill: string) {
    exists k | 0 <= k < |TechnicalKeywords| :: Contains(ToLower(skill), TechnicalKeywords[k])
  }

  predicate HasRelevantSkills(skills: seq<SkillCategory>) {
    exists i, j | 0 <= i < |skills| && 0 <= j < |skills[i].items| :: IsTechnical(skills[i].items[j])
  }

  /** 8, 6 or 4 points for at least 15, 10 or 5 skills in all. */
  function CountPoints(total: nat): nat {
    if total >= 15 then 8 else if total >= 10 then 6 else if total >= 5 then 4 else 0
  }

  function SkillsScore(skills: seq<SkillCategory>): CategoryResult {
    if skills == [] then CategoryResult(0, Poor, [AddSkills])
    else
      var total := TotalSkills(skills);
      var score := CountPoints(total) + Points(|skills| >= 2, 4) + Points(HasRelevantSkills(skills), 3);
      var s1 := Push([], total >= 5, AddMoreSkills);
      var s2 := Push(s1, |skills| >= 2, OrganizeSkills);
      CategoryResult(score, StatusFor(SkillsThresholds, score),
                     Push(s2, HasRelevantSkills(skills), AddTechnicalSkills))
  }

  method CalculateSkillsScore(skills: seq<SkillCategory>) returns (r: CategoryResult)
    ensures r == SkillsScore(skills)
  {
    var score := 0;
    var suggestions: seq<Suggestion> := [];

    if |skills| == 0 {
      suggestions := suggestions + [AddSkills];
      return CategoryResult(0, Poor, suggestions);
    }

    var totalSkills := TotalSkills(skills);

    if totalSkills >= 15 { score := score + 8; }
    else if totalSkills >= 10 { score := score + 6; }
    else if totalSkills >= 5 { score := score + 4; }
    else { suggestions := suggestions + [AddMoreSkills]; }

    if |skills| >= 2 { score := score + 4; }
    else { suggestions := suggestions + [OrganizeSkills]; }

    if HasRelevantSkills(skills) { score := score + 3; }
    else { suggestions := suggestions + [AddTechnicalSkills]; }

    r := CategoryResult(score, StatusFor(SkillsThresholds, score), suggestions);
  }

  /** The skills score lies in [0, 15]; no categories scores 0, is poor and
      gets one suggestion; 15 needs at least 15 skills in two or more
      categories with a technical one; there is nothing to suggest exactly
      when there are 5 skills or more, two categories or more and a technical skill. */
  lemma SkillsScoreProperties(skills: seq<SkillCategory>)
    ensures var r := SkillsScore(skills);
      && 0 <= r.score <= 15
      && (skills == [] ==> r.score == 0 && r.status == Poor && |r.suggestions| == 1)
      && (r.score == 15 <==>
            TotalSkills(skills) >= 15 && |skills| >= 2 && HasRelevantSkills(skills))
      && (r.suggestions == [] <==>
            TotalSkills(skills) >= 5 && |skills| >= 2 && HasRelevantSkills(skills))
  {
  }

  // ---------------------------------------------------------------------
  // ATS format

  /** `/^\d{2}\/\d{4}$/`: exactly two digits, a slash and four digits. */
  predicate IsMonthYear(s: string) {
    |s| == 7 && IsDigit(s[0]) && IsDigit(s[1]) && s[2] == '/'
    && IsDigit(s[3]) && IsDigit(s[4]) && IsDigit(s[5]) && IsDigit(s[6])
  }

  predicate DatesValid(e: Experience) {
    IsMonthYear(e.startDate) && (e.current || IsMonthYear(e.endDate))
  }

  predicate AllDatesValid(experience: seq<Experience>) {
    forall i | 0 <= i < |experience| :: DatesValid(experience[i])
  }

  predicate HasBulletMarks(experience: seq<Experience>) {
    exists i | 0 <= i < |experience| ::
      Contains(experience[i].description, "\U{2022}") || Contains(experience[i].description, "-")
  }

  predicate ContactComplete(p: PersonalInfo) {
    Truthy(p.fullName) && Truthy(p.email) && Truthy(p.phone)
  }

  function FormatScore(d: Resume): CategoryResult {
    var standard := |d.experience| > 0 && |d.education| > 0;
    var datesOk := |d.experience| > 0 && AllDatesValid(d.experience);
    var score := Points(standard, 3) + Points(datesOk, 2)
      + Points(HasBulletMarks(d.experience), 2) + Points(ContactComplete(d.personalInfo), 3);
    var s1 := Push([], standard, AddSections);
    var s2 := if |d.experience| > 0 then Push(s1, datesOk, UseDateFormat) else s1;
    var s3 := Push(s2, HasBulletMarks(d.experience), UseBulletsInJobs);
    CategoryResult(score, StatusFor(FormatThresholds, score),
                   Push(s3, ContactComplete(d.personalInfo), CompleteContact))
  }

  method CalculateFormatScore(d: Resume) returns (r: CategoryResult)
    ensures r == FormatScore(d)
  {
    var score := 0;
    var suggestions: seq<Suggestion> := [];

    var hasStandardSections := |d.experience| > 0 && |d.education| > 0;
    if hasStandardSections { score := score + 3; }
    else { suggestions := suggestions + [AddSections]; }

    var experienceDatesValid := AllDatesValid(d.experience);
    if experienceDatesValid && |d.experience| > 0 { score := score + 2; }
    else if |d.experience| > 0 { suggestions := suggestions + [UseDateFormat]; }

    if HasBulletMarks(d.experience) { score := score + 2; }
    else { suggestions := suggestions + [UseBulletsInJobs]; }

    if ContactComplete(d.personalInfo) { score := score + 3; }
    else { suggestions := suggestions + [CompleteContact]; }

    r := CategoryResult(score, StatusFor(FormatThresholds, score), suggestions);
  }

  /** The format score lies in [0, 10] and is 10 exactly when there is
      nothing to suggest. With no experience the date check gives neither
      points nor a suggestion, while the bullet check still suggests. */
  lemma FormatScoreProperties(d: Resume)
    ensures var r := FormatScore(d);
      && 0 <= r.score <= 10
      && (r.suggestions == [] <==> r.score == 10)
      && (d.experience == [] ==>
            r.score <= 3 && UseDateFormat !in r.suggestions && UseBulletsInJobs in r.suggestions)
  {
    var r := FormatScore(d);
    if d.experience == [] {
      assert r.suggestions == Push([AddSections, UseBulletsInJobs], ContactComplete(d.personalInfo), CompleteContact);
    }
  }

  /** A malformed end date on a finished job fails the date check: the
      suggestion appears and the date points are lost, while the other three
      checks are applied as usual. */
  lemma MalformedEndDate(d: Resume)
    requires |d.experience| == 1
    requires d.experience[0].startDate == "01/2020" && !d.experience[0].current
    requires d.experience[0].endDate == "Present-ish-invalid"
    ensures UseDateFormat in FormatScore(d).suggestions
    ensures FormatScore(d).score == Points(|d.education| > 0, 3)
      + Points(HasBulletMarks(d.experience), 2) + Points(ContactComplete(d.personalInfo), 3)
  {
    assert !DatesValid(d.experience[0]);
  }

  /** Filling in the name, email or phone never lowers the format score or
      its tier. */
  lemma FormatScoreMonotone(d: Resume, p: PersonalInfo)
    requires Truthy(d.personalInfo.fullName) ==> Truthy(p.fullName)
    requires Truthy(d.personalInfo.email) ==> Truthy(p.email)
    requires Truthy(d.personalInfo.phone) ==> Truthy(p.phone)
    ensures FormatScore(d).score <= FormatScore(d.(personalInfo := p)).score
    ensures FormatScore(d).status.Rank() <= FormatScore(d.(personalInfo := p)).status.Rank()
  {
    StatusMonotone(FormatThresholds, FormatScore(d).score, FormatScore(d.(personalInfo := p)).score);
  }

  /** Adding an education entry never lowers the format score or its tier. */
  lemma FormatAddEducationMonotone(d: Resume, e: Education)
    ensures FormatScore(d).score <= FormatScore(d.(education := d.education + [e])).score
    ensures FormatScore(d).status.Rank() <= FormatScore(d.(education := d.education + [e])).status.Rank()
  {
    StatusMonotone(FormatThresholds, FormatScore(d).score,
                   FormatScore(d.(education := d.education + [e])).score);
  }

  // ---------------------------------------------------------------------
  // The analysis

  datatype ScoreItem = ScoreItem(category: string, score: int, maxScore: int, status: Status, suggestions: seq<Suggestion>)

  datatype ATSAnalysis = ATSAnalysis(
    overallScore: int,
    scoreItems: seq<ScoreItem>,
    keywordDensity: seq<KeywordCount>,
    readabilityScore: int,
    formatScore: int)

  /** The readability score is a fixed placeholder. */
  const ReadabilityScore := 85

  function Item(category: string, maxScore: int, r: CategoryResult): ScoreItem {
    ScoreItem(category, r.score, maxScore, r.status, r.suggestions)
  }

  function TotalScore(items: seq<ScoreItem>): int {
    if items == [] then 0 else items[0].score + TotalScore(items[1..])
  }

  function TotalMaxScore(items: seq<ScoreItem>): int {
    if items == [] then 0 else items[0].maxScore + TotalMaxScore(items[1..])
  }

  /** `Math.round((total / maxTotal) * 100)` on exact rationals: halves round up. */
  function RoundedPercent(total: int, maxTotal: int): int
    requires maxTotal > 0
  {
    (200 * total + maxTotal) / (2 * maxTotal)
  }

  /** The six items in the order they are pushed, with maxima 20/15/25/15/15/10. */
  function Items(contact: CategoryResult, summary: CategoryResult, experience: CategoryResult,
                 education: CategoryResult, skills: CategoryResult, format: CategoryResult): seq<ScoreItem> {
    [] + [Item("Contact Information", 20, contact)]
       + [Item("Professional Summary", 15, summary)]
       + [Item("Work Experience", 25, experience)]
       + [Item("Education", 15, education)]
       + [Item("Skills", 15, skills)]
       + [Item("ATS Format", 10, format)]
  }

  /** The maxima add up to 100 and the total is the sum of the six scores. */
  lemma ItemsTotals(contact: CategoryResult, summary: CategoryResult, experience: CategoryResult,
                    education: CategoryResult, skills: CategoryResult, format: CategoryResult)
    ensures var items := Items(contact, summary, experience, education, skills, format);
      && items == [ Item("Contact Information", 20, contact), Item("Professional Summary", 15, summary),
                    Item("Work Experience", 25, experience), Item("Education", 15, education),
                    Item("Skills", 15, skills), Item("ATS Format", 10, format) ]
      && TotalMaxScore(items) == 100
      && TotalScore(items) == contact.score + summary.score + experience.score
           + education.score + skills.score + format.score
  {
    var items := Items(contact, summary, experience, education, skills, format);
    var t1 := items[1..];
    var t2 := t1[1..];
    var t3 := t2[1..];
    var t4 := t3[1..];
    var t5 := t4[1..];
    assert t5[1..] == [];
    assert TotalScore(t5) == format.score && TotalMaxScore(t5) == 10;
    assert TotalScore(t4) == skills.score + format.score && TotalMaxScore(t4) == 25;
    assert TotalScore(t3) == education.score + skills.score + format.score && TotalMaxScore(t3) == 40;
    assert TotalScore(t2) == experience.score + education.score + skills.score + format.score;
    assert TotalMaxScore(t2) == 65;
    assert TotalScore(t1) == summary.score + experience.score + education.score + skills.score + format.score;
    assert TotalMaxScore(t1) == 80;
  }

  /** The analysis made from the six results and the keyword report. */
  function Assemble(contact: CategoryResult, summary: CategoryResult, experience: CategoryResult,
                    education: CategoryResult, skills: CategoryResult, format: CategoryResult,
                    keywords: seq<KeywordCount>): ATSAnalysis {
    var items := Items(contact, summary, experience, education, skills, format);
    ItemsTotals(contact, summary, experience, education, skills, format);
    ATSAnalysis(RoundedPercent(TotalScore(items), TotalMaxScore(items)), items, keywords, ReadabilityScore, format.score)
  }

  function Analyze(d: Resume): ATSAnalysis {
    Assemble(ContactScore(d.personalInfo), SummaryScore(d.summary), ExperienceScore(d.experience),
             EducationScore(d.education), SkillsScore(d.skills), FormatScore(d), CalculateKeywordDensity(d))
  }

  method PerformATSAnalysis(d: Resume) returns (a: ATSAnalysis)
    ensures a == Analyze(d)
  {
    var scoreItems: seq<ScoreItem> := [];

    var personalInfoScore := CalculatePersonalInfoScore(d.personalInfo);
    scoreItems := scoreItems + [Item("Contact Information", 20, personalInfoScore)];

    var summaryScore := CalculateSummaryScore(d.summary);
    scoreItems := scoreItems + [Item("Professional Summary", 15, summaryScore)];

    var experienceScore := CalculateExperienceScore(d.experience);
    scoreItems := scoreItems + [Item("Work Experience", 25, experienceScore)];

    var educationScore := CalculateEducationScore(d.education);
    scoreItems := scoreItems + [Item("Education", 15, educationScore)];

    var skillsScore := CalculateSkillsScore(d.skills);
    scoreItems := scoreItems + [Item("Skills", 15, skillsScore)];

    var formatScore := CalculateFormatScore(d);
    scoreItems := scoreItems + [Item("ATS Format", 10, formatScore)];

    assert scoreItems == Items(personalInfoScore, summaryScore, experienceScore, educationScore, skillsScore, formatScore);
    ItemsTotals(personalInfoScore, summaryScore, experienceScore, educationScore, skillsScore, formatScore);
    var totalScore := TotalScore(scoreItems);
    var maxTotalScore := TotalMaxScore(scoreItems);
    var overallScore := RoundedPercent(totalScore, maxTotalScore);

    var keywordDensity := CalculateKeywordDensity(d);

    a := ATSAnalysis(overallScore, scoreItems, keywordDensity, ReadabilityScore, formatScore.score);
  }

  /** Rounding a percentage of 100 gives the total back. */
  lemma RoundedPercentOfHundred(total: int)
    ensures RoundedPercent(total, 100) == total
  {
  }

  /** The six items come in the fixed order with maxima 20/15/25/15/15/10
      (100 in all); every score lies in [0, maxScore]; the overall score is
      the plain sum of the six scores and lies in [0, 100]; the format score
      is repeated; the readability score is the placeholder 85. */
  predicate WellFormedAnalysis(a: ATSAnalysis) {
    && |a.scoreItems| == 6
    && a.scoreItems[0].category == "Contact Information" && a.scoreItems[0].maxScore == 20
    && a.scoreItems[1].category == "Professional Summary" && a.scoreItems[1].maxScore == 15
    && a.scoreItems[2].category == "Work Experience" && a.scoreItems[2].maxScore == 25
    && a.scoreItems[3].category == "Education" && a.scoreItems[3].maxScore == 15
    && a.scoreItems[4].category == "Skills" && a.scoreItems[4].maxScore == 15
    && a.scoreItems[5].category == "ATS Format" && a.scoreItems[5].maxScore == 10
    && TotalMaxScore(a.scoreItems) == 100
    && (forall i | 0 <= i < 6 :: 0 <= a.scoreItems[i].score <= a.scoreItems[i].maxScore)
    && a.overallScore == TotalScore(a.scoreItems)
    && 0 <= a.overallScore <= 100
    && a.formatScore == a.scoreItems[5].score
    && a.readabilityScore == 85
  }

  /** Six results within their maxima make a well-formed analysis that keeps
      the keyword report as given. */
  lemma AssembleProperties(contact: CategoryResult, summary: CategoryResult, experience: CategoryResult,
                           education: CategoryResult, skills: CategoryResult, format: CategoryResult,
                           keywords: seq<KeywordCount>)
    requires 0 <= contact.score <= 20 && 0 <= summary.score <= 15 && 0 <= experience.score <= 25
    requires 0 <= education.score <= 15 && 0 <= skills.score <= 15 && 0 <= format.score <= 10
    ensures var a := Assemble(contact, summary, experience, education, skills, format, keywords);
      WellFormedAnalysis(a) && a.keywordDensity == keywords
  {
    ItemsTotals(contact, summary, experience, education, skills, format);
    var items := Items(contact, summary, experience, education, skills, format);
    RoundedPercentOfHundred(TotalScore(items));
  }

  /** Every analysis of a resume is well formed. */
  lemma AnalysisProperties(d: Resume)
    ensures WellFormedAnalysis(Analyze(d))
  {
    ContactScoreProperties(d.personalInfo);
    SummaryScoreProperties(d.summary);
    ExperienceScoreProperties(d.experience);
    EducationScoreProperties(d.education);
    SkillsScoreProperties(d.skills);
    FormatScoreProperties(d);
    AssembleProperties(ContactScore(d.personalInfo), SummaryScore(d.summary), ExperienceScore(d.experience),
                       EducationScore(d.education), SkillsScore(d.skills), FormatScore(d), CalculateKeywordDensity(d));
  }

  /** Each scorer gives 0 and `Poor` on the empty resume. */
  lemma EmptyResumeCategories()
    ensures ContactScore(EmptyPersonalInfo).score == 0 && ContactScore(EmptyPersonalInfo).status == Poor
    ensures SummaryScore("").score == 0 && SummaryScore("").status == Poor
    ensures ExperienceScore([]).score == 0 && ExperienceScore([]).status == Poor
    ensures EducationScore([]).score == 0 && EducationScore([]).status == Poor
    ensures SkillsScore([]).score == 0 && SkillsScore([]).status == Poor
    ensures FormatScore(InitialResume).score == 0 && FormatScore(InitialResume).status == Poor
  {
    assert !HasBulletMarks([]);
  }

  /** Six results that are all 0 and `Poor` give an overall score of 0. */
  lemma AssembleAllPoor(contact: CategoryResult, summary: CategoryResult, experience: CategoryResult,
                        education: CategoryResult, skills: CategoryResult, format: CategoryResult,
                        keywords: seq<KeywordCount>)
    requires contact.score == 0 && summary.score == 0 && experience.score == 0
    requires education.score == 0 && skills.score == 0 && format.score == 0
    requires contact.status == Poor && summary.status == Poor && experience.status == Poor
    requires education.status == Poor && skills.status == Poor && format.status == Poor
    ensures var a := Assemble(contact, summary, experience, education, skills, format, keywords);
      && a.overallScore == 0
      && forall i | 0 <= i < |a.scoreItems| :: a.scoreItems[i].score == 0 && a.scoreItems[i].status == Poor
  {
    ItemsTotals(contact, summary, experience, education, skills, format);
  }

  /** The empty resume scores 0 and is poor in every category. */
  lemma EmptyResumeAnalysis()
    ensures var a := Analyze(InitialResume);
      && a.overallScore == 0
      && forall i | 0 <= i < |a.scoreItems| :: a.scoreItems[i].score == 0 && a.scoreItems[i].status == Poor
  {
    var d := InitialResume;
    EmptyResumeCategories();
    AssembleAllPoor(ContactScore(d.personalInfo), SummaryScore(d.summary), ExperienceScore(d.experience),
                    EducationScore(d.education), SkillsScore(d.skills), FormatScore(d), CalculateKeywordDensity(d));
  }

  /** The analysis is started only once a full name, a summary or an
      experience entry is there. */
  predicate ShouldAnalyze(d: Resume) {
    Truthy(d.personalInfo.fullName) || Truthy(d.summary) || |d.experience| > 0
  }

  lemma EmptyResumeNotAnalyzed()
    ensures !ShouldAnalyze(InitialResume)
  {
  }
}
