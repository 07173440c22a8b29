/** Keyword density of a resume (`calculateKeywordDensity`): the lower-cased
    text of the summary, of every experience's position and description and
    of every skill item is searched for a fixed vocabulary; the terms found
    are sorted by decreasing count, ties in vocabulary order, and the first
    ten are kept. */
module KeywordDensity {
  import opened Text
  import opened ResumeData

  datatype KeywordCount = KeywordCount(keyword: string, count: nat)

  /** The sixteen terms that are counted, in the order the sort keeps for ties. */
  const CommonKeywords: seq<string> := [
    "management", "leadership", "development", "analysis",
    "project", "team", "communication", "problem-solving",
    "strategic", "innovative", "results", "experience",
    "skills", "technical", "business", "customer"
  ]

  /** At most this many terms are reported. */
  const MaxReported := 10

  /** `${exp.position} ${exp.description}` for every experience, in order. */
  function ExperienceTexts(experience: seq<Experience>): (r: seq<string>)
    ensures |r| == |experience|
    ensures forall i | 0 <= i < |experience| ::
      r[i] == experience[i].position + " " + experience[i].description
  {
    if experience == [] then []
    else [experience[0].position + " " + experience[0].description] + ExperienceTexts(experience[1..])
  }

  /** `skills.flatMap((skill) => skill.items)`. */
  function SkillItems(skills: seq<SkillCategory>): seq<string> {
    if skills == [] then [] else skills[0].items + SkillItems(skills[1..])
  }

  /** The text that is searched: the parts joined by single spaces, lower-cased. */
  function AnalysisText(d: Resume): string {
    ToLower(Join([d.summary] + ExperienceTexts(d.experience) + SkillItems(d.skills), " "))
  }

  /** One count per keyword, in keyword order. */
  function CountKeywords(text: string, keywords: seq<string>): (r: seq<KeywordCount>)
    requires forall k | 0 <= k < |keywords| :: keywords[k] != ""
    ensures |r| == |keywords|
    ensures forall k | 0 <= k < |keywords| ::
      r[k].keyword == keywords[k] && r[k].count == CountMatches(text, keywords[k])
  {
    if keywords == [] then []
    else [KeywordCount(keywords[0], CountMatches(text, keywords[0]))] + CountKeywords(text, keywords[1..])
  }

  /** `.filter((item) => item.count > 0)`. */
  function Positive(cs: seq<KeywordCount>): (r: seq<KeywordCount>)
    ensures forall i | 0 <= i < |r| :: r[i].count > 0 && r[i] in cs
  {
    if cs == [] then []
    else if cs[0].count > 0 then [cs[0]] + Positive(cs[1..])
    else Positive(cs[1..])
  }

  /** Inserts `x` after every entry with a strictly larger count: the step of a
      stable sort by `b.count - a.count` when `x` came first in the input. */
  function Insert(x: KeywordCount, sorted: seq<KeywordCount>): (r: seq<KeywordCount>)
    ensures |r| == |sorted| + 1
    ensures multiset(r) == multiset{x} + multiset(sorted)
  {
    if sorted == [] || sorted[0].count <= x.count then [x] + sorted
    else
      assert sorted == [sorted[0]] + sorted[1..];
      [sorted[0]] + Insert(x, sorted[1..])
  }

  /** `.sort((a, b) => b.count - a.count)`, which JavaScript performs stably. */
  function SortByCount(cs: seq<KeywordCount>): (r: seq<KeywordCount>)
    ensures multiset(r) == multiset(cs)
  {
    if cs == [] then []
    else
      assert cs == [cs[0]] + cs[1..];
      Insert(cs[0], SortByCount(cs[1..]))
  }

  /** `.filter(...).sort(...).slice(0, 10)` applied to the counts. */
  function Report(counts: seq<KeywordCount>): seq<KeywordCount> {
    var sorted := SortByCount(Positive(counts));
    if |sorted| <= MaxReported then sorted else sorted[..MaxReported]
  }

  /** The reported list. */
  function CalculateKeywordDensity(d: Resume): seq<KeywordCount> {
    Report(CountKeywords(AnalysisText(d), CommonKeywords))
  }

  // ---------------------------------------------------------------------
  // Properties of the sort

  predicate SortedByCount(s: seq<KeywordCount>) {
    forall i, j | 0 <= i < j < |s| :: s[i].count >= s[j].count
  }

  /** The entries that have count `c`, in their order. A sort is stable when
      this is the same before and after, for every `c`. */
  function WithCount(s: seq<KeywordCount>, c: nat): (r: seq<KeywordCount>)
    ensures forall i | 0 <= i < |r| :: r[i].count == c
  {
    if s == [] then []
    else (if s[0].count == c then [s[0]] else []) + WithCount(s[1..], c)
  }

  /** The first entry with count `c` is an entry of `s`. */
  lemma {:induction false} WithCountFirst(s: seq<KeywordCount>, c: nat)
    requires WithCount(s, c) != []
    ensures WithCount(s, c)[0] in s
  {
    if s[0].count != c {
      WithCountFirst(s[1..], c);
    }
  }

  predicate DistinctKeywords(s: seq<KeywordCount>) {
    forall i, j | 0 <= i < j < |s| :: s[i].keyword != s[j].keyword
  }

  lemma {:induction false} InsertSorted(x: KeywordCount, t: seq<KeywordCount>)
    requires SortedByCount(t)
    ensures SortedByCount(Insert(x, t))
  {
    if t != [] && t[0].count > x.count {
      InsertSorted(x, t[1..]);
      var r := Insert(x, t);
      forall j | 0 < j < |r| ensures r[0].count >= r[j].count {
        var y := r[j];
        assert y in Insert(x, t[1..]);
        assert y in multiset(Insert(x, t[1..]));
        if y != x {
          assert y in multiset(t[1..]);
          var k :| 0 <= k < |t[1..]| && t[1..][k] == y;
          assert t[k + 1] == y;
        }
      }
    }
  }

  lemma {:induction false} InsertWithCount(x: KeywordCount, t: seq<KeywordCount>, c: nat)
    ensures WithCount(Insert(x, t), c) == (if x.count == c then [x] else []) + WithCount(t, c)
  {
    if t == [] || t[0].count <= x.count {
      assert ([x] + t)[0] == x && ([x] + t)[1..] == t;
    } else {
      var rest := Insert(x, t[1..]);
      InsertWithCount(x, t[1..], c);
      assert ([t[0]] + rest)[0] == t[0] && ([t[0]] + rest)[1..] == rest;
      assert WithCount(t, c) == (if t[0].count == c then [t[0]] else []) + WithCount(t[1..], c);
      if x.count == c {
        assert t[0].count != c;
      }
    }
  }

  lemma {:induction false} InsertDistinct(x: KeywordCount, t: seq<KeywordCount>)
    requires DistinctKeywords(t)
    requires forall i | 0 <= i < |t| :: t[i].keyword != x.keyword
    ensures DistinctKeywords(Insert(x, t))
  {
    if t == [] || t[0].count <= x.count {
    } else {
      InsertDistinct(x, t[1..]);
      var r := Insert(x, t);
      forall j | 0 < j < |r| ensures r[0].keyword != r[j].keyword {
        var y := r[j];
        assert y in multiset(Insert(x, t[1..]));
        if y != x {
          assert y in multiset(t[1..]);
          var k :| 0 <= k < |t[1..]| && t[1..][k] == y;
          assert t[k + 1] == y;
        }
      }
    }
  }

  /** The sort orders by decreasing count. */
  lemma {:induction false} SortSorted(s: seq<KeywordCount>)
    ensures SortedByCount(SortByCount(s))
  {
    if s != [] {
      SortSorted(s[1..]);
      InsertSorted(s[0], SortByCount(s[1..]));
    }
  }

  /** The sort is stable: entries of equal count keep their relative order. */
  lemma {:induction false} SortStable(s: seq<KeywordCount>, c: nat)
    ensures WithCount(SortByCount(s), c) == WithCount(s, c)
  {
    if s != [] {
      SortStable(s[1..], c);
      InsertWithCount(s[0], SortByCount(s[1..]), c);
    }
  }

  lemma {:induction false} SortDistinct(s: seq<KeywordCount>)
    requires DistinctKeywords(s)
    ensures DistinctKeywords(SortByCount(s))
  {
    if s != [] {
      SortDistinct(s[1..]);
      var t := SortByCount(s[1..]);
      forall i | 0 <= i < |t| ensures t[i].keyword != s[0].keyword {
        assert t[i] in multiset(s[1..]);
        var k :| 0 <= k < |s[1..]| && s[1..][k] == t[i];
        assert s[k + 1] == t[i];
      }
      InsertDistinct(s[0], t);
    }
  }

  lemma {:induction false} PositiveDistinct(s: seq<KeywordCount>)
    requires DistinctKeywords(s)
    ensures DistinctKeywords(Positive(s))
  {
    if s != [] {
      PositiveDistinct(s[1..]);
      var r := Positive(s[1..]);
      forall i | 0 <= i < |r| ensures r[i].keyword != s[0].keyword {
        var k :| 0 <= k < |s[1..]| && s[1..][k] == r[i];
        assert s[k + 1] == r[i];
      }
    }
  }

  /** An entry with a positive count survives the filter. */
  lemma {:induction false} PositiveKeeps(s: seq<KeywordCount>, x: KeywordCount)
    requires x in s && x.count > 0
    ensures x in Positive(s)
  {
    if s[0] != x {
      PositiveKeeps(s[1..], x);
    }
  }

  lemma {:induction false} PositiveWithCount(s: seq<KeywordCount>, c: nat)
    requires c > 0
    ensures WithCount(Positive(s), c) == WithCount(s, c)
  {
    if s != [] {
      PositiveWithCount(s[1..], c);
      if s[0].count > 0 {
        assert ([s[0]] + Positive(s[1..]))[1..] == Positive(s[1..]);
      }
    }
  }

  /** Keeping a prefix keeps a prefix of each count class. */
  lemma {:induction false} WithCountPrefix(s: seq<KeywordCount>, n: nat, c: nat)
    requires n <= |s|
    ensures WithCount(s[..n], c) <= WithCount(s, c)
  {
    if n > 0 {
      WithCountPrefix(s[1..], n - 1, c);
      assert s[..n][1..] == s[1..][..n - 1];
    }
  }

  lemma CommonKeywordsDistinct()
    ensures forall i, j | 0 <= i < j < |CommonKeywords| :: CommonKeywords[i] != CommonKeywords[j]
  {
  }

  /** Every reported entry is one of the counts, with a positive count, and
      at most ten are reported. */
  lemma ReportFromCounts(counts: seq<KeywordCount>)
    ensures var r := Report(counts);
      |r| <= MaxReported && forall i | 0 <= i < |r| :: r[i] in counts && r[i].count > 0
  {
    var pos := Positive(counts);
    var sorted := SortByCount(pos);
    var r := Report(counts);
    forall i | 0 <= i < |r| ensures r[i] in counts && r[i].count > 0 {
      assert r[i] == sorted[i];
      assert r[i] in multiset(pos);
      assert r[i] in pos;
    }
  }

  lemma ReportDistinct(counts: seq<KeywordCount>)
    requires DistinctKeywords(counts)
    ensures DistinctKeywords(Report(counts))
  {
    PositiveDistinct(counts);
    SortDistinct(Positive(counts));
  }

  lemma ReportSorted(counts: seq<KeywordCount>)
    ensures SortedByCount(Report(counts))
  {
    SortSorted(Positive(counts));
  }

  /** For each count, the reported entries with that count are the first
      entries of the input with that count, in input order. */
  lemma ReportStable(counts: seq<KeywordCount>, c: nat)
    ensures WithCount(Report(counts), c) <= WithCount(counts, c)
  {
    var sorted := SortByCount(Positive(counts));
    var r := Report(counts);
    assert r == sorted[..|r|];
    WithCountPrefix(sorted, |r|, c);
    SortStable(Positive(counts), c);
    if c > 0 {
      PositiveWithCount(counts, c);
    } else if WithCount(r, c) != [] {
      var y := WithCount(r, c)[0];
      WithCountFirst(r, c);
      ReportFromCounts(counts);
    }
  }

  /** An entry with a positive count that is not reported was crowded out by
      ten entries whose counts are at least as large. */
  lemma ReportComplete(counts: seq<KeywordCount>, x: KeywordCount)
    requires x in counts && x.count > 0
    requires forall i | 0 <= i < |Report(counts)| :: Report(counts)[i].keyword != x.keyword
    ensures |Report(counts)| == MaxReported
    ensures forall i | 0 <= i < |Report(counts)| :: Report(counts)[i].count >= x.count
  {
    var pos := Positive(counts);
    var sorted := SortByCount(pos);
    var r := Report(counts);
    assert x in sorted by {
      PositiveKeeps(counts, x);
      assert x in multiset(pos);
    }
    var m :| 0 <= m < |sorted| && sorted[m] == x;
    forall i | 0 <= i < |r| ensures sorted[i].keyword != x.keyword {
      assert r[i] == sorted[i];
    }
    AfterPrefix(sorted, |r|, m, x.keyword);
    SortSorted(pos);
    forall i | 0 <= i < |r| ensures r[i].count >= x.count {
      assert r[i] == sorted[i];
    }
  }

  /** An entry whose keyword is not among the first `n` comes after them. */
  lemma AfterPrefix(s: seq<KeywordCount>, n: nat, m: nat, keyword: string)
    requires n <= |s| && m < |s| && s[m].keyword == keyword
    requires forall i | 0 <= i < n :: s[i].keyword != keyword
    ensures m >= n
  {
  }

  /** Every reported entry is a vocabulary term together with its number
      of non-overlapping occurrences in the searched text. */
  lemma ReportedCounts(text: string)
    ensures var r := Report(CountKeywords(text, CommonKeywords));
      forall i | 0 <= i < |r| ::
        r[i].keyword in CommonKeywords && r[i].count == CountMatches(text, r[i].keyword)
  {
    var all := CountKeywords(text, CommonKeywords);
    var r := Report(all);
    ReportFromCounts(all);
    forall i | 0 <= i < |r|
      ensures r[i].keyword in CommonKeywords && r[i].count == CountMatches(text, r[i].keyword)
    {
      var k :| 0 <= k < |all| && all[k] == r[i];
      assert all[k].keyword == CommonKeywords[k];
    }
  }

  /** The vocabulary has no term twice, so neither do its counts. */
  lemma CountsDistinct(text: string)
    ensures DistinctKeywords(CountKeywords(text, CommonKeywords))
  {
    CommonKeywordsDistinct();
  }

  /** What the reported list is: at most ten entries, each a vocabulary term
      with its (positive) number of non-overlapping occurrences in the text, no
      term twice, counts non-increasing, entries of equal count in vocabulary
      order. */
  lemma KeywordDensityProperties(d: Resume)
    ensures var r, text := CalculateKeywordDensity(d), AnalysisText(d);
      && |r| <= MaxReported
      && (forall i | 0 <= i < |r| ::
            r[i].keyword in CommonKeywords && r[i].count > 0
            && r[i].count == CountMatches(text, r[i].keyword))
      && DistinctKeywords(r)
      && SortedByCount(r)
      && (forall c: nat :: WithCount(r, c) <= WithCount(CountKeywords(text, CommonKeywords), c))
  {
    var text := AnalysisText(d);
    var all := CountKeywords(text, CommonKeywords);
    ReportFromCounts(all);
    ReportedCounts(text);
    CountsDistinct(text);
    ReportDistinct(all);
    ReportSorted(all);
    forall c: nat ensures WithCount(Report(all), c) <= WithCount(all, c) {
      ReportStable(all, c);
    }
  }

  /** No vocabulary term that occurs in the text is left out unless ten terms
      with counts at least as large are reported. */
  lemma KeywordDensityTopTen(d: Resume, k: nat)
    requires k < |CommonKeywords|
    requires CountMatches(AnalysisText(d), CommonKeywords[k]) > 0
    requires forall i | 0 <= i < |CalculateKeywordDensity(d)| ::
      CalculateKeywordDensity(d)[i].keyword != CommonKeywords[k]
    ensures |CalculateKeywordDensity(d)| == MaxReported
    ensures forall i | 0 <= i < MaxReported ::
      CalculateKeywordDensity(d)[i].count >= CountMatches(AnalysisText(d), CommonKeywords[k])
  {
    var text := AnalysisText(d);
    var all := CountKeywords(text, CommonKeywords);
    var x := all[k];
    assert x.keyword == CommonKeywords[k] && x.count == CountMatches(text, CommonKeywords[k]);
    assert x in all;
    assert CalculateKeywordDensity(d) == Report(all);
    ReportComplete(all, x);
  }
}
