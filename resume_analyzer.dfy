/** The deterministic part of the backend's `ResumeAnalyzer`: skill extraction,
    missing-section detection, experience analysis, the overall score and the
    recommendations. Every method takes the resume text already lower-cased,
    as `analyze_resume` passes it. */
module ResumeAnalyzer {
  import opened Text
  import opened NumberPattern

  /** A skill category with its declared skills, in declaration order. */
  datatype Category = Category(name: string, skills: seq<string>)

  const TechnicalSkills: seq<Category> := [
    Category("programming_languages", [
      "python", "java", "javascript", "typescript", "c++", "c#", "php", "ruby", "go", "rust",
      "swift", "kotlin", "scala", "r", "matlab", "sql", "html", "css", "bash", "powershell"]),
    Category("frameworks", [
      "react", "angular", "vue", "django", "flask", "express", "spring", "laravel",
      "rails", "asp.net", "bootstrap", "tailwind", "jquery", "node.js", "next.js"]),
    Category("databases", [
      "mysql", "postgresql", "mongodb", "redis", "elasticsearch", "sqlite", "oracle",
      "cassandra", "dynamodb", "firebase"]),
    Category("cloud_tools", [
      "aws", "azure", "gcp", "docker", "kubernetes", "jenkins", "git", "github",
      "gitlab", "terraform", "ansible", "nginx", "apache"]),
    Category("data_science", [
      "pandas", "numpy", "scikit-learn", "tensorflow", "pytorch", "keras",
      "matplotlib", "seaborn", "tableau", "power bi", "jupyter", "spark"])
  ]

  /** A resume section and the phrases whose presence counts as having it. */
  datatype Section = Section(name: string, patterns: seq<string>)

  const SectionPatterns: seq<Section> := [
    Section("summary", ["summary", "profile", "about"]),
    Section("objective", ["objective", "career objective"]),
    Section("experience", ["experience", "work experience", "employment", "professional experience"]),
    Section("education", ["education", "academic", "degree", "university", "college"]),
    Section("skills", ["skills", "technical skills", "competencies"]),
    Section("projects", ["projects", "portfolio", "work samples"])
  ]

  const ActionWords: seq<string> := [
    "managed", "led", "developed", "created", "implemented", "designed", "built",
    "optimized", "improved", "increased", "reduced", "achieved", "delivered",
    "coordinated", "supervised", "analyzed", "collaborated", "established"
  ]

  // ---------------------------------------------------------------------------
  // Reference definitions

  /** The words of `words` that occur in `text`, in the order of `words`. */
  function Present(words: seq<string>, text: string): seq<string> {
    if words == [] then []
    else
      var last := words[|words| - 1];
      Present(words[..|words| - 1], text) + (if Contains(text, last) then [last] else [])
  }

  lemma {:induction false} PresentMembers(words: seq<string>, text: string)
    ensures |Present(words, text)| <= |words|
    ensures forall w :: w in Present(words, text) <==> w in words && Contains(text, w)
  {
    if words != [] {
      var init, last := words[..|words| - 1], words[|words| - 1];
      PresentMembers(init, text);
      assert words == init + [last];
    }
  }

  /** Python's `any(pattern in text for pattern in patterns)`. */
  function AnyOccurs(patterns: seq<string>, text: string): (r: bool)
    ensures r <==> exists p :: p in patterns && Contains(text, p)
  {
    if patterns == [] then false
    else Contains(text, patterns[0]) || AnyOccurs(patterns[1..], text)
  }

  /** The names of the sections of `table` none of whose patterns occurs, in table order. */
  function Missing(table: seq<Section>, text: string): seq<string> {
    if table == [] then []
    else
      var last := table[|table| - 1];
      Missing(table[..|table| - 1], text) + (if AnyOccurs(last.patterns, text) then [] else [last.name])
  }

  lemma {:induction false} MissingMembers(table: seq<Section>, text: string)
    ensures |Missing(table, text)| <= |table|
    ensures forall s :: s in Missing(table, text) <==>
      exists k :: 0 <= k < |table| && table[k].name == s && !AnyOccurs(table[k].patterns, text)
  {
    if table != [] {
      var init, last := table[..|table| - 1], table[|table| - 1];
      MissingMembers(init, text);
      forall s ensures s in Missing(table, text) <==>
        exists k :: 0 <= k < |table| && table[k].name == s && !AnyOccurs(table[k].patterns, text)
      {
        if s in Missing(init, text) {
          var k :| 0 <= k < |init| && init[k].name == s && !AnyOccurs(init[k].patterns, text);
          assert table[k] == init[k];
        }
        if exists k :: 0 <= k < |table| && table[k].name == s && !AnyOccurs(table[k].patterns, text) {
          var k :| 0 <= k < |table| && table[k].name == s && !AnyOccurs(table[k].patterns, text);
          if k < |init| {
            assert init[k] == table[k];
          }
        }
      }
    }
  }

  // ---------------------------------------------------------------------------
  // extract_skills

  /** The skills of one category found in the text. */
  datatype CategoryHits = CategoryHits(name: string, found: seq<string>)

  /** The categories in declaration order, and `total_count`. */
  datatype SkillsFound = SkillsFound(categories: seq<CategoryHits>, totalCount: nat)

  /** The sum of the lengths of the categories' lists. */
  function HitCount(cats: seq<CategoryHits>): nat {
    if cats == [] then 0 else HitCount(cats[..|cats| - 1]) + |cats[|cats| - 1].found|
  }

  method ExtractSkills(text: string) returns (skills: SkillsFound)
    ensures |skills.categories| == |TechnicalSkills|
    ensures forall c :: 0 <= c < |TechnicalSkills| ==>
      skills.categories[c] == CategoryHits(TechnicalSkills[c].name, Present(TechnicalSkills[c].skills, text))
    ensures forall c, w :: 0 <= c < |TechnicalSkills| ==>
      (w in skills.categories[c].found <==> w in TechnicalSkills[c].skills && Contains(text, w))
    ensures skills.totalCount == HitCount(skills.categories)
  {
    var categories: seq<CategoryHits> := [];
    var total := 0;
    for c := 0 to |TechnicalSkills|
      invariant |categories| == c
      invariant forall k :: 0 <= k < c ==>
        categories[k] == CategoryHits(TechnicalSkills[k].name, Present(TechnicalSkills[k].skills, text))
      invariant total == HitCount(categories)
    {
      var category := TechnicalSkills[c];
      var found: seq<string> := [];
      for s := 0 to |category.skills|
        invariant found == Present(category.skills[..s], text)
        invariant total == HitCount(categories) + |found|
      {
        var skill := category.skills[s];
        assert category.skills[..s + 1][..s] == category.skills[..s];
        if Contains(text, skill) {
          found := found + [skill];
          total := total + 1;
        }
      }
      assert category.skills[..|category.skills|] == category.skills;
      var before := categories;
      categories := categories + [CategoryHits(category.name, found)];
      assert categories[..|categories| - 1] == before;
    }
    skills := SkillsFound(categories, total);
    forall c | 0 <= c < |TechnicalSkills|
      ensures forall w :: w in skills.categories[c].found <==> w in TechnicalSkills[c].skills && Contains(text, w)
    {
      PresentMembers(TechnicalSkills[c].skills, text);
    }
  }

  // ---------------------------------------------------------------------------
  // check_missing_sections

  method CheckMissingSections(text: string) returns (missing: seq<string>)
    ensures missing == Missing(SectionPatterns, text)
    ensures |missing| <= |SectionPatterns|
    ensures forall s :: s in missing <==>
      exists k :: 0 <= k < |SectionPatterns| && SectionPatterns[k].name == s
                  && forall p :: p in SectionPatterns[k].patterns ==> !Contains(text, p)
  {
    missing := [];
    for k := 0 to |SectionPatterns|
      invariant missing == Missing(SectionPatterns[..k], text)
    {
      var section := SectionPatterns[k];
      assert SectionPatterns[..k + 1][..k] == SectionPatterns[..k];
      var found := AnyOccurs(section.patterns, text);
      if !found {
        missing := missing + [section.name];
      }
    }
    assert SectionPatterns[..|SectionPatterns|] == SectionPatterns;
    MissingMembers(SectionPatterns, text);
  }

  // ---------------------------------------------------------------------------
  // analyze_experience

  datatype ExperienceAnalysis = ExperienceAnalysis(
    actionWords: seq<string>,
    actionWordsCount: nat,
    quantifiableAchievements: nat,
    numbersFound: seq<string>)

  function Min(a: int, b: int): int {
    if a <= b then a else b
  }

  method AnalyzeExperience(text: string) returns (experience: ExperienceAnalysis)
    ensures experience.actionWords == Present(ActionWords, text)
    ensures forall w :: w in experience.actionWords <==> w in ActionWords && Contains(text, w)
    ensures experience.actionWordsCount == |experience.actionWords| <= |ActionWords|
    ensures experience.quantifiableAchievements == |NumberMatches(text)|
    ensures experience.quantifiableAchievements == 0 <==> forall k :: 0 <= k < |text| ==> !IsDigit(text[k])
    ensures |experience.numbersFound| == Min(10, experience.quantifiableAchievements)
    ensures experience.numbersFound == NumberMatches(text)[..|experience.numbersFound|]
    ensures forall m :: m in experience.numbersFound ==> IsNumberToken(m)
  {
    var found: seq<string> := [];
    for i := 0 to |ActionWords|
      invariant found == Present(ActionWords[..i], text)
    {
      var word := ActionWords[i];
      assert ActionWords[..i + 1][..i] == ActionWords[..i];
      if Contains(text, word) {
        found := found + [word];
      }
    }
    assert ActionWords[..|ActionWords|] == ActionWords;
    PresentMembers(ActionWords, text);
    var numbers := NumberMatches(text);
    assert |numbers| == 0 <==> forall k :: 0 <= k < |text| ==> !IsDigit(text[k]) by {
      NoMatchesIffNoDigits(text);
    }
    var first := numbers[..Min(10, |numbers|)];
    assert forall m :: m in first ==> IsNumberToken(m) by {
      NumberMatchesAreNumberTokens(text);
      assert forall m :: m in first ==> m in numbers;
    }
    experience := ExperienceAnalysis(found, |found|, |numbers|, first);
  }

  // ---------------------------------------------------------------------------
  // calculate_overall_score

  /** Skills part, out of 30: two points per skill found. */
  function SkillsPoints(totalCount: nat): (p: nat)
    ensures p <= 30 && p <= 2 * totalCount
    ensures p < 30 ==> p == 2 * totalCount
  {
    Min(totalCount * 2, 30)
  }

  /** Sections part, out of 25: five points off per missing section. */
  function SectionPoints(missingCount: nat): (p: nat)
    ensures p <= 25 && p % 5 == 0
    ensures p > 0 ==> p == 25 - 5 * missingCount
    ensures p == 0 <==> missingCount >= 5
  {
    if 25 - missingCount * 5 > 0 then 25 - missingCount * 5 else 0
  }

  /** Experience part, out of 25: two points per action word plus one per number. */
  function ExperiencePoints(actionWordsCount: nat, quantifiable: nat): (p: nat)
    ensures p <= 25 && p <= 2 * actionWordsCount + quantifiable
    ensures p < 25 ==> p == 2 * actionWordsCount + quantifiable
  {
    Min(actionWordsCount * 2 + quantifiable, 25)
  }

  /** Readability part, out of 20, from the Flesch reading ease. */
  function ReadabilityPoints(readability: real): (p: nat)
    ensures 10 <= p <= 20 && p % 5 == 0
    ensures p == 20 <==> readability >= 60.0
    ensures p == 10 <==> readability < 30.0
  {
    if readability >= 60.0 then 20
    else if readability >= 30.0 then 15
    else 10
  }

  /** The overall score as the sum of its four parts. */
  function OverallScore(totalCount: nat, missingCount: nat, actionWordsCount: nat, quantifiable: nat, readability: real): int {
    SkillsPoints(totalCount) + SectionPoints(missingCount)
    + ExperiencePoints(actionWordsCount, quantifiable) + ReadabilityPoints(readability)
  }

  method CalculateOverallScore(skills: SkillsFound, missingSections: seq<string>,
                               experience: ExperienceAnalysis, readability: real)
    returns (score: int)
    ensures score == OverallScore(skills.totalCount, |missingSections|,
                                  experience.actionWordsCount, experience.quantifiableAchievements, readability)
    ensures 10 <= score <= 100
  {
    score := 0;
    var skillsScore := Min(skills.totalCount * 2, 30);
    score := score + skillsScore;
    var sectionsScore := if 25 - |missingSections| * 5 > 0 then 25 - |missingSections| * 5 else 0;
    score := score + sectionsScore;
    var expScore := Min(experience.actionWordsCount * 2 + experience.quantifiableAchievements, 25);
    score := score + expScore;
    var readScore;
    if readability >= 60.0 {
      readScore := 20;
    } else if readability >= 30.0 {
      readScore := 15;
    } else {
      readScore := 10;
    }
    score := score + readScore;
    score := Min(score, 100);
  }

  /** More skills, fewer missing sections, more action words or numbers and a
      higher readability never lower the score. */
  lemma OverallScoreMonotone(t1: nat, t2: nat, m1: nat, m2: nat, a1: nat, a2: nat, q1: nat, q2: nat, r1: real, r2: real)
    requires t1 <= t2 && m2 <= m1 && a1 <= a2 && q1 <= q2 && r1 <= r2
    ensures OverallScore(t1, m1, a1, q1, r1) <= OverallScore(t2, m2, a2, q2, r2)
  {
  }

  // ---------------------------------------------------------------------------
  // generate_recommendations

  // Proof device: each message is written as two literals joined. The joined
  // text is the message the backend sends; the split exists because the
  // verifier expands only short string literals into their characters, and
  // `TipsDistinct` needs the first character of each message.
  const MoreSkillsTip := "Add more technical skills " + "to improve your profile visibility."
  const ActionWordsTip := "Use more action words " + "to describe your achievements."
  const QuantifyTip := "Include more quantifiable achievements " + "with numbers and percentages."

  function MissingSectionsTip(missingSections: seq<string>): string {
    "Consider adding " + "these missing sections: " + Join(missingSections, ", ")
  }

  /** The place of a recommendation in the fixed order of the four checks. */
  function TipRank(tip: string): nat {
    if tip == MoreSkillsTip then 0
    else if tip == ActionWordsTip then 2
    else if tip == QuantifyTip then 3
    else 1
  }

  lemma TipsDistinct(missingSections: seq<string>)
    ensures MissingSectionsTip(missingSections) != MoreSkillsTip
    ensures MissingSectionsTip(missingSections) != ActionWordsTip
    ensures MissingSectionsTip(missingSections) != QuantifyTip
  {
    var tip := MissingSectionsTip(missingSections);
    assert tip[0] == 'C';
    assert MoreSkillsTip[0] == 'A' && ActionWordsTip[0] == 'U' && QuantifyTip[0] == 'I';
  }

  method GenerateRecommendations(skills: SkillsFound, missingSections: seq<string>, experience: ExperienceAnalysis)
    returns (recommendations: seq<string>)
    ensures |recommendations| <= 4
    ensures MoreSkillsTip in recommendations <==> skills.totalCount < 10
    ensures MissingSectionsTip(missingSections) in recommendations <==> |missingSections| > 0
    ensures ActionWordsTip in recommendations <==> experience.actionWordsCount < 5
    ensures QuantifyTip in recommendations <==> experience.quantifiableAchievements < 3
    ensures recommendations == [] <==>
      skills.totalCount >= 10 && missingSections == [] &&
      experience.actionWordsCount >= 5 && experience.quantifiableAchievements >= 3
    ensures forall r :: r in recommendations ==>
      r in {MoreSkillsTip, MissingSectionsTip(missingSections), ActionWordsTip, QuantifyTip}
    ensures forall i, j :: 0 <= i < j < |recommendations| ==> TipRank(recommendations[i]) < TipRank(recommendations[j])
  {
    TipsDistinct(missingSections);
    recommendations := [];
    if skills.totalCount < 10 {
      recommendations := recommendations + [MoreSkillsTip];
    }
    if |missingSections| > 0 {
      recommendations := recommendations + [MissingSectionsTip(missingSections)];
    }
    if experience.actionWordsCount < 5 {
      recommendations := recommendations + [ActionWordsTip];
    }
    if experience.quantifiableAchievements < 3 {
      recommendations := recommendations + [QuantifyTip];
    }
  }

  // ---------------------------------------------------------------------------
  // analyze_resume

  /** The analysis the backend stores and returns, without `word_frequency`. */
  datatype ResumeAnalysis = ResumeAnalysis(
    skills: SkillsFound,
    missingSections: seq<string>,
    experienceAnalysis: ExperienceAnalysis,
    readabilityScore: real,
    overallScore: int,
    recommendations: seq<string>)

  method AnalyzeResume(textLower: string, readability: real) returns (analysis: ResumeAnalysis)
    ensures |analysis.skills.categories| == |TechnicalSkills|
    ensures forall c :: 0 <= c < |TechnicalSkills| ==>
      analysis.skills.categories[c] == CategoryHits(TechnicalSkills[c].name, Present(TechnicalSkills[c].skills, textLower))
    ensures analysis.skills.totalCount == HitCount(analysis.skills.categories)
    ensures analysis.missingSections == Missing(SectionPatterns, textLower)
    ensures analysis.experienceAnalysis.actionWords == Present(ActionWords, textLower)
    ensures analysis.experienceAnalysis.actionWordsCount == |analysis.experienceAnalysis.actionWords|
    ensures analysis.experienceAnalysis.quantifiableAchievements == |NumberMatches(textLower)|
    ensures analysis.experienceAnalysis.numbersFound ==
      NumberMatches(textLower)[..Min(10, |NumberMatches(textLower)|)]
    ensures analysis.readabilityScore == readability
    ensures analysis.overallScore == OverallScore(analysis.skills.totalCount, |analysis.missingSections|,
      analysis.experienceAnalysis.actionWordsCount, analysis.experienceAnalysis.quantifiableAchievements, readability)
    ensures 10 <= analysis.overallScore <= 100
    ensures |analysis.recommendations| <= 4
    ensures MoreSkillsTip in analysis.recommendations <==> analysis.skills.totalCount < 10
    ensures MissingSectionsTip(analysis.missingSections) in analysis.recommendations <==> analysis.missingSections != []
    ensures ActionWordsTip in analysis.recommendations <==> analysis.experienceAnalysis.actionWordsCount < 5
    ensures QuantifyTip in analysis.recommendations <==> analysis.experienceAnalysis.quantifiableAchievements < 3
    ensures analysis.recommendations == [] <==>
      analysis.skills.totalCount >= 10 && analysis.missingSections == [] &&
      analysis.experienceAnalysis.actionWordsCount >= 5 && analysis.experienceAnalysis.quantifiableAchievements >= 3
  {
    var skills := ExtractSkills(textLower);
    var missing := CheckMissingSections(textLower);
    var experience := AnalyzeExperience(textLower);
    var score := CalculateOverallScore(skills, missing, experience, readability);
    var recommendations := GenerateRecommendations(skills, missing, experience);
    analysis := ResumeAnalysis(skills, missing, experience, readability, score, recommendations);
  }
}
