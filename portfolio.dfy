/** The reconciliation the public page performs once its three fetches have
    settled (Portfolio.tsx, `fetchData`): the hero and "about" sections are
    overwritten by the back-end profile, the back-end projects are merged
    after the seed projects by title, the non-LEARNING skills are bucketed
    into the arsenal columns, and the LEARNING skills become the "currently
    learning" text and the hero status line. */
module Portfolio {
  import opened Wrappers
  import opened Text
  import opened Types
  import opened Seqs
  import Seed
  import ApiService

  // ----- Project merge -----

  /** An entry of the page's project list: a seed project or a normalised
      back-end record. */
  datatype Shown = Local(project: Types.Project) | Remote(record: ApiService.MappedProject)

  /** The `title` of an entry; a back-end record may lack one. */
  function TitleOf(p: Shown): Option<string> {
    match p
    case Local(q) => Some(q.title)
    case Remote(m) => m.raw.title
  }

  /** `list.some(p => p.title === title)`. */
  predicate HasTitle(list: seq<Shown>, title: Option<string>) {
    exists k :: 0 <= k < |list| && TitleOf(list[k]) == title
  }

  /** No two entries share a title. */
  predicate DistinctTitles(list: seq<Shown>) {
    forall i, j :: 0 <= i < j < |list| ==> TitleOf(list[i]) != TitleOf(list[j])
  }

  function Locals(ps: seq<Types.Project>): (r: seq<Shown>)
    ensures |r| == |ps|
    ensures forall k :: 0 <= k < |ps| ==> r[k] == Local(ps[k])
  {
    if ps == [] then [] else [Local(ps[0])] + Locals(ps[1..])
  }

  /** The seed projects as page entries: the list the merge starts from. */
  const SeedShown := Locals(Seed.Projects)

  /** The list `fetchData` builds: `base`, then each back-end project in turn
      unless an entry already in the list has the same title. */
  function Merged(base: seq<Shown>, backend: seq<ApiService.MappedProject>): seq<Shown>
    decreases |backend|
  {
    if backend == [] then base
    else
      var prev := Merged(base, backend[..|backend| - 1]);
      var bp := backend[|backend| - 1];
      if HasTitle(prev, bp.raw.title) then prev else prev + [Remote(bp)]
  }

  /** The search `combined.some(...)` performs. */
  method SomeHasTitle(list: seq<Shown>, title: Option<string>) returns (found: bool)
    ensures found <==> HasTitle(list, title)
  {
    var k := 0;
    while k < |list|
      invariant 0 <= k <= |list|
      invariant forall j :: 0 <= j < k ==> TitleOf(list[j]) != title
    {
      if TitleOf(list[k]) == title {
        return true;
      }
      k := k + 1;
    }
    return false;
  }

  /** The `forEach` that pushes the back-end projects onto a copy of the seed. */
  method MergeProjects(base: seq<Shown>, backend: seq<ApiService.MappedProject>) returns (combined: seq<Shown>)
    ensures combined == Merged(base, backend)
  {
    combined := base;
    var i := 0;
    while i < |backend|
      invariant 0 <= i <= |backend|
      invariant combined == Merged(base, backend[..i])
    {
      var bp := backend[i];
      var present := SomeHasTitle(combined, bp.raw.title);
      if !present {
        combined := combined + [Remote(bp)];
      }
      assert backend[..i + 1][..i] == backend[..i];
      i := i + 1;
    }
    assert backend[..|backend|] == backend;
  }

  /** The merged list starts with `base`, whole and in order, and grows by at
      most one entry per back-end project. */
  lemma {:induction false} MergedExtendsBase(base: seq<Shown>, backend: seq<ApiService.MappedProject>)
    ensures IsPrefix(base, Merged(base, backend))
    ensures |Merged(base, backend)| <= |base| + |backend|
    decreases |backend|
  {
    if backend != [] {
      var prev := Merged(base, backend[..|backend| - 1]);
      MergedExtendsBase(base, backend[..|backend| - 1]);
      assert (prev + [Remote(backend[|backend| - 1])])[..|base|] == prev[..|base|];
    }
  }

  /** Every title seen in the merge input is present in the result, and the
      entries already there stay there. */
  lemma {:induction false} MergedCoversBackend(base: seq<Shown>, backend: seq<ApiService.MappedProject>)
    ensures forall j :: 0 <= j < |backend| ==> HasTitle(Merged(base, backend), backend[j].raw.title)
    ensures forall k :: 0 <= k < |base| ==> HasTitle(Merged(base, backend), TitleOf(base[k]))
    decreases |backend|
  {
    if backend != [] {
      var init := backend[..|backend| - 1];
      var prev := Merged(base, init);
      var bp := backend[|backend| - 1];
      var r := Merged(base, backend);
      MergedCoversBackend(base, init);
      assert IsPrefix(prev, r);
      forall t | HasTitle(prev, t) ensures HasTitle(r, t) {
        var k :| 0 <= k < |prev| && TitleOf(prev[k]) == t;
        assert r[k] == prev[k];
      }
      assert HasTitle(r, bp.raw.title) by {
        if !HasTitle(prev, bp.raw.title) {
          assert TitleOf(r[|prev|]) == bp.raw.title;
        }
      }
      forall j | 0 <= j < |backend| ensures HasTitle(r, backend[j].raw.title) {
        if j < |init| {
          assert backend[j] == init[j];
        }
      }
    }
  }

  /** Merging never introduces a duplicate title. */
  lemma {:induction false} MergedDistinct(base: seq<Shown>, backend: seq<ApiService.MappedProject>)
    requires DistinctTitles(base)
    ensures DistinctTitles(Merged(base, backend))
    decreases |backend|
  {
    if backend != [] {
      var prev := Merged(base, backend[..|backend| - 1]);
      MergedDistinct(base, backend[..|backend| - 1]);
    }
  }

  /** Every entry after the seed is a back-end record, taken in back-end
      order: `idx` gives, for each appended entry, the strictly increasing
      position of its source in the back-end list. */
  lemma {:induction false} MergedOrigins(base: seq<Shown>, backend: seq<ApiService.MappedProject>)
    returns (idx: seq<nat>)
    ensures |Merged(base, backend)| == |base| + |idx|
    ensures forall m :: 0 <= m < |idx| ==>
      idx[m] < |backend| && Merged(base, backend)[|base| + m] == Remote(backend[idx[m]])
    ensures forall m1, m2 :: 0 <= m1 < m2 < |idx| ==> idx[m1] < idx[m2]
    decreases |backend|
  {
    if backend == [] {
      idx := [];
    } else {
      var init := backend[..|backend| - 1];
      var prev := Merged(base, init);
      var bp := backend[|backend| - 1];
      idx := MergedOrigins(base, init);
      assert forall m :: 0 <= m < |idx| ==> backend[idx[m]] == init[idx[m]];
      if !HasTitle(prev, bp.raw.title) {
        idx := idx + [|backend| - 1];
      }
    }
  }

  /** Because the seed titles are distinct, the page never shows two
      projects with the same title. */
  lemma SeedMergeDistinct(backend: seq<ApiService.MappedProject>)
    ensures DistinctTitles(Merged(SeedShown, backend))
    ensures IsPrefix(SeedShown, Merged(SeedShown, backend))
  {
    Seed.SeedProjectsDistinct();
    MergedDistinct(SeedShown, backend);
    MergedExtendsBase(SeedShown, backend);
  }

  // ----- Skill bucketing -----

  /** `tool.category?.toUpperCase() || ""`. */
  function CategoryKey(category: Option<string>): (r: string)
    ensures category.None? ==> r == ""
    ensures category.Some? ==> r == Upper(category.value)
  {
    if category.Some? then Upper(category.value) else ""
  }

  /** `findIndex` over the column titles: the first one whose upper-cased
      form contains `key`, or -1. */
  function FindIndex(titles: seq<string>, key: string): (r: int)
    ensures -1 <= r < |titles|
  {
    if titles == [] then -1
    else if Contains(Upper(titles[0]), key) then 0
    else
      var r := FindIndex(titles[1..], key);
      if r == -1 then -1 else r + 1
  }

  /** `FindIndex` returns a matching title with no match before it, and -1
      only when no title matches. */
  lemma {:induction false} FindIndexFirst(titles: seq<string>, key: string)
    ensures var r := FindIndex(titles, key);
      (r >= 0 ==> Contains(Upper(titles[r]), key)) &&
      forall k :: 0 <= k < |titles| && (r == -1 || k < r) ==> !Contains(Upper(titles[k]), key)
  {
    if titles != [] && !Contains(Upper(titles[0]), key) {
      FindIndexFirst(titles[1..], key);
      var r := FindIndex(titles[1..], key);
      forall k | 1 <= k < |titles| && (r == -1 || k < r + 1) ensures !Contains(Upper(titles[k]), key) {
        assert titles[k] == titles[1..][k - 1];
      }
    }
  }

  /** The column a tool goes to: the match, or the fallback column. */
  function TargetIndex(titles: seq<string>, category: Option<string>): int {
    var k := FindIndex(titles, CategoryKey(category));
    if k != -1 then k else Seed.FallbackIndex
  }

  /** A tool without a category, or with an empty one, searches for "",
      which every title contains: it lands in the first column, never in
      the fallback. */
  lemma NoCategoryGoesFirst(titles: seq<string>, category: Option<string>)
    requires titles != []
    requires category.None? || category == Some("")
    ensures TargetIndex(titles, category) == 0
  {
    assert StartsWith(Upper(titles[0]), "");
    FindIndexFirst(titles, CategoryKey(category));
  }

  /** A category that no column title contains goes to the fallback column. */
  lemma UnmatchedGoesToFallback(titles: seq<string>, category: Option<string>)
    requires forall k :: 0 <= k < |titles| ==> !Contains(Upper(titles[k]), CategoryKey(category))
    ensures TargetIndex(titles, category) == Seed.FallbackIndex
  {
    FindIndexFirst(titles, CategoryKey(category));
  }

  /** The level suffix for a tool status. */
  function LevelSuffix(status: string): string {
    if status == "BASIC" then " (Básico)"
    else if status == "INTERMEDIATE" then " (Intermedio)"
    else if status == "MASTERED" then " (Dominado)"
    else ""
  }

  /** The label a tool shows in the arsenal. */
  function SkillLabel(t: ToolRecord): string {
    t.name + LevelSuffix(t.status)
  }

  /** The label is the tool name followed by the suffix of its level, and
      just the name for a status without a level. */
  lemma SkillLabelShape(t: ToolRecord)
    ensures StartsWith(SkillLabel(t), t.name)
    ensures t.status == "BASIC" ==> EndsWith(SkillLabel(t), " (Básico)")
    ensures t.status == "INTERMEDIATE" ==> EndsWith(SkillLabel(t), " (Intermedio)")
    ensures t.status == "MASTERED" ==> EndsWith(SkillLabel(t), " (Dominado)")
    ensures t.status !in {"BASIC", "INTERMEDIATE", "MASTERED"} ==> SkillLabel(t) == t.name
  {
    var r := SkillLabel(t);
    assert r[..|t.name|] == t.name;
    assert r[|r| - |LevelSuffix(t.status)|..] == LevelSuffix(t.status);
  }

  /** One step of the bucketing: append the skill at the end of its column
      unless it is already there. */
  function Place(stack: seq<TechCategory>, t: ToolRecord): (r: seq<TechCategory>)
    requires |stack| > Seed.FallbackIndex
    ensures |r| == |stack| && Seed.Titles(r) == Seed.Titles(stack)
  {
    var k := TargetIndex(Seed.Titles(stack), t.category);
    var skill := SkillLabel(t);
    if skill in stack[k].skills then stack
    else stack[k := TechCategory(stack[k].title, stack[k].skills + [skill])]
  }

  /** The arsenal after placing `tools` one after the other. */
  function Bucket(stack: seq<TechCategory>, tools: seq<ToolRecord>): (r: seq<TechCategory>)
    requires |stack| > Seed.FallbackIndex
    ensures |r| == |stack| && Seed.Titles(r) == Seed.Titles(stack)
    decreases |tools|
  {
    if tools == [] then stack else Place(Bucket(stack, tools[..|tools| - 1]), tools[|tools| - 1])
  }

  lemma BucketStep(stack: seq<TechCategory>, tools: seq<ToolRecord>, i: int)
    requires |stack| > Seed.FallbackIndex && 0 <= i < |tools|
    ensures Bucket(stack, tools[..i + 1]) == Place(Bucket(stack, tools[..i]), tools[i])
  {
    assert tools[..i + 1][..i] == tools[..i];
  }

  /** The label of `t` is in its target column. */
  predicate Placed(stack: seq<TechCategory>, t: ToolRecord)
    requires |stack| > Seed.FallbackIndex
  {
    SkillLabel(t) in stack[TargetIndex(Seed.Titles(stack), t.category)].skills
  }

  /** Where a tool goes: its target column and its label. */
  function Route(titles: seq<string>, t: ToolRecord): (int, string) {
    (TargetIndex(titles, t.category), SkillLabel(t))
  }

  /** The routes of a list of tools, in order. */
  function Routes(titles: seq<string>, tools: seq<ToolRecord>): (r: seq<(int, string)>)
    ensures |r| == |tools|
    ensures forall j :: 0 <= j < |tools| ==> r[j] == Route(titles, tools[j])
    decreases |tools|
  {
    if tools == [] then []
    else Routes(titles, tools[..|tools| - 1]) + [Route(titles, tools[|tools| - 1])]
  }

  /** Bucketing only appends: every column keeps its skills, in order, as a
      prefix. */
  lemma {:induction false} BucketExtends(stack: seq<TechCategory>, tools: seq<ToolRecord>)
    requires |stack| > Seed.FallbackIndex
    ensures forall k :: 0 <= k < |stack| ==> IsPrefix(stack[k].skills, Bucket(stack, tools)[k].skills)
    decreases |tools|
  {
    if tools != [] {
      var prev := Bucket(stack, tools[..|tools| - 1]);
      BucketExtends(stack, tools[..|tools| - 1]);
      forall k | 0 <= k < |stack| ensures IsPrefix(stack[k].skills, Bucket(stack, tools)[k].skills) {
        var s := prev[k].skills;
        assert IsPrefix(s, s + [SkillLabel(tools[|tools| - 1])]);
      }
    }
  }

  /** One placement adds at most its own label to its own column. */
  lemma PlaceMembership(stack: seq<TechCategory>, t: ToolRecord, k: int, skill: string)
    requires |stack| > Seed.FallbackIndex && 0 <= k < |stack|
    ensures skill in Place(stack, t)[k].skills <==>
      skill in stack[k].skills || Route(Seed.Titles(stack), t) == (k, skill)
  {
    var target := TargetIndex(Seed.Titles(stack), t.category);
    var added := SkillLabel(t);
    if added !in stack[target].skills {
      if k == target {
        assert Place(stack, t)[k].skills == stack[k].skills + [added];
      } else {
        assert Place(stack, t)[k] == stack[k];
      }
    }
  }

  /** A skill is in a column after bucketing exactly when it was there
      before or some tool is routed to that column with it as its label. */
  lemma {:induction false} BucketMembership(stack: seq<TechCategory>, tools: seq<ToolRecord>, k: int, skill: string)
    requires |stack| > Seed.FallbackIndex && 0 <= k < |stack|
    ensures skill in Bucket(stack, tools)[k].skills <==>
      skill in stack[k].skills || (k, skill) in Routes(Seed.Titles(stack), tools)
    decreases |tools|
  {
    if tools != [] {
      var init := tools[..|tools| - 1];
      BucketMembership(stack, init, k, skill);
      PlaceMembership(Bucket(stack, init), tools[|tools| - 1], k, skill);
    }
  }

  /** Bucketing keeps every column free of duplicate skills. */
  lemma {:induction false} BucketDistinct(stack: seq<TechCategory>, tools: seq<ToolRecord>)
    requires |stack| > Seed.FallbackIndex
    requires forall k :: 0 <= k < |stack| ==> Distinct(stack[k].skills)
    ensures forall k :: 0 <= k < |stack| ==> Distinct(Bucket(stack, tools)[k].skills)
    decreases |tools|
  {
    if tools != [] {
      BucketDistinct(stack, tools[..|tools| - 1]);
    }
  }

  /** Placing a tool whose label is already in place changes nothing. */
  lemma {:induction false} BucketAllPlaced(stack: seq<TechCategory>, tools: seq<ToolRecord>)
    requires |stack| > Seed.FallbackIndex
    requires forall j :: 0 <= j < |tools| ==> Placed(stack, tools[j])
    ensures Bucket(stack, tools) == stack
    decreases |tools|
  {
    if tools != [] {
      BucketAllPlaced(stack, tools[..|tools| - 1]);
      assert Placed(stack, tools[|tools| - 1]);
    }
  }

  /** After bucketing, every tool's label is in its target column. */
  lemma BucketPlacesAll(stack: seq<TechCategory>, tools: seq<ToolRecord>)
    requires |stack| > Seed.FallbackIndex
    ensures forall j :: 0 <= j < |tools| ==> Placed(Bucket(stack, tools), tools[j])
  {
    var r := Bucket(stack, tools);
    var titles := Seed.Titles(stack);
    forall j | 0 <= j < |tools| ensures Placed(r, tools[j]) {
      var k := TargetIndex(titles, tools[j].category);
      BucketMembership(stack, tools, k, SkillLabel(tools[j]));
      assert Routes(titles, tools)[j] == (k, SkillLabel(tools[j]));
    }
  }

  /** Running the bucketing a second time with the same tools is a no-op
      (the seed columns are shared objects, so a second run on a remount
      meets the labels of the first). */
  lemma BucketIdempotent(stack: seq<TechCategory>, tools: seq<ToolRecord>)
    requires |stack| > Seed.FallbackIndex
    ensures Bucket(Bucket(stack, tools), tools) == Bucket(stack, tools)
  {
    BucketPlacesAll(stack, tools);
    BucketAllPlaced(Bucket(stack, tools), tools);
  }

  /** `filter(t => t.status !== 'LEARNING')`. */
  function StackTools(tools: seq<ToolRecord>): (r: seq<ToolRecord>)
    ensures forall t :: t in r <==> t in tools && t.status != "LEARNING"
    ensures |r| <= |tools|
  {
    if tools == [] then []
    else (if tools[0].status != "LEARNING" then [tools[0]] else []) + StackTools(tools[1..])
  }

  /** `filter(t => t.status === 'LEARNING')`. */
  function LearningTools(tools: seq<ToolRecord>): (r: seq<ToolRecord>)
    ensures forall t :: t in r <==> t in tools && t.status == "LEARNING"
    ensures |r| <= |tools|
  {
    if tools == [] then []
    else (if tools[0].status == "LEARNING" then [tools[0]] else []) + LearningTools(tools[1..])
  }

  /** The two filters split the tool list: every tool goes to exactly one. */
  lemma {:induction false} FiltersPartition(tools: seq<ToolRecord>)
    ensures |StackTools(tools)| + |LearningTools(tools)| == |tools|
  {
    if tools != [] {
      FiltersPartition(tools[1..]);
    }
  }

  /** With only LEARNING tools the arsenal filter keeps nothing. */
  lemma {:induction false} NoStackToolsWhenLearning(tools: seq<ToolRecord>)
    requires forall j :: 0 <= j < |tools| ==> tools[j].status == "LEARNING"
    ensures StackTools(tools) == []
  {
    if tools != [] {
      NoStackToolsWhenLearning(tools[1..]);
    }
  }

  /** The arsenal filter keeps order: filtering a concatenation concatenates
      the filtered parts. */
  lemma {:induction false} StackToolsAppend(a: seq<ToolRecord>, b: seq<ToolRecord>)
    ensures StackTools(a + b) == StackTools(a) + StackTools(b)
  {
    if a == [] {
      assert a + b == b;
    } else {
      assert (a + b)[0] == a[0] && (a + b)[1..] == a[1..] + b;
      StackToolsAppend(a[1..], b);
    }
  }

  /** The arsenal filter drops a LEARNING tool wherever it sits. */
  lemma SkipsLearning(a: seq<ToolRecord>, t: ToolRecord, b: seq<ToolRecord>)
    requires t.status == "LEARNING"
    ensures StackTools(a + [t] + b) == StackTools(a + b)
  {
    var none := StackTools([t]);
    assert none == [] by {
      assert [t][1..] == [];
    }
    StackToolsAppend(a + [t], b);
    StackToolsAppend(a, [t]);
    StackToolsAppend(a, b);
    assert StackTools(a) + none == StackTools(a);
  }

  /** A LEARNING skill never reaches the arsenal: wherever it sits in a
      mixed tool list, the arsenal comes out as if it were not there. */
  lemma LearningNeverStacked(stack: seq<TechCategory>, a: seq<ToolRecord>, t: ToolRecord, b: seq<ToolRecord>)
    requires |stack| > Seed.FallbackIndex
    requires t.status == "LEARNING"
    ensures Bucket(stack, StackTools(a + [t] + b)) == Bucket(stack, StackTools(a + b))
  {
    SkipsLearning(a, t, b);
  }

  // ----- Learning line and profile overwrite -----

  function Names(tools: seq<ToolRecord>): (r: seq<string>)
    ensures |r| == |tools|
    ensures forall k :: 0 <= k < |tools| ==> r[k] == tools[k].name
  {
    if tools == [] then [] else [tools[0].name] + Names(tools[1..])
  }

  const LearningSeparator := " \U{30FB} "

  /** The names of the LEARNING tools joined with " ・ ". */
  function LearningLine(tools: seq<ToolRecord>): string {
    Join(Names(LearningTools(tools)), LearningSeparator)
  }

  /** The hero status for a learning line. */
  function StatusLine(names: string): (r: string)
    ensures StartsWith(r, "ACTUALMENTE: APRENDIENDO ")
    ensures r[|"ACTUALMENTE: APRENDIENDO "|..] == Upper(names)
  {
    "ACTUALMENTE: APRENDIENDO " + Upper(names)
  }

  /** The seed hero status is the status line of the seed learning text
      (`ABOUT_DATA.currentlyLearning`), so the page reads the same before
      and after a sync that reports that single LEARNING tool. */
  lemma SeedStatusIsStatusLine()
    ensures Seed.HeroData.status == StatusLine(Seed.LearningTarget)
  {
    UpperQuarkus();
  }

  lemma UpperQuarkus()
    ensures Upper("Quarkus") == "QUARKUS"
  {
  }

  /** A single LEARNING tool named like the seed's learning text reproduces
      the seed texts. */
  lemma SingleLearningToolLine(t: ToolRecord)
    requires t.status == "LEARNING" && t.name == Seed.LearningTarget
    ensures LearningLine([t]) == Seed.LearningTarget
    ensures StatusLine(LearningLine([t])) == Seed.HeroData.status
  {
    assert LearningTools([t]) == [t];
    SeedStatusIsStatusLine();
  }

  /** The hero section after the profile step. */
  function ProfileHero(prev: Hero, profile: Option<ProfileRecord>): (r: Hero)
    ensures profile.None? ==> r == prev
  {
    if profile.Some? then
      var p := profile.value;
      Hero(p.name, p.role, p.manifesto, p.location, p.status)
    else prev
  }

  /** The "about" section after the profile step. */
  function ProfileAbout(prev: About, profile: Option<ProfileRecord>): (r: About)
    ensures profile.None? ==> r == prev
  {
    if profile.Some? then
      var p := profile.value;
      About(p.aboutTitle, p.aboutDescription, p.englishLevel, p.currentlyLearning, p.profileImage)
    else prev
  }

  /** A profile replaces all five hero fields and all five "about" fields:
      nothing of the previous sections survives, and each field comes from
      its own profile field. */
  lemma ProfileOverwritesAll(h1: Hero, h2: Hero, a1: About, a2: About, p: ProfileRecord)
    ensures ProfileHero(h1, Some(p)) == ProfileHero(h2, Some(p))
    ensures ProfileAbout(a1, Some(p)) == ProfileAbout(a2, Some(p))
    ensures ProfileHero(h1, Some(p)).name == p.name && ProfileHero(h1, Some(p)).role == p.role
    ensures ProfileHero(h1, Some(p)).manifesto == p.manifesto && ProfileHero(h1, Some(p)).location == p.location
    ensures ProfileHero(h1, Some(p)).status == p.status
    ensures ProfileAbout(a1, Some(p)).title == p.aboutTitle && ProfileAbout(a1, Some(p)).description == p.aboutDescription
    ensures ProfileAbout(a1, Some(p)).englishLevel == p.englishLevel
    ensures ProfileAbout(a1, Some(p)).currentlyLearning == p.currentlyLearning
    ensures ProfileAbout(a1, Some(p)).profileImage == p.profileImage
  {
  }

  /** The tools step runs only for a non-empty tool list, and the learning
      step only when some tool is LEARNING. */
  predicate LearningApplies(tools: seq<ToolRecord>) {
    |tools| > 0 && |LearningTools(tools)| > 0
  }

  function HeroAfter(prev: Hero, profile: Option<ProfileRecord>, tools: seq<ToolRecord>): Hero {
    var h := ProfileHero(prev, profile);
    if LearningApplies(tools) then h.(status := StatusLine(LearningLine(tools))) else h
  }

  function AboutAfter(prev: About, profile: Option<ProfileRecord>, tools: seq<ToolRecord>): About {
    var a := ProfileAbout(prev, profile);
    if LearningApplies(tools) then a.(currentlyLearning := LearningLine(tools)) else a
  }

  function StackAfter(prev: seq<TechCategory>, tools: seq<ToolRecord>): seq<TechCategory>
    requires |prev| > Seed.FallbackIndex
  {
    if |tools| > 0 then Bucket(prev, StackTools(tools)) else prev
  }

  /** The learning step overrides the status the profile brought, and with
      no LEARNING tool the profile's values stand. */
  lemma LearningOverridesProfile(prev: Hero, prevAbout: About, profile: Option<ProfileRecord>, tools: seq<ToolRecord>)
    ensures LearningApplies(tools) ==>
      HeroAfter(prev, profile, tools).status == StatusLine(LearningLine(tools)) &&
      AboutAfter(prevAbout, profile, tools).currentlyLearning == LearningLine(tools)
    ensures !LearningApplies(tools) ==>
      HeroAfter(prev, profile, tools) == ProfileHero(prev, profile) &&
      AboutAfter(prevAbout, profile, tools) == ProfileAbout(prevAbout, profile)
    ensures HeroAfter(prev, profile, tools).name == ProfileHero(prev, profile).name
    ensures AboutAfter(prevAbout, profile, tools).title == ProfileAbout(prevAbout, profile).title
  {
  }

  /** With no tools at all the arsenal and the learning texts are left alone. */
  lemma NoToolsNoChange(prev: Hero, prevAbout: About, stack: seq<TechCategory>, profile: Option<ProfileRecord>)
    requires |stack| > Seed.FallbackIndex
    ensures StackAfter(stack, []) == stack
    ensures HeroAfter(prev, profile, []) == ProfileHero(prev, profile)
    ensures AboutAfter(prevAbout, profile, []) == ProfileAbout(prevAbout, profile)
  {
  }

  /** Each seed column title, chosen as a tool category in the admin panel,
      sends the tool to that column: no title contains another. */
  lemma SeedTitlesSelect()
    ensures forall k :: 0 <= k < |Seed.TechStack| ==>
      TargetIndex(Seed.Titles(Seed.TechStack), Some(Seed.TechStack[k].title)) == k
  {
    Seed.TechStackTitles();
    SeedTitlesCapital();
    SeedTitlesApart();
    TitlesSelectOwnColumn(Seed.Titles(Seed.TechStack));
  }

  /** Text made only of capitals, spaces and ampersands. */
  predicate Capitals(s: string) {
    forall i :: 0 <= i < |s| ==> 'A' <= s[i] <= 'Z' || s[i] == ' ' || s[i] == '&'
  }

  /** When every title is written in capitals and none occurs inside an
      earlier one, each title, used as a category, selects its own column. */
  lemma TitlesSelectOwnColumn(titles: seq<string>)
    requires forall k :: 0 <= k < |titles| ==> Capitals(titles[k])
    requires forall j, k, i :: 0 <= j < k < |titles| ==> !OccursAt(titles[j], titles[k], i)
    ensures forall k :: 0 <= k < |titles| ==> TargetIndex(titles, Some(titles[k])) == k
  {
    forall k | 0 <= k < |titles| ensures TargetIndex(titles, Some(titles[k])) == k {
      UpperOfCapitals(titles[k]);
      forall j | 0 <= j < k ensures !Contains(Upper(titles[j]), titles[k]) {
        UpperOfCapitals(titles[j]);
        ContainsIffOccurs(titles[j], titles[k]);
      }
      assert StartsWith(titles[k], titles[k]);
      FirstMatch(titles, Upper(titles[k]), k);
    }
  }

  lemma SeedTitlesCapital()
    ensures Capitals("LENGUAJES & FRONTEND") && Capitals("BACKEND FRAMEWORKS")
    ensures Capitals("DATOS & PERSISTENCIA") && Capitals("HERRAMIENTAS & CONCEPTOS")
  {
  }

  /** No column title occurs inside an earlier one. */
  lemma SeedTitlesApart()
    ensures forall i :: !OccursAt("LENGUAJES & FRONTEND", "BACKEND FRAMEWORKS", i)
    ensures forall i :: !OccursAt("LENGUAJES & FRONTEND", "DATOS & PERSISTENCIA", i)
    ensures forall i :: !OccursAt("LENGUAJES & FRONTEND", "HERRAMIENTAS & CONCEPTOS", i)
    ensures forall i :: !OccursAt("BACKEND FRAMEWORKS", "DATOS & PERSISTENCIA", i)
    ensures forall i :: !OccursAt("BACKEND FRAMEWORKS", "HERRAMIENTAS & CONCEPTOS", i)
    ensures forall i :: !OccursAt("DATOS & PERSISTENCIA", "HERRAMIENTAS & CONCEPTOS", i)
  {
    assert 'B' !in "LENGUAJES & FRONTEND";
    NoOccurrence("LENGUAJES & FRONTEND", "BACKEND FRAMEWORKS");
    NoOccurrence("LENGUAJES & FRONTEND", "DATOS & PERSISTENCIA");
    NoOccurrence("LENGUAJES & FRONTEND", "HERRAMIENTAS & CONCEPTOS");
    NoOccurrence("BACKEND FRAMEWORKS", "DATOS & PERSISTENCIA");
    NoOccurrence("BACKEND FRAMEWORKS", "HERRAMIENTAS & CONCEPTOS");
    NoOccurrence("DATOS & PERSISTENCIA", "HERRAMIENTAS & CONCEPTOS");
  }

  /** Text made of capitals, spaces and ampersands is its own upper case. */
  lemma UpperOfCapitals(s: string)
    requires Capitals(s)
    ensures Upper(s) == s
  {
  }

  /** `findIndex` returns the first match. */
  lemma FirstMatch(titles: seq<string>, key: string, k: int)
    requires 0 <= k < |titles| && Contains(Upper(titles[k]), key)
    requires forall j :: 0 <= j < k ==> !Contains(Upper(titles[j]), key)
    ensures FindIndex(titles, key) == k
  {
    FindIndexFirst(titles, key);
  }

  /** A string that is longer than `s`, as long but different, or whose
      first character `s` lacks, does not occur in it. */
  lemma NoOccurrence(s: string, sub: string)
    requires sub != []
    requires |sub| > |s| || (|sub| == |s| && sub != s) || sub[0] !in s
    ensures forall i :: !OccursAt(s, sub, i)
  {
    forall i | 0 <= i && i + |sub| <= |s| ensures !OccursAt(s, sub, i) {
      assert s[i..i + |sub|][0] == s[i];
      if |sub| == |s| {
        assert s[i..i + |sub|] == s;
      }
    }
  }

  // ----- The page state -----

  /** One arsenal column. Its skill list is replaced in place by the sync;
      the page holds the very objects of the seed arsenal. */
  class Category {
    const title: string
    var skills: seq<string>

    constructor (title: string, skills: seq<string>)
      ensures this.title == title && this.skills == skills
    {
      this.title := title;
      this.skills := skills;
    }
  }

  /** The values held by a list of columns. */
  function Snapshot(cats: seq<Category>): (r: seq<TechCategory>)
    reads cats
    ensures |r| == |cats|
    ensures forall k :: 0 <= k < |cats| ==> r[k] == TechCategory(cats[k].title, cats[k].skills)
  {
    if cats == [] then [] else [TechCategory(cats[0].title, cats[0].skills)] + Snapshot(cats[1..])
  }

  /** What the settled batch of the three fetches delivered: a rejection, or
      the projects, the profile (null on a failed status) and the tools. */
  datatype Batch =
    | Rejected
    | Resolved(projects: seq<ApiService.MappedProject>, profile: Option<ProfileRecord>, tools: seq<ToolRecord>)

  /** The state cells of the public page. */
  class PortfolioPage {
    /** The `PROJECTS` binding the page imports: the list every merge
        starts from. */
    const seed: seq<Shown>
    var projects: seq<Shown>
    var hero: Hero
    var about: About
    var stack: seq<Category>
    var loading: bool

    /** The arsenal has the fallback column and no column object twice. */
    predicate Valid()
      reads this
    {
      |stack| > Seed.FallbackIndex && Distinct(stack)
    }

    /** The page as first rendered: seed projects, seed texts, the shared
        arsenal objects, and loading. */
    constructor (arsenal: seq<Category>)
      requires |arsenal| > Seed.FallbackIndex && Distinct(arsenal)
      ensures Valid() && stack == arsenal && loading
      ensures seed == SeedShown && projects == seed
      ensures hero == Seed.HeroData && about == Seed.AboutData
    {
      seed := SeedShown;
      projects := seed;
      hero := Seed.HeroData;
      about := Seed.AboutData;
      stack := arsenal;
      loading := true;
    }

    /** `newStack[k].skills = [...newStack[k].skills, skill]`: the column
        object gets a new list; every other column is untouched. */
    method AppendSkill(k: int, skill: string)
      requires Valid() && 0 <= k < |stack|
      modifies stack[k]
      ensures Snapshot(stack) == old(Snapshot(stack))[k := TechCategory(stack[k].title, old(stack[k].skills) + [skill])]
    {
      ghost var before := Snapshot(stack);
      stack[k].skills := stack[k].skills + [skill];
      forall m | 0 <= m < |stack|
        ensures Snapshot(stack)[m] == before[k := TechCategory(stack[k].title, before[k].skills + [skill])][m]
      {
        if m != k {
          assert stack[m] != stack[k];
        }
      }
    }

    /** One iteration of the `forEach`: find the tool's column and append its
        label there unless present. */
    method PlaceTool(tool: ToolRecord)
      requires Valid()
      modifies stack
      ensures Snapshot(stack) == Place(old(Snapshot(stack)), tool)
    {
      var k := TargetIndex(Seed.Titles(Snapshot(stack)), tool.category);
      var skill := SkillLabel(tool);
      if skill !in stack[k].skills {
        AppendSkill(k, skill);
      }
    }

    /** The `setDynamicStack` step: each non-LEARNING tool's label appended
        in place to its column unless present. */
    method SyncStack(tools: seq<ToolRecord>)
      requires Valid()
      modifies stack
      ensures Snapshot(stack) == Bucket(old(Snapshot(stack)), StackTools(tools))
    {
      var st := StackTools(tools);
      ghost var s0 := Snapshot(stack);
      var i := 0;
      while i < |st|
        invariant 0 <= i <= |st|
        invariant Snapshot(stack) == Bucket(s0, st[..i])
      {
        BucketStep(s0, st, i);
        PlaceTool(st[i]);
        i := i + 1;
      }
      assert st[..|st|] == st;
    }

    /** The projects and profile steps: the merged list replaces the shown
        one, and a profile, when one came back, overwrites both sections. */
    method ApplyProjectsAndProfile(merged: seq<Shown>, profile: Option<ProfileRecord>)
      modifies this
      ensures projects == merged
      ensures hero == ProfileHero(old(hero), profile) && about == ProfileAbout(old(about), profile)
      ensures stack == old(stack) && loading == old(loading) && Snapshot(stack) == old(Snapshot(stack))
    {
      projects := merged;
      hero := ProfileHero(hero, profile);
      about := ProfileAbout(about, profile);
    }

    /** The `finally` block. */
    method StopLoading()
      modifies this
      ensures !loading
      ensures projects == old(projects) && hero == old(hero) && about == old(about)
      ensures stack == old(stack) && Snapshot(stack) == old(Snapshot(stack))
    {
      loading := false;
    }

    /** The tools step, skipped for an empty list: the arsenal sync, then the
        learning line when some tool is LEARNING. */
    method ApplyTools(tools: seq<ToolRecord>)
      requires Valid()
      modifies this, stack
      ensures Valid() && stack == old(stack) && projects == old(projects) && loading == old(loading)
      ensures Snapshot(stack) == StackAfter(old(Snapshot(stack)), tools)
      ensures hero == (if LearningApplies(tools) then old(hero).(status := StatusLine(LearningLine(tools))) else old(hero))
      ensures about == (if LearningApplies(tools) then old(about).(currentlyLearning := LearningLine(tools)) else old(about))
    {
      if |tools| > 0 {
        SyncStack(tools);
        var learning := LearningTools(tools);
        if |learning| > 0 {
          var names := Join(Names(learning), LearningSeparator);
          ShowLearning(names);
        }
      }
    }

    /** The learning step: the joined names become the "currently learning"
        text and, upper-cased, the hero status. */
    method ShowLearning(names: string)
      modifies this
      ensures about == old(about).(currentlyLearning := names)
      ensures hero == old(hero).(status := StatusLine(names))
      ensures projects == old(projects) && loading == old(loading)
      ensures stack == old(stack) && Snapshot(stack) == old(Snapshot(stack))
    {
      about := about.(currentlyLearning := names);
      hero := hero.(status := StatusLine(names));
    }

    /** `fetchData`: all updates happen after the batch settles, so a
        rejection leaves every section as it was; `loading` ends false
        either way. */
    method FetchData(outcome: Batch)
      requires Valid()
      modifies this, stack
      ensures Valid() && stack == old(stack) && !loading
      ensures outcome.Rejected? ==>
        projects == old(projects) && hero == old(hero) && about == old(about) &&
        Snapshot(stack) == old(Snapshot(stack))
      ensures outcome.Resolved? ==>
        projects == Merged(seed, outcome.projects) &&
        hero == HeroAfter(old(hero), outcome.profile, outcome.tools) &&
        about == AboutAfter(old(about), outcome.profile, outcome.tools) &&
        Snapshot(stack) == StackAfter(old(Snapshot(stack)), outcome.tools)
    {
      if outcome.Resolved? {
        var merged := MergeProjects(seed, outcome.projects);
        ApplyProjectsAndProfile(merged, outcome.profile);
        ApplyTools(outcome.tools);
      }
      StopLoading();
    }
  }
}
