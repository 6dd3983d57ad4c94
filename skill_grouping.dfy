/** The skills section (components/Skills.tsx): the fetched skill list is grouped
    by category, one titled group per category that has skills. */
module SkillGrouping {
  import opened Wrappers
  import opened Listing
  import opened SkillEntity

  /** `SkillGroup` of the component. */
  datatype SkillGroup = SkillGroup(category: SkillCategory, title: string, skills: seq<Skill>)

  /** `categoryTitles`. */
  function CategoryTitle(c: SkillCategory): string {
    match c
    case DataEngineering => "Data Engineering"
    case CloudInfrastructure => "Cloud & Infrastructure"
    case ProgrammingDatabases => "Programming & Databases"
    case AnalyticsMl => "Analytics & ML"
    case DevelopmentTools => "Development Tools"
    case WebDevelopment => "Web Development"
  }

  /** The test `skill.category === category` of the inner `filter`. */
  function InCategory(c: SkillCategory): Skill -> bool {
    (s: Skill) => s.category == Some(c)
  }

  /** The skills of category `c`, in input order. */
  function Members(c: SkillCategory, all: seq<Skill>): seq<Skill> {
    Filter(all, InCategory(c))
  }

  /** The group the `map` callback builds for category `c`. */
  function GroupFor(c: SkillCategory, all: seq<Skill>): SkillGroup {
    SkillGroup(c, CategoryTitle(c), Members(c, all))
  }

  /** Declaration order and `Rank` agree. */
  lemma RankOfPosition(n: nat)
    requires n < |Categories|
    ensures Rank(Categories[n]) == n
  {
    if n == 0 {} else if n == 1 {} else if n == 2 {} else if n == 3 {} else if n == 4 {} else {}
  }

  /** The `map` over `Object.values(SkillCategory)`: one group per category, in
      declaration order, empty or not. */
  function AllGroups(all: seq<Skill>): seq<SkillGroup> {
    seq(|Categories|, i requires 0 <= i < |Categories| => GroupFor(Categories[i], all))
  }

  /** The trailing `filter(group => group.skills.length > 0)`. */
  predicate HasSkills(g: SkillGroup) {
    |g.skills| > 0
  }

  /** The position of a group's category in declaration order. */
  function GroupRank(g: SkillGroup): int {
    Rank(g.category)
  }

  /** The `grouped` value computed in `fetchSkills`: the groups of `AllGroups` that have
      skills, in the same order. */
  function GroupSkills(all: seq<Skill>): (groups: seq<SkillGroup>)
    ensures |groups| <= |Categories|
    ensures forall g :: g in groups <==> g in AllGroups(all) && HasSkills(g)
    ensures Subsequence(groups, AllGroups(all))
  {
    var every := AllGroups(all);
    var groups := Filter(every, HasSkills);
    FilterKeepsOrder(every, HasSkills);
    forall g ensures g in groups <==> g in every && HasSkills(g) {
      assert g in groups <==> multiset(groups)[g] > 0;
      assert g in every <==> multiset(every)[g] > 0;
    }
    groups
  }

  /** What the inner `filter` keeps for category `c`: the input's skills of that category,
      each as often as in the input, in input order. */
  lemma MembersOfCategory(c: SkillCategory, all: seq<Skill>)
    ensures Subsequence(Members(c, all), all)
    ensures forall s :: multiset(Members(c, all))[s] == if s.category == Some(c) then multiset(all)[s] else 0
    ensures forall s :: s in Members(c, all) <==> s in all && s.category == Some(c)
  {
    FilterKeepsOrder(all, InCategory(c));
    var members := Members(c, all);
    forall s ensures s in members <==> s in all && s.category == Some(c) {
      assert s in members <==> multiset(members)[s] > 0;
      assert s in all <==> multiset(all)[s] > 0;
    }
  }

  /** Every group shown is the group of its own category, and that group has skills. */
  lemma GroupIsOfItsCategory(all: seq<Skill>, g: SkillGroup)
    requires g in GroupSkills(all)
    ensures g == GroupFor(g.category, all) && HasSkills(g)
  {
    var k :| 0 <= k < |AllGroups(all)| && AllGroups(all)[k] == g;
  }

  /** The group of category `c` is shown exactly when `c` has skills. */
  lemma CategoryGroupShown(all: seq<Skill>, c: SkillCategory)
    ensures GroupFor(c, all) in GroupSkills(all) <==> |Members(c, all)| > 0
  {
    RankOfPosition(Rank(c));
    assert AllGroups(all)[Rank(c)] == GroupFor(c, all);
  }

  /** Groups come in the declaration order of `SkillCategory`, so no category is shown
      twice and there are at most six groups. */
  lemma GroupsInDeclarationOrder(all: seq<Skill>)
    ensures |GroupSkills(all)| <= 6
    ensures forall i, j :: 0 <= i < j < |GroupSkills(all)| ==>
              Rank(GroupSkills(all)[i].category) < Rank(GroupSkills(all)[j].category)
  {
    var every := AllGroups(all);
    assert StrictlyAscending(every, GroupRank) by {
      forall i, j | 0 <= i < j < |every| ensures GroupRank(every[i]) < GroupRank(every[j]) {
        RankOfPosition(i);
        RankOfPosition(j);
      }
    }
    SubsequenceKeepsStrictOrder(GroupSkills(all), every, GroupRank);
  }

  /** Each shown group carries its category's title and holds exactly the input's skills of
      that category, as often as they occur there and in input order; it is never empty. */
  lemma EachGroupIsItsCategory(all: seq<Skill>, i: nat)
    requires i < |GroupSkills(all)|
    ensures var g := GroupSkills(all)[i];
            && g.title == CategoryTitle(g.category)
            && |g.skills| > 0
            && Subsequence(g.skills, all)
            && (forall s :: s in g.skills <==> s in all && s.category == Some(g.category))
            && (forall s :: multiset(g.skills)[s] == if s.category == Some(g.category) then multiset(all)[s] else 0)
  {
    var g := GroupSkills(all)[i];
    GroupIsOfItsCategory(all, g);
    MembersOfCategory(g.category, all);
  }

  /** A category that some fetched skill has is shown. */
  lemma UsedCategoryIsShown(all: seq<Skill>, c: SkillCategory, s: Skill)
    requires s in all && s.category == Some(c)
    ensures exists i :: 0 <= i < |GroupSkills(all)| && GroupSkills(all)[i].category == c
  {
    var groups := GroupSkills(all);
    MembersOfCategory(c, all);
    assert s in Members(c, all);
    CategoryGroupShown(all, c);
    var i :| 0 <= i < |groups| && groups[i] == GroupFor(c, all);
  }

  /** A category that is shown has a fetched skill. */
  lemma ShownCategoryIsUsed(all: seq<Skill>, i: nat)
    requires i < |GroupSkills(all)|
    ensures exists s :: s in all && s.category == Some(GroupSkills(all)[i].category)
  {
    EachGroupIsItsCategory(all, i);
    var g := GroupSkills(all)[i];
    assert g.skills[0] in g.skills;
  }

  /** A category gets a group exactly when some fetched skill has it. */
  lemma {:induction false} GroupPresentIffCategoryUsed(all: seq<Skill>, c: SkillCategory)
    ensures (exists i :: 0 <= i < |GroupSkills(all)| && GroupSkills(all)[i].category == c)
        <==> (exists s :: s in all && s.category == Some(c))
  {
    var groups := GroupSkills(all);
    if exists s :: s in all && s.category == Some(c) {
      var s :| s in all && s.category == Some(c);
      UsedCategoryIsShown(all, c, s);
    }
    if exists i :: 0 <= i < |groups| && groups[i].category == c {
      var i :| 0 <= i < |groups| && groups[i].category == c;
      ShownCategoryIsUsed(all, i);
    }
  }

  /** A fetched skill with a category lands in exactly one group, that of its category;
      a skill without one lands in none. */
  lemma {:induction false} SkillLandsInOneGroup(all: seq<Skill>, s: Skill)
    requires s in all
    ensures s.category == None ==> forall i :: 0 <= i < |GroupSkills(all)| ==> s !in GroupSkills(all)[i].skills
    ensures s.category.Some? ==>
              exists i :: 0 <= i < |GroupSkills(all)| && GroupSkills(all)[i].category == s.category.value
                       && s in GroupSkills(all)[i].skills
                       && forall j :: 0 <= j < |GroupSkills(all)| && s in GroupSkills(all)[j].skills ==> j == i
  {
    var groups := GroupSkills(all);
    forall i | 0 <= i < |groups|
      ensures s in groups[i].skills <==> s.category == Some(groups[i].category)
    {
      EachGroupIsItsCategory(all, i);
    }
    if s.category.Some? {
      var c := s.category.value;
      UsedCategoryIsShown(all, c, s);
      var i :| 0 <= i < |groups| && groups[i].category == c;
      GroupsInDeclarationOrder(all);
      forall j | 0 <= j < |groups| && s in groups[j].skills ensures j == i {
        assert groups[j].category == c;
      }
    }
  }
}
