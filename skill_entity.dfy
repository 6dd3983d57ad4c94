/** The `Skill` entity (backend/.../domain/model/Skill.java): its fields, the
    constraints its annotations declare, and the defaults of `new Skill()`. */
module SkillEntity {
  import opened Wrappers
  import opened Text

  /** `Skill.SkillCategory`; the TypeScript `SkillCategory` enum lists the same six values in the same order. */
  datatype SkillCategory =
    | DataEngineering
    | CloudInfrastructure
    | ProgrammingDatabases
    | AnalyticsMl
    | DevelopmentTools
    | WebDevelopment

  /** The six categories in declaration order. */
  const Categories: seq<SkillCategory> :=
    [DataEngineering, CloudInfrastructure, ProgrammingDatabases, AnalyticsMl, DevelopmentTools, WebDevelopment]

  /** The position of `c` in declaration order. */
  function Rank(c: SkillCategory): (r: nat)
    ensures r < |Categories| && Categories[r] == c
  {
    match c
    case DataEngineering => 0
    case CloudInfrastructure => 1
    case ProgrammingDatabases => 2
    case AnalyticsMl => 3
    case DevelopmentTools => 4
    case WebDevelopment => 5
  }

  /** A skill row. `category` and `level` are nullable in the entity, hence `Option`;
      `createdAt` is the creation timestamp as an abstract instant. */
  datatype Skill = Skill(
    id: nat,
    name: string,
    category: Option<SkillCategory>,
    level: Option<int>,
    displayOrder: int,
    createdAt: int)

  /** `new Skill()`: nothing set but the declared default `displayOrder = 0`. */
  function NewSkill(): (s: Skill)
    ensures s.displayOrder == 0
    ensures s.category == None && s.level == None && Blank(s.name)
  {
    Skill(0, "", None, None, 0, 0)
  }

  /** The bean constraints: `@NotBlank name`, `@NotNull category`,
      `@NotNull @Min(0) @Max(100) level`. */
  predicate Valid(s: Skill) {
    && !Blank(s.name)
    && s.category.Some?
    && s.level.Some? && 0 <= s.level.value <= 100
  }

  /** Every row of a skill table is stored under its own id. */
  ghost predicate KeyedSkills(m: map<nat, Skill>) {
    forall k :: k in m ==> m[k].id == k
  }

  /** A default-constructed skill fails validation until name, category and level are set. */
  lemma NewSkillIsInvalid()
    ensures !Valid(NewSkill())
  {
  }
}
