/** The `Project` entity (backend/.../domain/model/Project.java). */
module ProjectEntity {
  import opened Wrappers
  import opened Text

  /** `Project.ProjectCategory`, in declaration order. */
  datatype ProjectCategory =
    | DataEngineering
    | WebDevelopment
    | MobileDevelopment
    | MachineLearning
    | Devops
    | Other

  /** A project row. Nullable columns are `Option`s; `tags` is the element collection `project_tags`. */
  datatype Project = Project(
    id: nat,
    title: string,
    description: string,
    category: Option<ProjectCategory>,
    tags: seq<string>,
    githubUrl: Option<string>,
    liveUrl: Option<string>,
    iconName: Option<string>,
    gradientFrom: Option<string>,
    gradientTo: Option<string>,
    isFeatured: bool,
    displayOrder: int,
    createdAt: int)

  /** The `description` column is declared with `length = 1000`. */
  const DescriptionLength: nat := 1000

  /** `new Project()`: the field initialisers and nothing else. */
  function NewProject(): (p: Project)
    ensures p.tags == []
    ensures p.gradientFrom == Some("purple-600") && p.gradientTo == Some("pink-600")
    ensures !p.isFeatured && p.displayOrder == 0
    ensures Blank(p.title) && Blank(p.description) && p.category == None
  {
    Project(0, "", "", None, [], None, None, None, Some("purple-600"), Some("pink-600"), false, 0, 0)
  }

  /** `@NotBlank title`, `@NotBlank description` that fits its column, `@NotNull category`. */
  predicate Valid(p: Project) {
    && !Blank(p.title)
    && !Blank(p.description) && |p.description| <= DescriptionLength
    && p.category.Some?
  }

  /** Every row of a project table is stored under its own id. */
  ghost predicate KeyedProjects(m: map<nat, Project>) {
    forall k :: k in m ==> m[k].id == k
  }

  /** A default-constructed project fails validation until title, description and category are set. */
  lemma NewProjectIsInvalid()
    ensures !Valid(NewProject())
  {
  }
}
