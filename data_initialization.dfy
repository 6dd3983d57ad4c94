/** `DataInitializationService` (backend/.../service/DataInitializationService.java): the
    start-up runner that seeds the projects, skills and code repositories tables, each step
    only when its table is empty. */
module DataInitialization {
  import opened Wrappers
  import opened Text
  import SE = SkillEntity
  import PE = ProjectEntity
  import RE = CodeRepositoryEntity
  import SkillService
  import ProjectService
  import CodeRepositoryService

  // ---------------------------------------------------------------- seed projects

  /** A seed project as `initializeProjects` builds it: `new Project()` followed by the setters
      for title, description, category, tags, icon, gradients, `isFeatured = true` and the order. */
  function SeedProject(title: string, description: string, category: PE.ProjectCategory, tags: seq<string>,
                       icon: string, from: string, to: string, order: int): (p: PE.Project)
    ensures p.title == title && p.description == description && p.category == Some(category)
    ensures p.tags == tags && p.iconName == Some(icon)
    ensures p.gradientFrom == Some(from) && p.gradientTo == Some(to)
    ensures p.isFeatured && p.displayOrder == order
    ensures p.githubUrl == None && p.liveUrl == None
  {
    PE.NewProject().(title := title, description := description, category := Some(category), tags := tags,
                     iconName := Some(icon), gradientFrom := Some(from), gradientTo := Some(to),
                     isFeatured := true, displayOrder := order)
  }

  /** The nine projects handed to `saveAll`, in list order. */
  const SeedProjects: seq<PE.Project> :=
    [ SeedProject("Ciget Commercial Website",
        "Developed a professional commercial "
          + "website for Ciget, featuring modern "
          + "UI/UX design, responsive layout, and "
          + "seamless user experience. Built with "
          + "cutting-edge web technologies for "
          + "optimal performance and SEO.",
        PE.WebDevelopment, ["Web Design", "Responsive", "SEO", "UI/UX"],
        "Globe", "blue-600", "cyan-600", 1),
      SeedProject("AI Fish Race Gambling Platform",
        "Revolutionary gambling platform using "
          + "computer vision AI to detect when fish "
          + "cross the finish line in real-time. "
          + "Integrated IoT scanners built with "
          + "Arduino for accurate race tracking and "
          + "automated result verification.",
        PE.MachineLearning, ["AI", "Computer Vision", "IoT", "Arduino", "Real-time Processing"],
        "Cpu", "purple-600", "pink-600", 2),
      SeedProject("Energy Education 3D Game",
        "Collaborative 3D video game developed "
          + "with a team of 6 developers to teach "
          + "children about energy usage and "
          + "conservation. Interactive gameplay "
          + "makes learning about sustainability fun "
          + "and engaging through immersive 3D "
          + "environments.",
        PE.WebDevelopment, ["JavaScript", "3D Graphics", "Education", "Game Development", "Team Project"],
        "Gamepad2", "green-600", "emerald-600", 3),
      SeedProject("Real-Time Data Pipeline with Airflow",
        "Engineered a real-time data processing "
          + "pipeline using Apache Airflow "
          + "orchestration and Docker "
          + "containerization. Handles continuous "
          + "data ingestion, transformation, and "
          + "loading with automated monitoring and "
          + "error handling.",
        PE.DataEngineering, ["Apache Airflow", "Docker", "Real-time Processing", "ETL", "Python"],
        "Workflow", "orange-600", "red-600", 4),
      SeedProject("Azure Flower Database - Batch Processing",
        "Batch processing system for flower data "
          + "with input validation and Azure "
          + "Container Database integration. "
          + "Automated data ingestion pipeline "
          + "validates entries before storage, "
          + "ensuring data quality and consistency "
          + "in the cloud database.",
        PE.DataEngineering, ["Azure", "Batch Processing", "Data Validation", "Container Database", "ETL"],
        "Database", "indigo-600", "blue-600", 5),
      SeedProject("Depression Prediction ML Model",
        "Machine learning model designed to "
          + "predict depression risk based on "
          + "patient data and behavioral patterns. "
          + "Uses advanced algorithms to identify "
          + "early warning signs, achieving high "
          + "accuracy in mental health assessment.",
        PE.MachineLearning, ["Machine Learning", "Python", "Healthcare", "Predictive Analytics", "Data Science"],
        "Brain", "pink-600", "rose-600", 6),
      SeedProject("Finance Dashboard",
        "Interactive financial analytics "
          + "dashboard with real-time data "
          + "visualization, expense tracking, and "
          + "budget management. Features dynamic "
          + "charts, spending insights, and "
          + "financial goal tracking.",
        PE.WebDevelopment, ["React", "Data Visualization", "Finance", "Dashboard", "Charts"],
        "LineChart", "#10B981", "#3B82F6", 7),
      SeedProject("Mobile Fitness Tracker",
        "Cross-platform mobile fitness "
          + "application for tracking workouts, "
          + "nutrition, and health metrics. Features "
          + "progress visualization, workout plans, "
          + "and achievement tracking with social "
          + "sharing capabilities.",
        PE.MobileDevelopment, ["React Native", "Mobile", "Fitness", "Health Tracking", "Cross-platform"],
        "Activity", "#F59E0B", "#EF4444", 8),
      SeedProject("SplitTracker - Expense Splitting App",
        "Smart expense splitting application "
          + "with OCR receipt scanning. "
          + "Automatically detects items and prices "
          + "from photos, calculates fair splits, "
          + "and tracks group expenses with payment "
          + "reminders.",
        PE.MobileDevelopment, ["OCR", "Mobile", "Finance", "Computer Vision", "React Native"],
        "Receipt", "#8B5CF6", "#EC4899", 9) ]

  /** A string whose first character is printable is not blank. */
  lemma VisibleIsNotBlank(s: string)
    requires |s| > 0 && s[0] > ' '
    ensures !Blank(s)
  {
  }

  /** The nine seed projects are all featured and ordered 1..9 in list order. */
  lemma SeedProjectsAreFeaturedInOrder()
    ensures |SeedProjects| == 9
    ensures forall i :: 0 <= i < 9 ==> SeedProjects[i].isFeatured && SeedProjects[i].displayOrder == i + 1
  {
  }

  // ---------------------------------------------------------------- seed skills

  /** `createSkill(name, category, level, displayOrder)`: `new Skill()` and four setters. */
  function CreateSkill(name: string, category: SE.SkillCategory, level: int, displayOrder: int): (s: SE.Skill)
    ensures s.name == name && s.category == Some(category) && s.level == Some(level)
    ensures s.displayOrder == displayOrder
    ensures s.id == SE.NewSkill().id && s.createdAt == SE.NewSkill().createdAt
  {
    SE.NewSkill().(name := name, category := Some(category), level := Some(level), displayOrder := displayOrder)
  }

  /** The thirty skills `initializeSkills` saves one by one, in call order. */
  const SeedSkills: seq<SE.Skill> :=
    [ CreateSkill("Apache Spark", SE.DataEngineering, 95, 1),
      CreateSkill("Apache Kafka", SE.DataEngineering, 90, 2),
      CreateSkill("Apache Airflow", SE.DataEngineering, 92, 3),
      CreateSkill("dbt", SE.DataEngineering, 88, 4),
      CreateSkill("ETL/ELT", SE.DataEngineering, 95, 5),

      CreateSkill("AWS (S3, Redshift, EMR)", SE.CloudInfrastructure, 93, 1),
      CreateSkill("Snowflake", SE.CloudInfrastructure, 90, 2),
      CreateSkill("Docker & Kubernetes", SE.CloudInfrastructure, 87, 3),
      CreateSkill("Terraform", SE.CloudInfrastructure, 85, 4),
      CreateSkill("Azure Data Factory", SE.CloudInfrastructure, 82, 5),

      CreateSkill("Python", SE.ProgrammingDatabases, 95, 1),
      CreateSkill("SQL", SE.ProgrammingDatabases, 98, 2),
      CreateSkill("Java", SE.ProgrammingDatabases, 92, 3),
      CreateSkill("PostgreSQL", SE.ProgrammingDatabases, 92, 4),
      CreateSkill("MongoDB", SE.ProgrammingDatabases, 85, 5),

      CreateSkill("Data Modeling", SE.AnalyticsMl, 93, 1),
      CreateSkill("Pandas & NumPy", SE.AnalyticsMl, 90, 2),
      CreateSkill("TensorFlow", SE.AnalyticsMl, 78, 3),
      CreateSkill("Tableau/PowerBI", SE.AnalyticsMl, 85, 4),
      CreateSkill("MLflow", SE.AnalyticsMl, 80, 5),

      CreateSkill("Git & GitHub", SE.DevelopmentTools, 92, 1),
      CreateSkill("CI/CD Pipelines", SE.DevelopmentTools, 88, 2),
      CreateSkill("Linux/Bash", SE.DevelopmentTools, 90, 3),
      CreateSkill("VS Code", SE.DevelopmentTools, 95, 4),
      CreateSkill("Jupyter Notebooks", SE.DevelopmentTools, 93, 5),

      CreateSkill("React & Next.js", SE.WebDevelopment, 88, 1),
      CreateSkill("TypeScript", SE.WebDevelopment, 85, 2),
      CreateSkill("Spring Boot", SE.WebDevelopment, 90, 3),
      CreateSkill("Tailwind CSS", SE.WebDevelopment, 90, 4),
      CreateSkill("REST APIs", SE.WebDevelopment, 92, 5) ]

  /** The thirty seed skills come in six runs of five, one run per category in the enum's
      declaration order, each run ordered 1..5. */
  lemma SeedSkillsFivePerCategory()
    ensures |SeedSkills| == 30
    ensures forall i :: 0 <= i < 30 ==>
              SeedSkills[i].category == Some(SE.Categories[i / 5]) && SeedSkills[i].displayOrder == i % 5 + 1
  {
  }

  /** Every seed skill passes the entity's validation; in particular its level lies in 0..100. */
  lemma SeedSkillsAreValid()
    ensures forall i :: 0 <= i < |SeedSkills| ==> SE.Valid(SeedSkills[i])
    ensures forall i :: 0 <= i < |SeedSkills| ==> 0 <= SeedSkills[i].level.value <= 100
  {
    var ss := SeedSkills;
    forall i | 0 <= i < |ss| ensures SE.Valid(ss[i]) {
      VisibleIsNotBlank(ss[i].name);
    }
  }

  // ---------------------------------------------------------------- seed repositories

  /** The description `createRepository` gives the repository of project 3. */
  const EnergyGameDescription: string :=
    "Interactive 3D educational game built "
      + "with Three.js by a team of 6 developers. "
      + "Features low-poly cartoon city with "
      + "animated wind turbines, particle "
      + "systems, procedural generation, and "
      + "real-time shadows. Teaches renewable "
      + "energy concepts through visual "
      + "exploration."

  /** The description `createRepository` gives the repository of project 4. */
  const PitstopPipelineDescription: string :=
    "Real-time data pipeline processing "
      + "Formula 1 pitstop data (1950-2024). "
      + "Features continuous file monitoring, "
      + "comprehensive F1-specific validation "
      + "(35+ teams & circuits), feature "
      + "engineering with 5 transformations, and "
      + "dual-output storage (local + Azure "
      + "Blob)."

  /** `createRepository(project)`: a new repository linked to `project`, named after it when
      its id is 3 or 4, and otherwise left with the entity defaults. No files are added. */
  function CreateRepository(project: PE.Project): (r: RE.CodeRepository)
    ensures r.project == Some(project.id) && r.files == [] && r.githubUrl == None
    ensures project.id == 3 ==>
              r.name == "Energy Education 3D Game" && r.description == Some(EnergyGameDescription)
              && r.displayOrder == 1
    ensures project.id == 4 ==>
              r.name == "Formula 1 Real-Time Processing Pipeline" && r.description == Some(PitstopPipelineDescription)
              && r.displayOrder == 1
    ensures project.id != 3 && project.id != 4 ==> r == RE.NewCodeRepository().(project := Some(project.id))
  {
    var repo := RE.NewCodeRepository().(project := Some(project.id));
    if project.id == 3 then
      repo.(name := "Energy Education 3D Game", description := Some(EnergyGameDescription), displayOrder := 1)
    else if project.id == 4 then
      repo.(name := "Formula 1 Real-Time Processing Pipeline", description := Some(PitstopPipelineDescription),
            displayOrder := 1)
    else
      repo
  }

  // ---------------------------------------------------------------- the three steps

  /** The three tables `run` touches, each with the next value of its identity column. */
  datatype Tables = Tables(
    projects: map<nat, PE.Project>, projectNext: nat,
    skills: map<nat, SE.Skill>, skillNext: nat,
    repositories: map<nat, RE.CodeRepository>, repositoryNext: nat)

  /** A fresh database: three empty tables whose identity columns start at 1. */
  function EmptyDatabase(): (t: Tables)
    ensures t.projects == map[] && t.skills == map[] && t.repositories == map[]
    ensures t.projectNext == 1 && t.skillNext == 1 && t.repositoryNext == 1
  {
    Tables(map[], 1, map[], 1, map[], 1)
  }

  /** Rows are stored under their own ids, all below the next identity value. */
  ghost predicate ValidTables(t: Tables) {
    && PE.KeyedProjects(t.projects) && (forall k :: k in t.projects ==> k < t.projectNext)
    && SE.KeyedSkills(t.skills) && (forall k :: k in t.skills ==> k < t.skillNext)
    && RE.KeyedRepositories(t.repositories) && (forall k :: k in t.repositories ==> k < t.repositoryNext)
  }

  /** `initializeProjects`: nothing when the project table holds a row, otherwise one
      `saveAll` of `seeds`. Only the project table changes. */
  function ProjectsSeeded(t: Tables, seeds: seq<PE.Project>, now: int): (r: Tables)
    ensures r.skills == t.skills && r.skillNext == t.skillNext
    ensures r.repositories == t.repositories && r.repositoryNext == t.repositoryNext
    ensures |t.projects| > 0 ==> r == t
  {
    if |t.projects| > 0 then t
    else t.(projects := t.projects + ProjectService.Batch(seeds, t.projectNext, now),
            projectNext := t.projectNext + |seeds|)
  }

  /** On an empty table the step stores exactly the batch `saveAll` builds from the seeds
      (see `ProjectService.BatchContents`), and advances the identity column past it. */
  lemma ProjectsSeededContents(t: Tables, seeds: seq<PE.Project>, now: int)
    requires |t.projects| == 0
    ensures ProjectsSeeded(t, seeds, now).projects == ProjectService.Batch(seeds, t.projectNext, now)
    ensures ProjectsSeeded(t, seeds, now).projectNext == t.projectNext + |seeds|
  {
    var b := ProjectService.Batch(seeds, t.projectNext, now);
    assert t.projects == map[];
    assert t.projects + b == b;
  }

  /** `initializeSkills`: nothing when the skill table holds a row, otherwise one `save`
      per seed, in order. Only the skill table changes. */
  function SkillsSeeded(t: Tables, seeds: seq<SE.Skill>, now: int): (r: Tables)
    ensures r.projects == t.projects && r.projectNext == t.projectNext
    ensures r.repositories == t.repositories && r.repositoryNext == t.repositoryNext
    ensures |t.skills| > 0 ==> r == t
  {
    if |t.skills| > 0 then t
    else t.(skills := t.skills + SkillService.Batch(seeds, t.skillNext, now),
            skillNext := t.skillNext + |seeds|)
  }

  /** On an empty table the step stores exactly the batch `saveAll` builds from the seeds
      (see `SkillService.BatchContents`), and advances the identity column past it. */
  lemma SkillsSeededContents(t: Tables, seeds: seq<SE.Skill>, now: int)
    requires |t.skills| == 0
    ensures SkillsSeeded(t, seeds, now).skills == SkillService.Batch(seeds, t.skillNext, now)
    ensures SkillsSeeded(t, seeds, now).skillNext == t.skillNext + |seeds|
  {
    var b := SkillService.Batch(seeds, t.skillNext, now);
    assert t.skills == map[];
    assert t.skills + b == b;
  }

  /** `initializeCodeRepositories`: nothing when the repository table holds a row or when
      project 3 or project 4 is missing; otherwise the repository of project 4 and then the
      repository of project 3 are saved, under the next two identity values. */
  function RepositoriesSeeded(t: Tables, now: int): (r: Tables)
    ensures r.projects == t.projects && r.projectNext == t.projectNext
    ensures r.skills == t.skills && r.skillNext == t.skillNext
    ensures |t.repositories| > 0 || 3 !in t.projects || 4 !in t.projects ==> r == t
    ensures |t.repositories| == 0 && 3 in t.projects && 4 in t.projects ==>
              var n := t.repositoryNext;
              && r.repositoryNext == n + 2
              && (forall k :: k in r.repositories <==> k == n || k == n + 1)
              && r.repositories[n] == CreateRepository(t.projects[4]).(id := n, createdAt := now)
              && r.repositories[n + 1] == CreateRepository(t.projects[3]).(id := n + 1, createdAt := now)
  {
    if |t.repositories| > 0 then t
    else if 3 in t.projects && 4 in t.projects then
      var n := t.repositoryNext;
      assert t.repositories == map[];
      t.(repositories := t.repositories[n := CreateRepository(t.projects[4]).(id := n, createdAt := now)]
                                       [n + 1 := CreateRepository(t.projects[3]).(id := n + 1, createdAt := now)],
         repositoryNext := n + 2)
    else t
  }

  /** `run`: the three steps in order, projects first, so that the repository step sees the
      projects the first step saved. */
  function Seeded(t: Tables, projectSeeds: seq<PE.Project>, skillSeeds: seq<SE.Skill>, now: int): Tables {
    RepositoriesSeeded(SkillsSeeded(ProjectsSeeded(t, projectSeeds, now), skillSeeds, now), now)
  }

  /** The project step keeps every table keyed by id and below its identity value. */
  lemma ProjectsStepKeepsValid(t: Tables, seeds: seq<PE.Project>, now: int)
    requires ValidTables(t)
    ensures ValidTables(ProjectsSeeded(t, seeds, now))
  {
    if |t.projects| == 0 {
      ProjectsSeededContents(t, seeds, now);
      ProjectService.BatchContents(seeds, t.projectNext, now);
    }
  }

  /** The skill step keeps every table keyed by id and below its identity value. */
  lemma SkillsStepKeepsValid(t: Tables, seeds: seq<SE.Skill>, now: int)
    requires ValidTables(t)
    ensures ValidTables(SkillsSeeded(t, seeds, now))
  {
    if |t.skills| == 0 {
      SkillsSeededContents(t, seeds, now);
      SkillService.BatchContents(seeds, t.skillNext, now);
    }
  }

  /** The repository step keeps every table keyed by id and below its identity value. */
  lemma RepositoriesStepKeepsValid(t: Tables, now: int)
    requires ValidTables(t)
    ensures ValidTables(RepositoriesSeeded(t, now))
  {
  }

  /** `run` leaves a consistent database consistent: every row under its own id, and every
      id below the next identity value, so later saves cannot overwrite a seeded row. */
  lemma {:induction false} SeededKeepsValid(t: Tables, projectSeeds: seq<PE.Project>, skillSeeds: seq<SE.Skill>, now: int)
    requires ValidTables(t)
    ensures ValidTables(Seeded(t, projectSeeds, skillSeeds, now))
  {
    ProjectsStepKeepsValid(t, projectSeeds, now);
    var p1 := ProjectsSeeded(t, projectSeeds, now);
    SkillsStepKeepsValid(p1, skillSeeds, now);
    RepositoriesStepKeepsValid(SkillsSeeded(p1, skillSeeds, now), now);
  }

  /** A table holding one of `m`'s keys is not empty. */
  lemma NonEmptyMap<V>(m: map<nat, V>, k: nat)
    requires k in m
    ensures |m| > 0
  {
    assert m != map[];
  }

  /** After the project step the table is non-empty, or it is the table it was. */
  lemma ProjectsStepSettles(t: Tables, seeds: seq<PE.Project>, now: int)
    ensures var r := ProjectsSeeded(t, seeds, now);
            |r.projects| > 0 || r.projects == t.projects
  {
    if |t.projects| == 0 {
      ProjectsSeededContents(t, seeds, now);
      ProjectService.BatchContents(seeds, t.projectNext, now);
      var r := ProjectsSeeded(t, seeds, now);
      if |seeds| > 0 {
        NonEmptyMap(r.projects, t.projectNext);
      } else {
        assert r.projects == t.projects;
      }
    }
  }

  /** After the skill step the table is non-empty, or it is the table it was. */
  lemma SkillsStepSettles(t: Tables, seeds: seq<SE.Skill>, now: int)
    ensures var r := SkillsSeeded(t, seeds, now);
            |r.skills| > 0 || r.skills == t.skills
  {
    if |t.skills| == 0 {
      SkillsSeededContents(t, seeds, now);
      SkillService.BatchContents(seeds, t.skillNext, now);
      var r := SkillsSeeded(t, seeds, now);
      if |seeds| > 0 {
        NonEmptyMap(r.skills, t.skillNext);
      } else {
        assert r.skills == t.skills;
      }
    }
  }

  /** `run` is idempotent: a second run, at any later time, changes nothing, because every
      step finds its table non-empty or finds the same reason to skip as the first time. */
  lemma {:induction false} RunIsIdempotent(t: Tables, projectSeeds: seq<PE.Project>, skillSeeds: seq<SE.Skill>,
                                           now1: int, now2: int)
    ensures var once := Seeded(t, projectSeeds, skillSeeds, now1);
            Seeded(once, projectSeeds, skillSeeds, now2) == once
  {
    var p1 := ProjectsSeeded(t, projectSeeds, now1);
    var s1 := SkillsSeeded(p1, skillSeeds, now1);
    var once := RepositoriesSeeded(s1, now1);
    ProjectsStepSettles(t, projectSeeds, now1);
    SkillsStepSettles(p1, skillSeeds, now1);
    // The second run's project step: the table is non-empty, or it is still the one the
    // first run found empty and filled with nothing.
    var p2 := ProjectsSeeded(once, projectSeeds, now2);
    if |once.projects| == 0 {
      assert p1.projects == t.projects;
      assert p2.projects == once.projects;
    }
    assert p2 == once;
    // The second run's skill step, likewise.
    var s2 := SkillsSeeded(p2, skillSeeds, now2);
    if |once.skills| == 0 {
      assert s1.skills == p1.skills;
      assert s2.skills == once.skills;
    }
    assert s2 == once;
    // The second run's repository step: the first run saved two rows, or it skipped for a
    // reason that still holds.
    if |s1.repositories| == 0 && 3 in s1.projects && 4 in s1.projects {
      NonEmptyMap(once.repositories, s1.repositoryNext);
    }
  }

  /** On a fresh database, the project step stores the seeds under ids `1 ..`, so that with
      at least four seeds both project 3 and project 4 exist for the repository step. */
  lemma FreshProjects(projectSeeds: seq<PE.Project>, now: int)
    requires |projectSeeds| >= 4
    ensures var r := ProjectsSeeded(EmptyDatabase(), projectSeeds, now);
            && (forall k :: k in r.projects <==> 1 <= k <= |projectSeeds|)
            && (forall i :: 0 <= i < |projectSeeds| ==> r.projects[i + 1] == projectSeeds[i].(id := i + 1, createdAt := now))
            && r.projects[3].id == 3 && r.projects[4].id == 4
  {
    ProjectsSeededContents(EmptyDatabase(), projectSeeds, now);
    ProjectService.BatchContents(projectSeeds, 1, now);
    var r := ProjectsSeeded(EmptyDatabase(), projectSeeds, now);
    assert r.projects[1 + 2] == projectSeeds[2].(id := 1 + 2, createdAt := now);
    assert r.projects[1 + 3] == projectSeeds[3].(id := 1 + 3, createdAt := now);
  }

  /** On a fresh database `run` saves the repository of project 4 under id 1 and that of
      project 3 under id 2. The order of the steps matters: the repository step on its own
      finds no projects and saves nothing. */
  lemma {:induction false} FreshDatabase(projectSeeds: seq<PE.Project>, skillSeeds: seq<SE.Skill>, now: int)
    requires |projectSeeds| >= 4
    ensures RepositoriesSeeded(EmptyDatabase(), now) == EmptyDatabase()
    ensures var r := Seeded(EmptyDatabase(), projectSeeds, skillSeeds, now);
            && (forall k :: k in r.repositories <==> k == 1 || k == 2)
            && r.repositories[1].name == "Formula 1 Real-Time Processing Pipeline" && r.repositories[1].project == Some(4)
            && r.repositories[2].name == "Energy Education 3D Game" && r.repositories[2].project == Some(3)
            && r.repositoryNext == 3
  {
    FreshProjects(projectSeeds, now);
    var p1 := ProjectsSeeded(EmptyDatabase(), projectSeeds, now);
    var s1 := SkillsSeeded(p1, skillSeeds, now);
    assert s1.projects == p1.projects && s1.repositories == map[] && s1.repositoryNext == 1;
    assert 3 in s1.projects && 4 in s1.projects;
  }

  // ---------------------------------------------------------------- the runner

  /** The runner, over the three tables it seeds. */
  class Initializer {
    const projects: ProjectService.Service
    const skills: SkillService.Service
    const repositories: CodeRepositoryService.Service
    /** The data hard-coded in `initializeProjects` and `initializeSkills`. */
    const projectSeeds: seq<PE.Project>
    const skillSeeds: seq<SE.Skill>

    ghost predicate Valid()
      reads this, projects, skills, repositories
    {
      projects.Valid() && skills.Valid() && repositories.Valid()
    }

    /** The contents of the three tables, with their identity counters. */
    function State(): Tables
      reads this, projects, skills, repositories
    {
      Tables(projects.projects, projects.nextId, skills.skills, skills.nextId,
             repositories.repositories, repositories.nextId)
    }

    /** The runner over three tables, holding the seed data. */
    constructor (projects: ProjectService.Service, skills: SkillService.Service,
                 repositories: CodeRepositoryService.Service)
      requires projects.Valid() && skills.Valid() && repositories.Valid()
      ensures Valid()
      ensures this.projects == projects && this.skills == skills && this.repositories == repositories
      ensures projectSeeds == SeedProjects && skillSeeds == SeedSkills
    {
      this.projects := projects;
      this.skills := skills;
      this.repositories := repositories;
      projectSeeds := SeedProjects;
      skillSeeds := SeedSkills;
    }

    /** `run`: the three guarded steps, in order. */
    method Run(now: int)
      requires Valid()
      modifies projects, skills, repositories
      ensures Valid()
      ensures State() == Seeded(old(State()), projectSeeds, skillSeeds, now)
    {
      InitializeProjects(now);
      InitializeSkills(now);
      InitializeCodeRepositories(now);
    }

    /** `initializeProjects`. */
    method InitializeProjects(now: int)
      requires Valid()
      modifies projects
      ensures Valid()
      ensures State() == ProjectsSeeded(old(State()), projectSeeds, now)
    {
      if |projects.projects| > 0 {
        return;
      }
      projects.SaveAll(projectSeeds, now);
    }

    /** `initializeSkills`: the thirty `save` calls, one per seed in order. */
    method InitializeSkills(now: int)
      requires Valid()
      modifies skills
      ensures Valid()
      ensures State() == SkillsSeeded(old(State()), skillSeeds, now)
    {
      if |skills.skills| > 0 {
        return;
      }
      skills.SaveAll(skillSeeds, now);
    }

    /** `initializeCodeRepositories`. */
    method InitializeCodeRepositories(now: int)
      requires Valid()
      modifies repositories
      ensures Valid()
      ensures State() == RepositoriesSeeded(old(State()), now)
    {
      if |repositories.repositories| > 0 {
        return;
      }
      var project3 := ProjectService.GetProjectById(projects.projects, 3);
      var project4 := ProjectService.GetProjectById(projects.projects, 4);
      if project3.Some? && project4.Some? {
        var saved4 := repositories.CreateRepository(CreateRepository(project4.value), now);
        var saved3 := repositories.CreateRepository(CreateRepository(project3.value), now);
      }
    }
  }
}
