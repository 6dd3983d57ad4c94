# Portfolio site — verified model of its core logic

This project models in Dafny the parts of the portfolio site (a Next.js front end and
a Spring Boot back end) that carry logic:

- **Skill grouping** (`components/Skills.tsx`). The skills section maps over the
  `SkillCategory` values, builds one titled group per category and then drops the
  empty groups. Module `SkillGrouping` models this as pure functions. Its lemmas
  prove:
  - groups come out in declaration order;
  - no group is empty;
  - each group holds exactly the input's skills of its category, with their
    multiplicity and in input order;
  - every skill that has a category lands in exactly one group;
  - a category gets a group exactly when some skill has it.
- **Code viewer** (`components/CodeViewer.tsx`). Class `CodeViewer.Viewer` holds the
  component state `selectedFile` and `copied`, plus a count of the reset timers still
  pending. Its events are *select*, *copy* (the clipboard write succeeds or fails)
  and *timer fired*. The pure helpers give:
  - the initial selection;
  - the empty-state test;
  - the active-entry test, which compares `fileName`s;
  - the button caption.
- **Entities**. These are datatypes; the nullable `String`, enum and `Integer` columns
  other than `displayOrder` are `Option`s.
  - `Skill`, `Project` and `CodeRepository` each have a `Valid` predicate and a
    function giving the defaults of the no-argument constructor.
  - `Valid` states the bean constraints (`@NotBlank`, `@NotNull`, `@Min`, `@Max`) and the
    column constraints: the 1000-character `description` of `Project`, and the
    `nullable = false` columns of the embedded `CodeFile`.
  - `ContactMessage` takes its fields from `lib/api.ts` and has no constraints or defaults.
- **Services** (`SkillService`, `ProjectService`, `CodeRepositoryService`,
  `ContactMessageService`). Each table is a `class Service` holding a
  `map<nat, Record>` and the next identity value, which starts at 1.
  - Derived queries are pure functions over the map, built on the generic `Listing`
    module: enumerate the rows, filter, then stable-sort.
  - Their contracts state exactly which rows are listed, that none is listed twice,
    and the sort order.
  - Create, update and delete are methods. Each states the whole new table, the
    error case and what stays unchanged.
- **Seeding** (`DataInitializationService`). The steps are modelled twice:
  - as pure functions over a `Tables` value: `ProjectsSeeded`, `SkillsSeeded`,
    `RepositoriesSeeded` and their composition `Seeded`;
  - as class `DataInitialization.Initializer`, whose methods call the service
    methods and are proved equal to those functions.

  Proved about seeding:
  - `run` is idempotent;
  - `run` keeps every table keyed by id, with all ids below the next identity value;
  - on a fresh database the repositories of projects 4 and 3 get ids 1 and 2;
  - the seed data have the stated shape: nine featured projects ordered 1..9, and
    thirty valid skills, five per category, ordered 1..5 within each category.

The listing contracts use these predicates from `Listing`:
- `Distinct`: no element appears twice;
- `Subsequence`: the elements appear in the input's order;
- `Ascending`: sorted by a key.

The persistence layer is treated as a plain map:
- `save` of a new entity inserts it under the next identity value and stamps
  `createdAt` with an abstract instant `now`;
- `findById` is map lookup;
- `deleteById` is map removal.

The code viewer shows a flat list of files, and `copied` is one flag for the whole viewer.

## Model

| member | source | states |
|---|---|---|
| SkillEntity.Rank | backend/src/main/java/com/portfolio/domain/model/Skill.java:53-60 | every category has a position below six, and the category list holds the category at that position |
| SkillEntity.NewSkill | backend/src/main/java/com/portfolio/domain/model/Skill.java:21-43 | a new skill has `displayOrder` 0; name, category and level are unset |
| SkillEntity.NewSkillIsInvalid | backend/src/main/java/com/portfolio/domain/model/Skill.java:27-40 | a default skill fails the `@NotBlank`/`@NotNull`/`@Min`/`@Max` constraints |
| ProjectEntity.NewProject | backend/src/main/java/com/portfolio/domain/model/Project.java:43-64 | new project defaults: no tags, gradients "purple-600"/"pink-600", not featured, `displayOrder` 0, title, description and category unset |
| ProjectEntity.NewProjectIsInvalid | backend/src/main/java/com/portfolio/domain/model/Project.java:27-38 | a default project fails the title, description and category constraints |
| CodeRepositoryEntity.NewCodeRepository | backend/src/main/java/com/portfolio/domain/model/CodeRepository.java:35-43 | a new repository has no files and `displayOrder` 0; its name, project and description are unset |
| SkillService.GetAllSkills | backend/src/main/java/com/portfolio/service/SkillService.java:21-24 | lists exactly the stored skills, each once, in ascending `displayOrder` |
| SkillService.GetSkillsByCategory | backend/src/main/java/com/portfolio/service/SkillService.java:26-29 | lists exactly the stored skills of category `c`, each once, in ascending `displayOrder` |
| SkillService.GetSkillById | backend/src/main/java/com/portfolio/service/SkillService.java:31-34 | present iff the id is stored, and then it is the stored skill |
| SkillService.WithDetails | backend/src/main/java/com/portfolio/service/SkillService.java:46-49 | name, category, level and displayOrder come from the details; id and `createdAt` are kept |
| SkillService.UpdateIsIdempotent | backend/src/main/java/com/portfolio/service/SkillService.java:41-52 | applying the same details twice equals applying them once |
| SkillService.UpdateKeepsValid | backend/src/main/java/com/portfolio/service/SkillService.java:41-52 | valid details give a valid skill, whatever was stored |
| SkillService.BatchContents | backend/src/main/java/com/portfolio/service/DataInitializationService.java:155-194 | a run of saves stores item `i` under identity `first + i`, stamped with `now`, and stores no other key |
| SkillService.DeleteRemovesOnlyThatSkill | backend/src/main/java/com/portfolio/service/SkillService.java:54-57 | after deleting `id`, the full listing is the old one without the skill of that id |
| SkillService.Service.CreateSkill | backend/src/main/java/com/portfolio/service/SkillService.java:36-39 | the skill is stored under a fresh identity value; the counter advances; other rows are unchanged |
| SkillService.Service.SaveAll | backend/src/main/java/com/portfolio/service/DataInitializationService.java:155-194 | the saves one by one add exactly `Batch(items)` to the table; the counter advances by `|items|` |
| SkillService.Service.UpdateSkill | backend/src/main/java/com/portfolio/service/SkillService.java:41-52 | unknown id: "Skill not found with id: …" and no change; otherwise only that row is replaced by `WithDetails` |
| SkillService.Service.DeleteSkill | backend/src/main/java/com/portfolio/service/SkillService.java:54-57 | the row under `id` is gone; every other row stays |
| ProjectService.GetAllProjects | backend/src/main/java/com/portfolio/service/ProjectService.java:21-24 | lists exactly the stored projects, each once, in ascending `displayOrder` |
| ProjectService.GetFeaturedProjects | backend/src/main/java/com/portfolio/service/ProjectService.java:26-29 | lists exactly the featured projects, each once, in ascending `displayOrder` |
| ProjectService.GetProjectsByCategory | backend/src/main/java/com/portfolio/service/ProjectService.java:31-34 | lists exactly the projects of category `c`, each once, in ascending `displayOrder` |
| ProjectService.GetProjectById | backend/src/main/java/com/portfolio/service/ProjectService.java:41-44 | present iff the id is stored, and then it is the stored project |
| ProjectService.WithDetails | backend/src/main/java/com/portfolio/service/ProjectService.java:56-66 | the eleven editable fields come from the details; id and `createdAt` are kept |
| ProjectService.UpdateIsIdempotent | backend/src/main/java/com/portfolio/service/ProjectService.java:51-69 | applying the same details twice equals applying them once |
| ProjectService.UpdateKeepsValid | backend/src/main/java/com/portfolio/service/ProjectService.java:51-69 | valid details give a valid project, whatever was stored |
| ProjectService.BatchContents | backend/src/main/java/com/portfolio/service/DataInitializationService.java:142 | `saveAll` stores item `i` under identity `first + i`, stamped with `now`, and stores no other key |
| ProjectService.DeleteRemovesOnlyThatProject | backend/src/main/java/com/portfolio/service/ProjectService.java:71-74 | after deleting `id`, the full listing is the old one without the project of that id |
| ProjectService.Service.CreateProject | backend/src/main/java/com/portfolio/service/ProjectService.java:46-49 | the project is stored under a fresh identity value; the counter advances; other rows are unchanged |
| ProjectService.Service.SaveAll | backend/src/main/java/com/portfolio/service/DataInitializationService.java:142 | `saveAll` adds exactly `Batch(items)` to the table; the counter advances by `|items|` |
| ProjectService.Service.UpdateProject | backend/src/main/java/com/portfolio/service/ProjectService.java:51-69 | unknown id: "Project not found with id: …" and no change; otherwise only that row is replaced by `WithDetails` |
| ProjectService.Service.DeleteProject | backend/src/main/java/com/portfolio/service/ProjectService.java:71-74 | the row under `id` is gone; every other row stays |
| CodeRepositoryService.GetAllRepositories | backend/src/main/java/com/portfolio/service/CodeRepositoryService.java:21-24 | lists exactly the stored repositories, each once, in ascending `displayOrder` |
| CodeRepositoryService.GetRepositoryById | backend/src/main/java/com/portfolio/service/CodeRepositoryService.java:26-29 | present iff the id is stored, and then it is the stored repository |
| CodeRepositoryService.GetRepositoriesByProjectId | backend/src/main/java/com/portfolio/service/CodeRepositoryService.java:31-34 | lists exactly the repositories linked to the project, each once, in ascending `displayOrder` |
| CodeRepositoryService.WithDetails | backend/src/main/java/com/portfolio/service/CodeRepositoryService.java:46-53 | name, description, project, files, githubUrl and displayOrder come from the update; id and `createdAt` are kept |
| CodeRepositoryService.UpdateIsIdempotent | backend/src/main/java/com/portfolio/service/CodeRepositoryService.java:43-55 | applying the same update twice equals applying it once |
| CodeRepositoryService.UpdateKeepsValid | backend/src/main/java/com/portfolio/service/CodeRepositoryService.java:43-55 | a valid update gives a valid repository, whatever was stored |
| CodeRepositoryService.Service.CreateRepository | backend/src/main/java/com/portfolio/service/CodeRepositoryService.java:36-40 | the repository is stored under a fresh identity value; the counter advances; other rows are unchanged |
| CodeRepositoryService.Service.UpdateRepository | backend/src/main/java/com/portfolio/service/CodeRepositoryService.java:42-55 | absent id: empty result and no change; present id: only that row is replaced and the saved row is returned |
| CodeRepositoryService.Service.DeleteRepository | backend/src/main/java/com/portfolio/service/CodeRepositoryService.java:57-66 | returns true iff the id was stored; only that row is removed; a false result changes nothing |
| ContactMessageService.GetAllMessages | backend/src/main/java/com/portfolio/service/ContactMessageService.java:21-24 | lists exactly the stored messages, each once, newest `createdAt` first |
| ContactMessageService.GetUnreadMessages | backend/src/main/java/com/portfolio/service/ContactMessageService.java:26-29 | lists exactly the unread messages, each once, newest first |
| ContactMessageService.GetMessageById | backend/src/main/java/com/portfolio/service/ContactMessageService.java:31-34 | present iff the id is stored, and then it is the stored message |
| ContactMessageService.ReadMarked | backend/src/main/java/com/portfolio/service/ContactMessageService.java:46-47 | the same ids are stored, and message `id` is read |
| ContactMessageService.MarkAsReadIsIdempotent | backend/src/main/java/com/portfolio/service/ContactMessageService.java:41-48 | marking a message read twice equals marking it once |
| ContactMessageService.MarkAsReadChangesOnlyTheFlag | backend/src/main/java/com/portfolio/service/ContactMessageService.java:46-47 | every other message, and every other field of this one, is unchanged |
| ContactMessageService.MarkAsReadLeavesUnread | backend/src/main/java/com/portfolio/service/ContactMessageService.java:26-29 | after marking, the unread list is the old one without message `id` |
| ContactMessageService.Service.CreateMessage | backend/src/main/java/com/portfolio/service/ContactMessageService.java:36-39 | the message is stored under a fresh identity value; the counter advances; other rows are unchanged |
| ContactMessageService.Service.MarkAsRead | backend/src/main/java/com/portfolio/service/ContactMessageService.java:41-48 | unknown id: "Contact message not found with id: …" and no change; otherwise the table becomes `ReadMarked` and the updated message is returned |
| ContactMessageService.Service.DeleteMessage | backend/src/main/java/com/portfolio/service/ContactMessageService.java:50-53 | the row under `id` is gone; every other row stays |
| SkillGrouping.GroupSkills | components/Skills.tsx:34-38 | at most six groups; a group is shown iff it is one of the per-category groups and has skills; the shown groups keep the per-category order |
| SkillGrouping.MembersOfCategory | components/Skills.tsx:37 | the inner filter keeps exactly the input's skills of that category, each as often as in the input, in input order |
| SkillGrouping.GroupIsOfItsCategory | components/Skills.tsx:34-38 | every shown group is the group built for its own category, and it is non-empty |
| SkillGrouping.CategoryGroupShown | components/Skills.tsx:34-38 | a category's group is shown iff that category has skills |
| SkillGrouping.GroupsInDeclarationOrder | components/Skills.tsx:34 | at most six groups, with category positions strictly increasing, so no category repeats |
| SkillGrouping.EachGroupIsItsCategory | components/Skills.tsx:13-38 | each shown group has its category's title and is non-empty; it holds exactly the input's skills of that category, with multiplicity and in input order |
| SkillGrouping.UsedCategoryIsShown | components/Skills.tsx:34-38 | a category that some skill has is shown |
| SkillGrouping.ShownCategoryIsUsed | components/Skills.tsx:34-38 | a shown category has a skill in the input |
| SkillGrouping.GroupPresentIffCategoryUsed | components/Skills.tsx:34-38 | a category is shown iff some fetched skill has it |
| SkillGrouping.SkillLandsInOneGroup | components/Skills.tsx:34-37 | a skill with a category is in exactly one group, that of its category; a skill without one is in none |
| CodeViewer.InitialSelection | components/CodeViewer.tsx:15 | the first file, or none exactly when the list is empty |
| CodeViewer.EmptyStateIffNoSelection | components/CodeViewer.tsx:15-33 | the empty-state placeholder is shown iff the initial selection is none |
| CodeViewer.SelectionHighlightsSameName | components/CodeViewer.tsx:55-57 | after selecting entry `i`, entry `j` is highlighted iff it has the same `fileName` |
| CodeViewer.DistinctNamesHighlightOne | components/CodeViewer.tsx:52-60 | when no two names are equal, selecting entry `i` highlights entry `i` alone |
| CodeViewer.Viewer.constructor | components/CodeViewer.tsx:15-16 | first render: the initial selection, `copied` false, no timer pending |
| CodeViewer.Viewer.Select | components/CodeViewer.tsx:55 | the clicked file becomes the selection; `copied` and pending timers are unchanged |
| CodeViewer.Viewer.HandleCopy | components/CodeViewer.tsx:18-24 | with no selection, no write and no change; `copied` is set and a timer is started only after a successful write; a failed write changes nothing |
| CodeViewer.Viewer.TimerFired | components/CodeViewer.tsx:22 | a pending timer fires: `copied` becomes false and one fewer timer is pending |
| CodeViewer.CopyThenSwitch | components/CodeViewer.tsx:16-87 | copying one file and then selecting another still shows "Copied!", on the new file |
| DataInitialization.SeedProject | backend/src/main/java/com/portfolio/service/DataInitializationService.java:43-52 | a seed project carries the given fields, is featured, and has no GitHub or live URL |
| DataInitialization.SeedProjectsAreFeaturedInOrder | backend/src/main/java/com/portfolio/service/DataInitializationService.java:43-142 | nine seed projects, all featured, with `displayOrder` 1..9 in list order |
| DataInitialization.CreateSkill | backend/src/main/java/com/portfolio/service/DataInitializationService.java:199-206 | a default skill with name, category, level and display order set |
| DataInitialization.SeedSkillsFivePerCategory | backend/src/main/java/com/portfolio/service/DataInitializationService.java:154-194 | thirty seed skills, five per category in declaration order, with `displayOrder` 1..5 within each category |
| DataInitialization.SeedSkillsAreValid | backend/src/main/java/com/portfolio/service/DataInitializationService.java:155-194 | every seed skill is valid, so its level lies in 0..100 |
| DataInitialization.CreateRepository | backend/src/main/java/com/portfolio/service/DataInitializationService.java:230-247 | linked to the project, with no files; project 3 gets the Energy game name and description, project 4 the Formula 1 pipeline's, both with `displayOrder` 1; any other project gets the defaults |
| DataInitialization.EmptyDatabase | backend/src/main/java/com/portfolio/service/DataInitializationService.java:21-23 | three empty tables whose identity values start at 1 |
| DataInitialization.ProjectsSeeded | backend/src/main/java/com/portfolio/service/DataInitializationService.java:34-38 | touches only the project table, and changes nothing when that table is non-empty |
| DataInitialization.ProjectsSeededContents | backend/src/main/java/com/portfolio/service/DataInitializationService.java:142 | on an empty project table, exactly the `saveAll` batch of the seeds is stored |
| DataInitialization.SkillsSeeded | backend/src/main/java/com/portfolio/service/DataInitializationService.java:146-150 | touches only the skill table, and changes nothing when that table is non-empty |
| DataInitialization.SkillsSeededContents | backend/src/main/java/com/portfolio/service/DataInitializationService.java:155-194 | on an empty skill table, exactly the batch of the thirty saves is stored |
| DataInitialization.RepositoriesSeeded | backend/src/main/java/com/portfolio/service/DataInitializationService.java:208-228 | no change when the table is non-empty or project 3 or 4 is missing; otherwise exactly two rows, project 4's repository first and then project 3's |
| DataInitialization.ProjectsStepSettles | backend/src/main/java/com/portfolio/service/DataInitializationService.java:34-38 | after the project step, the table is non-empty or is what it was |
| DataInitialization.SkillsStepSettles | backend/src/main/java/com/portfolio/service/DataInitializationService.java:146-150 | after the skill step, the table is non-empty or is what it was |
| DataInitialization.RunIsIdempotent | backend/src/main/java/com/portfolio/service/DataInitializationService.java:25-32 | a second `run`, at any time, leaves the tables as the first left them |
| DataInitialization.FreshProjects | backend/src/main/java/com/portfolio/service/DataInitializationService.java:142 | on a fresh database, seed `i` is stored under id `i + 1`, so projects 3 and 4 exist |
| DataInitialization.FreshDatabase | backend/src/main/java/com/portfolio/service/DataInitializationService.java:208-228 | on a fresh database, repository 1 is the Formula 1 pipeline of project 4 and repository 2 the Energy game of project 3; the repository step alone would save nothing |
| DataInitialization.Initializer.constructor | backend/src/main/java/com/portfolio/service/DataInitializationService.java:16-23 | holds the three tables and the hard-coded seed data |
| DataInitialization.Initializer.Run | backend/src/main/java/com/portfolio/service/DataInitializationService.java:25-32 | the tables end as `Seeded` of the tables before: projects, then skills, then repositories |
| DataInitialization.Initializer.InitializeProjects | backend/src/main/java/com/portfolio/service/DataInitializationService.java:34-144 | the tables end as `ProjectsSeeded` of the tables before |
| DataInitialization.Initializer.InitializeSkills | backend/src/main/java/com/portfolio/service/DataInitializationService.java:146-197 | the tables end as `SkillsSeeded` of the tables before |
| DataInitialization.Initializer.InitializeCodeRepositories | backend/src/main/java/com/portfolio/service/DataInitializationService.java:208-228 | the tables end as `RepositoriesSeeded` of the tables before |
| SkillEntity.Valid | backend/src/main/java/com/portfolio/domain/model/Skill.java:27-40 | a skill is valid iff its name is not blank, it has a category, and it has a level within 0..100 |
| ProjectEntity.Valid | backend/src/main/java/com/portfolio/domain/model/Project.java:27-38 | a project is valid iff its title is not blank, its description is not blank and at most 1000 characters, and it has a category |
| CodeRepositoryEntity.ValidFile | backend/src/main/java/com/portfolio/domain/model/CodeRepository.java:55-69 | a code file needs `fileName`, `filePath` and `language`; `content` and `lines` may be absent |
| CodeRepositoryEntity.Valid | backend/src/main/java/com/portfolio/domain/model/CodeRepository.java:23-37 | a repository is valid iff its name is not blank and every embedded file is valid |
| Text.Blank | backend/src/main/java/com/portfolio/domain/model/Skill.java:27 | the `@NotBlank` test: a string is blank iff every character is at most U+0020, so trimming leaves nothing |
| Text.Decimal | backend/src/main/java/com/portfolio/service/SkillService.java:44 | the id as Java concatenation renders it: a non-empty string of decimal digits |
| Text.DecimalValue | backend/src/main/java/com/portfolio/service/SkillService.java:44 | the digits of `Decimal(n)` spell `n`, with no leading zero except for `0` itself |
| SkillService.NotFound | backend/src/main/java/com/portfolio/service/SkillService.java:44 | the message "Skill not found with id: " followed by the id's digits |
| SkillService.Batch | backend/src/main/java/com/portfolio/service/DataInitializationService.java:155-194 | the rows one save per item inserts, item `i` under identity `first + i` (contents proved in `BatchContents`) |
| ProjectService.NotFound | backend/src/main/java/com/portfolio/service/ProjectService.java:54 | the message "Project not found with id: " followed by the id's digits |
| ProjectService.Batch | backend/src/main/java/com/portfolio/service/DataInitializationService.java:142 | the rows `saveAll` inserts, item `i` under identity `first + i` (contents proved in `BatchContents`) |
| ContactMessageService.NotFound | backend/src/main/java/com/portfolio/service/ContactMessageService.java:44 | the message "Contact message not found with id: " followed by the id's digits |
| SkillGrouping.CategoryTitle | components/Skills.tsx:13-20 | the `categoryTitles` table: one title per category |
| SkillGrouping.Members | components/Skills.tsx:37 | the inner `filter`: the input's skills whose category is `c`, in input order |
| SkillGrouping.GroupFor | components/Skills.tsx:34-37 | the object the `map` callback builds: category, its title, and its members |
| SkillGrouping.AllGroups | components/Skills.tsx:34-37 | the `map` over the six categories in declaration order, one group each |
| SkillGrouping.HasSkills | components/Skills.tsx:38 | the outer `filter`'s test: the group has at least one skill |
| CodeViewer.ShowsEmptyState | components/CodeViewer.tsx:26-33 | the "No code files available" placeholder shows iff the file list is empty |
| CodeViewer.IsActive | components/CodeViewer.tsx:57 | an entry is highlighted iff there is a selection and its `fileName` equals the entry's |
| CodeViewer.CopyLabel | components/CodeViewer.tsx:79-89 | the button reads "Copied!" while `copied` is set and "Copy" otherwise |
| DataInitialization.SeedProjects | backend/src/main/java/com/portfolio/service/DataInitializationService.java:43-142 | the nine projects built by the setters, in the order handed to `saveAll` (shape proved in `SeedProjectsAreFeaturedInOrder`) |
| DataInitialization.SeedSkills | backend/src/main/java/com/portfolio/service/DataInitializationService.java:155-194 | the thirty `createSkill` calls, in save order (shape proved in `SeedSkillsFivePerCategory`) |
| DataInitialization.ValidTables | backend/src/main/java/com/portfolio/service/DataInitializationService.java:21-23 | each of the three tables stores every row under its own id, below the next identity value |
| DataInitialization.Seeded | backend/src/main/java/com/portfolio/service/DataInitializationService.java:26-32 | `run` as the composition of the three steps: projects, then skills, then repositories |
| DataInitialization.ProjectsStepKeepsValid | backend/src/main/java/com/portfolio/service/DataInitializationService.java:34-144 | the project step preserves `ValidTables` |
| DataInitialization.SkillsStepKeepsValid | backend/src/main/java/com/portfolio/service/DataInitializationService.java:146-197 | the skill step preserves `ValidTables` |
| DataInitialization.RepositoriesStepKeepsValid | backend/src/main/java/com/portfolio/service/DataInitializationService.java:208-228 | the repository step preserves `ValidTables` |
| DataInitialization.SeededKeepsValid | backend/src/main/java/com/portfolio/service/DataInitializationService.java:25-32 | `run` preserves `ValidTables`, so later saves never overwrite a seeded row |

## Left out

- Rendering, animation, styling, syntax highlighting, and the loading and error flows of
  `fetchSkills`: these are presentation and are outside this model.
- HTTP clients and REST controllers: network plumbing. `lib/api.ts` is used only for the
  shapes of `Skill`, `SkillCategory` and `ContactMessage`.
- `getProjectsByTag` (`findByTagsContainingIgnoreCase…`): its matching rule is defined
  by Spring Data, which is not part of this model, and the model does no case folding.
- Order among rows with equal `displayOrder` (or equal `createdAt`): Spring Data leaves
  it open. The model lists ties by id, but no contract claims that order.
- `deleteSkill`, `deleteProject` and `deleteMessage` on an absent id are modelled as
  doing nothing. Older Spring Data versions throw instead, and that exception is not
  modelled.
- `updatedAt` and the clock: `@CreationTimestamp` becomes the `now` parameter of a save.
  A seeding run uses one `now` for all its saves. `updatedAt` is not modelled.
- Widths and nulls: ids are unbounded naturals and `Integer` fields unbounded
  integers. Nullable strings are `Option`s; a null `@NotBlank` string is modelled as the
  empty string, which is equally blank.
- SkillService.Service.CreateSkill, SkillService.Service.SaveAll, SkillService.Service.UpdateSkill,
  ProjectService.Service.CreateProject, ProjectService.Service.SaveAll,
  ProjectService.Service.UpdateProject, CodeRepositoryService.Service.CreateRepository and
  CodeRepositoryService.Service.UpdateRepository store any entity, including one that fails
  `Valid`. In the back end, Bean Validation at pre-persist and pre-update, and the
  `nullable = false` and `length = 1000` columns, would make such a `save` throw and store
  nothing. The controllers' `@Valid` already rejects such bodies over HTTP. The model's
  tables are therefore not promised to hold only valid rows.
- Null `displayOrder` and `isFeatured`: these are nullable `Integer`/`Boolean` fields
  (Skill.java:43, Project.java:61-64, CodeRepository.java:43), modelled as plain `int` and
  `bool`. An update whose details carry a null stores null, and where the database sorts
  that null in `…OrderByDisplayOrderAsc` is not modelled; every model value is a number.
- A create request that already carries an id, which JPA would merge rather than insert:
  every create inserts a new row.
- The embedded `CodeFile` and the repository's `project` are stored as values (the
  project as its id). Lazy loading and the `Project` object graph are not modelled.
- `ContactMessage` validation: the entity source is not part of this model. Its fields
  follow `lib/api.ts`, and no constraints are stated for it.
- `initializeSkills` makes thirty `save` calls. The model performs them through the
  service's `SaveAll` loop, which makes one `save` per element in the same order.
- DataInitialization.SeedProjects: the nine descriptions are not proved to fit the
  1000-character column or to be non-blank; the featured flags and display orders are proved.
- The clipboard API, `setTimeout` and promise handling: the outcome of the clipboard write
  is a parameter of `HandleCopy`, and timer expiry is the `TimerFired` event. Unmounting
  while a timer is pending is not modelled.
- Log messages (`log.info`, `log.debug`, `log.warn`): these are side output only.
