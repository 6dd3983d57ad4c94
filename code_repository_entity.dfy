/** The `CodeRepository` entity and its embedded `CodeFile`
    (backend/.../domain/model/CodeRepository.java). */
module CodeRepositoryEntity {
  import opened Wrappers
  import opened Text

  /** One file of a repository snapshot. Every column may hold `null` in the Java object;
      `fileName`, `filePath` and `language` are declared `nullable = false`. */
  datatype CodeFile = CodeFile(
    fileName: Option<string>,
    filePath: Option<string>,
    content: Option<string>,
    language: Option<string>,
    lines: Option<int>)

  /** The columns `CodeFile` declares `nullable = false`; `content` and `lines` may be absent. */
  predicate ValidFile(f: CodeFile) {
    f.fileName.Some? && f.filePath.Some? && f.language.Some?
  }

  /** A repository row. `project` is the id held in the `project_id` join column. */
  datatype CodeRepository = CodeRepository(
    id: nat,
    name: string,
    description: Option<string>,
    project: Option<nat>,
    files: seq<CodeFile>,
    githubUrl: Option<string>,
    displayOrder: int,
    createdAt: int)

  /** `new CodeRepository()`: `files` starts empty and `displayOrder` at 0. */
  function NewCodeRepository(): (r: CodeRepository)
    ensures r.files == [] && r.displayOrder == 0
    ensures Blank(r.name) && r.project == None && r.description == None
  {
    CodeRepository(0, "", None, None, [], None, 0, 0)
  }

  /** `@NotBlank name`, and every embedded file has its non-null columns. */
  predicate Valid(r: CodeRepository) {
    !Blank(r.name) && forall i :: 0 <= i < |r.files| ==> ValidFile(r.files[i])
  }

  /** Every row of a repository table is stored under its own id. */
  ghost predicate KeyedRepositories(m: map<nat, CodeRepository>) {
    forall k :: k in m ==> m[k].id == k
  }
}
