/** `CodeRepositoryService` (backend/.../service/CodeRepositoryService.java) over the code repositories table. */
module CodeRepositoryService {
  import opened Wrappers
  import opened Listing
  import opened CodeRepositoryEntity

  /** `getAllRepositories` = `findAllByOrderByDisplayOrderAsc`. */
  function GetAllRepositories(repositories: map<nat, CodeRepository>): (r: seq<CodeRepository>)
    requires KeyedRepositories(repositories)
    ensures forall x :: x in r <==> x in repositories.Values
    ensures Distinct(r)
    ensures forall i, j :: 0 <= i < j < |r| ==> r[i].displayOrder <= r[j].displayOrder
  {
    var keep := (x: CodeRepository) => true;
    var r := Query(repositories, (x: CodeRepository) => x.id, keep, (x: CodeRepository) => x.displayOrder);
    ListsExactlyMembers(r, repositories, keep);
    r
  }

  /** `getRepositoryById` = `findById`. */
  function GetRepositoryById(repositories: map<nat, CodeRepository>, id: nat): (r: Option<CodeRepository>)
    ensures r.Some? <==> id in repositories
    ensures r.Some? ==> r.value == repositories[id]
  {
    if id in repositories then Some(repositories[id]) else None
  }

  /** `getRepositoriesByProjectId` = `findByProjectIdOrderByDisplayOrderAsc`. */
  function GetRepositoriesByProjectId(repositories: map<nat, CodeRepository>, projectId: nat): (r: seq<CodeRepository>)
    requires KeyedRepositories(repositories)
    ensures forall x :: x in r <==> x in repositories.Values && x.project == Some(projectId)
    ensures Distinct(r)
    ensures forall i, j :: 0 <= i < j < |r| ==> r[i].displayOrder <= r[j].displayOrder
  {
    var keep := (x: CodeRepository) => x.project == Some(projectId);
    var r := Query(repositories, (x: CodeRepository) => x.id, keep, (x: CodeRepository) => x.displayOrder);
    ListsExactlyMembers(r, repositories, keep);
    r
  }

  /** The six setters `updateRepository` runs on the existing entity. */
  function WithDetails(existing: CodeRepository, updated: CodeRepository): (r: CodeRepository)
    ensures r.name == updated.name && r.description == updated.description
    ensures r.project == updated.project && r.files == updated.files
    ensures r.githubUrl == updated.githubUrl && r.displayOrder == updated.displayOrder
    ensures r.id == existing.id && r.createdAt == existing.createdAt
  {
    existing.(name := updated.name, description := updated.description, project := updated.project,
              files := updated.files, githubUrl := updated.githubUrl, displayOrder := updated.displayOrder)
  }

  /** Applying the same update twice is the same as applying it once. */
  lemma UpdateIsIdempotent(existing: CodeRepository, updated: CodeRepository)
    ensures WithDetails(WithDetails(existing, updated), updated) == WithDetails(existing, updated)
  {
  }

  /** An update with a valid repository leaves a valid one, whatever was stored. */
  lemma UpdateKeepsValid(existing: CodeRepository, updated: CodeRepository)
    requires Valid(updated)
    ensures Valid(WithDetails(existing, updated))
  {
  }

  /** The code repositories table, with the identity counter of its `id` column. The class stands
      for both the Spring service and the JPA repository behind it. */
  class Service {
    var repositories: map<nat, CodeRepository>
    var nextId: nat

    /** Rows are stored under their own ids, all below the next identity value. */
    ghost predicate Valid()
      reads this
    {
      KeyedRepositories(repositories) && forall k :: k in repositories ==> k < nextId
    }

    /** An empty table whose identity column starts at 1. */
    constructor ()
      ensures Valid() && repositories == map[] && nextId == 1
    {
      repositories := map[];
      nextId := 1;
    }

    /** `createRepository` = `save` of a new entity: inserted under the next identity value,
        stamped with the creation time `now`. */
    method CreateRepository(repository: CodeRepository, now: int) returns (saved: CodeRepository)
      requires Valid()
      modifies this
      ensures Valid()
      ensures saved == repository.(id := old(nextId), createdAt := now)
      ensures old(nextId) !in old(repositories)
      ensures repositories == old(repositories)[saved.id := saved] && nextId == old(nextId) + 1
    {
      saved := repository.(id := nextId, createdAt := now);
      repositories := repositories[nextId := saved];
      nextId := nextId + 1;
    }

    /** `updateRepository`: empty for an unknown id; otherwise the six fields are replaced
        and the saved entity is returned. */
    method UpdateRepository(id: nat, updated: CodeRepository) returns (r: Option<CodeRepository>)
      requires Valid()
      modifies this
      ensures Valid() && nextId == old(nextId)
      ensures id !in old(repositories) ==> r == None && repositories == old(repositories)
      ensures id in old(repositories) ==>
                r == Some(WithDetails(old(repositories)[id], updated))
                && repositories == old(repositories)[id := r.value]
    {
      if id !in repositories {
        return None;
      }
      var saved := WithDetails(repositories[id], updated);
      repositories := repositories[id := saved];
      r := Some(saved);
    }

    /** `deleteRepository`: true exactly when the id was stored, and then only that row is removed. */
    method DeleteRepository(id: nat) returns (deleted: bool)
      requires Valid()
      modifies this
      ensures Valid() && nextId == old(nextId)
      ensures deleted <==> id in old(repositories)
      ensures repositories == old(repositories) - {id}
      ensures !deleted ==> repositories == old(repositories)
    {
      deleted := id in repositories;
      if deleted {
        repositories := repositories - {id};
      }
    }
  }
}
