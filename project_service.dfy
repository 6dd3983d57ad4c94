/** `ProjectService` (backend/.../service/ProjectService.java) over the projects table. */
module ProjectService {
  import opened Wrappers
  import opened Text
  import opened Listing
  import opened ProjectEntity

  /** `getAllProjects` = `findAllByOrderByDisplayOrderAsc`: every stored project, by `displayOrder`. */
  function GetAllProjects(projects: map<nat, Project>): (r: seq<Project>)
    requires KeyedProjects(projects)
    ensures forall p :: p in r <==> p in projects.Values
    ensures Distinct(r)
    ensures forall i, j :: 0 <= i < j < |r| ==> r[i].displayOrder <= r[j].displayOrder
  {
    var keep := (p: Project) => true;
    var r := Query(projects, (p: Project) => p.id, keep, (p: Project) => p.displayOrder);
    ListsExactlyMembers(r, projects, keep);
    r
  }

  /** `getFeaturedProjects` = `findByIsFeaturedTrueOrderByDisplayOrderAsc`. */
  function GetFeaturedProjects(projects: map<nat, Project>): (r: seq<Project>)
    requires KeyedProjects(projects)
    ensures forall p :: p in r <==> p in projects.Values && p.isFeatured
    ensures Distinct(r)
    ensures forall i, j :: 0 <= i < j < |r| ==> r[i].displayOrder <= r[j].displayOrder
  {
    var keep := (p: Project) => p.isFeatured;
    var r := Query(projects, (p: Project) => p.id, keep, (p: Project) => p.displayOrder);
    ListsExactlyMembers(r, projects, keep);
    r
  }

  /** `getProjectsByCategory` = `findByCategoryOrderByDisplayOrderAsc`. */
  function GetProjectsByCategory(projects: map<nat, Project>, c: ProjectCategory): (r: seq<Project>)
    requires KeyedProjects(projects)
    ensures forall p :: p in r <==> p in projects.Values && p.category == Some(c)
    ensures Distinct(r)
    ensures forall i, j :: 0 <= i < j < |r| ==> r[i].displayOrder <= r[j].displayOrder
  {
    var keep := (p: Project) => p.category == Some(c);
    var r := Query(projects, (p: Project) => p.id, keep, (p: Project) => p.displayOrder);
    ListsExactlyMembers(r, projects, keep);
    r
  }

  /** `getProjectById` = `findById`. */
  function GetProjectById(projects: map<nat, Project>, id: nat): (r: Option<Project>)
    ensures r.Some? <==> id in projects
    ensures r.Some? ==> r.value == projects[id]
  {
    if id in projects then Some(projects[id]) else None
  }

  /** The message of the `RuntimeException` thrown for an unknown id. */
  function NotFound(id: nat): string {
    "Project not found with id: " + Decimal(id)
  }

  /** The eleven setters `updateProject` runs on the loaded entity. */
  function WithDetails(stored: Project, details: Project): (r: Project)
    ensures r.title == details.title && r.description == details.description
    ensures r.category == details.category && r.tags == details.tags
    ensures r.githubUrl == details.githubUrl && r.liveUrl == details.liveUrl && r.iconName == details.iconName
    ensures r.gradientFrom == details.gradientFrom && r.gradientTo == details.gradientTo
    ensures r.isFeatured == details.isFeatured && r.displayOrder == details.displayOrder
    ensures r.id == stored.id && r.createdAt == stored.createdAt
  {
    stored.(title := details.title, description := details.description, category := details.category,
            tags := details.tags, githubUrl := details.githubUrl, liveUrl := details.liveUrl,
            iconName := details.iconName, gradientFrom := details.gradientFrom,
            gradientTo := details.gradientTo, isFeatured := details.isFeatured,
            displayOrder := details.displayOrder)
  }

  /** The rows one `save` per element of `items` inserts while the identity counter starts at `first`. */
  function Batch(items: seq<Project>, first: nat, now: int): map<nat, Project> {
    if items == [] then map[]
    else
      var last := first + |items| - 1;
      Batch(items[..|items| - 1], first, now)[last := items[|items| - 1].(id := last, createdAt := now)]
  }

  lemma BatchGrows(items: seq<Project>, i: nat, first: nat, now: int)
    requires i < |items|
    ensures Batch(items[..i + 1], first, now)
         == Batch(items[..i], first, now)[first + i := items[i].(id := first + i, createdAt := now)]
  {
    assert items[..i + 1][..i] == items[..i];
  }

  /** The batch holds exactly the identity values `first ..` one per item, each row being its
      item stamped with that id and the creation time. */
  lemma {:induction false} BatchContents(items: seq<Project>, first: nat, now: int)
    ensures KeyedProjects(Batch(items, first, now))
    ensures forall k :: k in Batch(items, first, now) <==> first <= k < first + |items|
    ensures forall i :: 0 <= i < |items| ==>
              Batch(items, first, now)[first + i] == items[i].(id := first + i, createdAt := now)
  {
    if items != [] {
      var init := items[..|items| - 1];
      BatchContents(init, first, now);
      forall i | 0 <= i < |init| ensures init[i] == items[i] { }
    }
  }

  /** Applying the same details twice is the same as applying them once. */
  lemma UpdateIsIdempotent(stored: Project, details: Project)
    ensures WithDetails(WithDetails(stored, details), details) == WithDetails(stored, details)
  {
  }

  /** An update whose details are valid leaves a valid project, whatever was stored. */
  lemma UpdateKeepsValid(stored: Project, details: Project)
    requires Valid(details)
    ensures Valid(WithDetails(stored, details))
  {
  }

  /** Deleting `id` removes exactly that project from every listing. */
  lemma {:induction false} DeleteRemovesOnlyThatProject(projects: map<nat, Project>, id: nat)
    requires KeyedProjects(projects)
    ensures KeyedProjects(projects - {id})
    ensures forall p :: p in GetAllProjects(projects - {id}) <==> p in GetAllProjects(projects) && p.id != id
  {
    var rest := projects - {id};
    forall p ensures p in rest.Values <==> p in projects.Values && p.id != id {
      if p in rest.Values {
        var k :| k in rest && rest[k] == p;
        assert projects[k] == p;
      }
      if p in projects.Values && p.id != id {
        var k :| k in projects && projects[k] == p;
        assert rest[k] == p;
      }
    }
  }

  /** The projects table, with the identity counter of its `id` column. The class stands
      for both the Spring service and the JPA repository behind it. */
  class Service {
    var projects: map<nat, Project>
    var nextId: nat

    /** Rows are stored under their own ids, all below the next identity value. */
    ghost predicate Valid()
      reads this
    {
      KeyedProjects(projects) && forall k :: k in projects ==> k < nextId
    }

    /** An empty table whose identity column starts at 1. */
    constructor ()
      ensures Valid() && projects == map[] && nextId == 1
    {
      projects := map[];
      nextId := 1;
    }

    /** `createProject` = `save` of a new entity: inserted under the next identity value,
        stamped with the creation time `now`. */
    method CreateProject(project: Project, now: int) returns (saved: Project)
      requires Valid()
      modifies this
      ensures Valid()
      ensures saved == project.(id := old(nextId), createdAt := now)
      ensures old(nextId) !in old(projects)
      ensures projects == old(projects)[saved.id := saved] && nextId == old(nextId) + 1
    {
      saved := project.(id := nextId, createdAt := now);
      projects := projects[nextId := saved];
      nextId := nextId + 1;
    }

    /** `saveAll(items)`: one `save` per element, in order. */
    method SaveAll(items: seq<Project>, now: int)
      requires Valid()
      modifies this
      ensures Valid()
      ensures projects == old(projects) + Batch(items, old(nextId), now)
      ensures nextId == old(nextId) + |items|
    {
      for i := 0 to |items|
        invariant Valid()
        invariant nextId == old(nextId) + i
        invariant projects == old(projects) + Batch(items[..i], old(nextId), now)
      {
        var saved := CreateProject(items[i], now);
        BatchGrows(items, i, old(nextId), now);
        UnionUpdate(old(projects), Batch(items[..i], old(nextId), now), saved.id, saved);
      }
      assert items[..|items|] == items;
    }

    /** `updateProject`: find the project, overwrite the eleven editable fields, save. */
    method UpdateProject(id: nat, details: Project) returns (r: Result<Project, string>)
      requires Valid()
      modifies this
      ensures Valid() && nextId == old(nextId)
      ensures id !in old(projects) ==> r == Failure(NotFound(id)) && projects == old(projects)
      ensures id in old(projects) ==>
                r == Success(WithDetails(old(projects)[id], details)) && projects == old(projects)[id := r.value]
    {
      if id !in projects {
        return Failure(NotFound(id));
      }
      var updated := WithDetails(projects[id], details);
      projects := projects[id := updated];
      r := Success(updated);
    }

    /** `deleteProject` = `deleteById`: the row under `id` is gone, every other row stays. */
    method DeleteProject(id: nat)
      requires Valid()
      modifies this
      ensures Valid() && nextId == old(nextId)
      ensures projects == old(projects) - {id}
    {
      projects := projects - {id};
    }
  }
}
