/** `SkillService` (backend/.../service/SkillService.java) over the skills table. */
module SkillService {
  import opened Wrappers
  import opened Text
  import opened Listing
  import opened SkillEntity

  /** `getAllSkills` = `findAllByOrderByDisplayOrderAsc`: every stored skill, by `displayOrder`. */
  function GetAllSkills(skills: map<nat, Skill>): (r: seq<Skill>)
    requires KeyedSkills(skills)
    ensures forall s :: s in r <==> s in skills.Values
    ensures Distinct(r)
    ensures forall i, j :: 0 <= i < j < |r| ==> r[i].displayOrder <= r[j].displayOrder
  {
    var keep := (s: Skill) => true;
    var r := Query(skills, (s: Skill) => s.id, keep, (s: Skill) => s.displayOrder);
    ListsExactlyMembers(r, skills, keep);
    r
  }

  /** `getSkillsByCategory` = `findByCategoryOrderByDisplayOrderAsc`: the skills of category `c`, by `displayOrder`. */
  function GetSkillsByCategory(skills: map<nat, Skill>, c: SkillCategory): (r: seq<Skill>)
    requires KeyedSkills(skills)
    ensures forall s :: s in r <==> s in skills.Values && s.category == Some(c)
    ensures Distinct(r)
    ensures forall i, j :: 0 <= i < j < |r| ==> r[i].displayOrder <= r[j].displayOrder
  {
    var keep := (s: Skill) => s.category == Some(c);
    var r := Query(skills, (s: Skill) => s.id, keep, (s: Skill) => s.displayOrder);
    ListsExactlyMembers(r, skills, keep);
    r
  }

  /** `getSkillById` = `findById`. */
  function GetSkillById(skills: map<nat, Skill>, id: nat): (r: Option<Skill>)
    ensures r.Some? <==> id in skills
    ensures r.Some? ==> r.value == skills[id]
  {
    if id in skills then Some(skills[id]) else None
  }

  /** The message of the `RuntimeException` thrown for an unknown id. */
  function NotFound(id: nat): string {
    "Skill not found with id: " + Decimal(id)
  }

  /** The four setters `updateSkill` runs on the loaded entity. */
  function WithDetails(stored: Skill, details: Skill): (r: Skill)
    ensures r.name == details.name && r.category == details.category
    ensures r.level == details.level && r.displayOrder == details.displayOrder
    ensures r.id == stored.id && r.createdAt == stored.createdAt
  {
    stored.(name := details.name, category := details.category, level := details.level,
            displayOrder := details.displayOrder)
  }

  /** The rows one `save` per element of `items` inserts while the identity counter starts at `first`. */
  function Batch(items: seq<Skill>, first: nat, now: int): map<nat, Skill> {
    if items == [] then map[]
    else
      var last := first + |items| - 1;
      Batch(items[..|items| - 1], first, now)[last := items[|items| - 1].(id := last, createdAt := now)]
  }

  lemma BatchGrows(items: seq<Skill>, i: nat, first: nat, now: int)
    requires i < |items|
    ensures Batch(items[..i + 1], first, now)
         == Batch(items[..i], first, now)[first + i := items[i].(id := first + i, createdAt := now)]
  {
    assert items[..i + 1][..i] == items[..i];
  }

  /** The batch holds exactly the identity values `first ..` one per item, each row being its
      item stamped with that id and the creation time. */
  lemma {:induction false} BatchContents(items: seq<Skill>, first: nat, now: int)
    ensures KeyedSkills(Batch(items, first, now))
    ensures forall k :: k in Batch(items, first, now) <==> first <= k < first + |items|
    ensures forall i :: 0 <= i < |items| ==>
              Batch(items, first, now)[first + i] == items[i].(id := first + i, createdAt := now)
  {
    if items != [] {
      var init := items[..|items| - 1];
      BatchContents(init, first, now);
      forall i | 0 <= i < |init| ensures init[i] == items[i] { }
    }
  }

  /** Applying the same details twice is the same as applying them once. */
  lemma UpdateIsIdempotent(stored: Skill, details: Skill)
    ensures WithDetails(WithDetails(stored, details), details) == WithDetails(stored, details)
  {
  }

  /** A valid update turns any stored skill into a valid one. */
  lemma UpdateKeepsValid(stored: Skill, details: Skill)
    requires Valid(details)
    ensures Valid(WithDetails(stored, details))
  {
  }

  /** Deleting `id` removes exactly that skill from every listing. */
  lemma {:induction false} DeleteRemovesOnlyThatSkill(skills: map<nat, Skill>, id: nat)
    requires KeyedSkills(skills)
    ensures KeyedSkills(skills - {id})
    ensures forall s :: s in GetAllSkills(skills - {id}) <==> s in GetAllSkills(skills) && s.id != id
  {
    var rest := skills - {id};
    forall s ensures s in rest.Values <==> s in skills.Values && s.id != id {
      if s in rest.Values {
        var k :| k in rest && rest[k] == s;
        assert skills[k] == s;
      }
      if s in skills.Values && s.id != id {
        var k :| k in skills && skills[k] == s;
        assert rest[k] == s;
      }
    }
  }

  /** The skills table, with the identity counter of its `id` column. The class stands
      for both the Spring service and the JPA repository behind it. */
  class Service {
    var skills: map<nat, Skill>
    var nextId: nat

    /** Rows are stored under their own ids, all below the next identity value. */
    ghost predicate Valid()
      reads this
    {
      KeyedSkills(skills) && forall k :: k in skills ==> k < nextId
    }

    /** An empty table whose identity column starts at 1. */
    constructor ()
      ensures Valid() && skills == map[] && nextId == 1
    {
      skills := map[];
      nextId := 1;
    }

    /** `createSkill` = `save` of a new entity: inserted under the next identity value,
        stamped with the creation time `now`. */
    method CreateSkill(skill: Skill, now: int) returns (saved: Skill)
      requires Valid()
      modifies this
      ensures Valid()
      ensures saved == skill.(id := old(nextId), createdAt := now)
      ensures old(nextId) !in old(skills)
      ensures skills == old(skills)[saved.id := saved] && nextId == old(nextId) + 1
    {
      saved := skill.(id := nextId, createdAt := now);
      skills := skills[nextId := saved];
      nextId := nextId + 1;
    }

    /** `saveAll(items)`: one `save` per element, in order. */
    method SaveAll(items: seq<Skill>, now: int)
      requires Valid()
      modifies this
      ensures Valid()
      ensures skills == old(skills) + Batch(items, old(nextId), now)
      ensures nextId == old(nextId) + |items|
    {
      for i := 0 to |items|
        invariant Valid()
        invariant nextId == old(nextId) + i
        invariant skills == old(skills) + Batch(items[..i], old(nextId), now)
      {
        var saved := CreateSkill(items[i], now);
        BatchGrows(items, i, old(nextId), now);
        UnionUpdate(old(skills), Batch(items[..i], old(nextId), now), saved.id, saved);
      }
      assert items[..|items|] == items;
    }

    /** `updateSkill`: find the skill, overwrite name, category, level and display order, save. */
    method UpdateSkill(id: nat, details: Skill) returns (r: Result<Skill, string>)
      requires Valid()
      modifies this
      ensures Valid() && nextId == old(nextId)
      ensures id !in old(skills) ==> r == Failure(NotFound(id)) && skills == old(skills)
      ensures id in old(skills) ==>
                r == Success(WithDetails(old(skills)[id], details)) && skills == old(skills)[id := r.value]
    {
      if id !in skills {
        return Failure(NotFound(id));
      }
      var updated := WithDetails(skills[id], details);
      skills := skills[id := updated];
      r := Success(updated);
    }

    /** `deleteSkill` = `deleteById`: the row under `id` is gone, every other row stays. */
    method DeleteSkill(id: nat)
      requires Valid()
      modifies this
      ensures Valid() && nextId == old(nextId)
      ensures skills == old(skills) - {id}
    {
      skills := skills - {id};
    }
  }
}
