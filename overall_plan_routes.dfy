/**
 * The overall-plan routes: `GET /` (the first plan in the collection),
 * `POST /` (create or update the plan of a user) and
 * `PUT /category/:catName` (overwrite one category of a user's plan).
 * The collection is a sequence in insertion order; `findOne({ userId })`
 * is the first plan with that user id, and `save()` validates the whole
 * document against OverallPlanSchema.
 */
module OverallPlanRoutes {
  import opened Common
  import opened KeyedLists
  import opened OverallPlanModel

  /** `OverallPlan.findOne({ userId })` */
  function FindPlan(plans: seq<OverallPlan>, userId: string): (r: Option<OverallPlan>)
    ensures r.Some? ==> r.value in plans && r.value.userId == userId
    ensures r.None? <==> !HasKey(plans, UserIdOf, userId)
  {
    match FirstIndex(plans, UserIdOf, userId)
    case None => None
    case Some(i) => Some(plans[i])
  }

  /** POST's two branches: overwrite the user's plan where it is, or add a new one at the end. */
  function Upsert(plans: seq<OverallPlan>, p: OverallPlan): seq<OverallPlan> {
    match FirstIndex(plans, UserIdOf, p.userId)
    case Some(i) => plans[i := p]
    case None => plans + [p]
  }

  /**
   * After an upsert the user's plan is the one just saved, the plans of
   * every other user are found as before, at most one plan is added, and
   * user ids stay distinct.
   */
  lemma UpsertThenFind(plans: seq<OverallPlan>, p: OverallPlan)
    ensures FindPlan(Upsert(plans, p), p.userId) == Some(p)
    ensures forall u :: u != p.userId ==> FindPlan(Upsert(plans, p), u) == FindPlan(plans, u)
    ensures HasKey(plans, UserIdOf, p.userId) ==> |Upsert(plans, p)| == |plans|
    ensures !HasKey(plans, UserIdOf, p.userId) ==> |Upsert(plans, p)| == |plans| + 1
    ensures DistinctKeys(plans, UserIdOf) ==> DistinctKeys(Upsert(plans, p), UserIdOf)
  {
    var t := Upsert(plans, p);
    match FirstIndex(plans, UserIdOf, p.userId)
    case Some(i) =>
      assert t == plans[i := p];
      FirstIndexSameMatches(t, plans, UserIdOf, p.userId);
      forall u | u != p.userId
        ensures FindPlan(t, u) == FindPlan(plans, u)
      {
        OverwriteKeepsOtherMatches(plans, i, p, u);
      }
    case None =>
      assert t == plans + [p];
      FirstIndexPush(plans, p, UserIdOf, p.userId);
      forall u | u != p.userId
        ensures FindPlan(t, u) == FindPlan(plans, u)
      {
        FirstIndexPush(plans, p, UserIdOf, u);
      }
      if DistinctKeys(plans, UserIdOf) {
        DistinctAppend(plans, UserIdOf, p);
      }
  }

  /** Overwriting the entry of user `p.userId` does not move the first plan of another user. */
  lemma OverwriteKeepsOtherMatches(plans: seq<OverallPlan>, i: nat, p: OverallPlan, u: string)
    requires i < |plans| && plans[i].userId == p.userId && u != p.userId
    ensures FirstIndex(plans[i := p], UserIdOf, u) == FirstIndex(plans, UserIdOf, u)
  {
    FirstIndexSameMatches(plans[i := p], plans, UserIdOf, u);
  }

  /**
   * `cat.name = name; cat.defaultBudget = defaultBudget` on the first
   * category named `catName`, then the whole plan validated by `save()`.
   */
  function RenameCategory(plan: OverallPlan, catName: string, name: string, defaultBudget: real): (r: Result<OverallPlan>)
    ensures r == Err(CategoryNotFound) <==> !HasKey(plan.categories, PlanCategoryNameOf, catName)
    ensures r.Ok? ==> r.value.name == plan.name && r.value.userId == plan.userId
    ensures r.Ok? ==>
      var k := FirstIndex(plan.categories, PlanCategoryNameOf, catName).value;
      (forall j :: 0 <= j < k ==> plan.categories[j].name != catName)
      && plan.categories[k].name == catName
      && r.value.categories == plan.categories[k := PlanCategory(name, defaultBudget)]
    ensures r.Ok? ==> ValidPlan(r.value)
  {
    match FirstIndex(plan.categories, PlanCategoryNameOf, catName)
    case None => Err(CategoryNotFound)
    case Some(k) =>
      var updated := plan.(categories := plan.categories[k := PlanCategory(name, defaultBudget)]);
      if ValidPlan(updated) then Ok(updated) else Err(ValidationFailed)
  }

  /** On a stored (valid) plan that has the category, the edit is accepted exactly when the new name is not empty. */
  lemma RenameCategoryOutcome(plan: OverallPlan, catName: string, name: string, defaultBudget: real)
    requires ValidPlan(plan) && HasKey(plan.categories, PlanCategoryNameOf, catName)
    ensures RenameCategory(plan, catName, name, defaultBudget).Ok? <==> name != ""
  {
    var k := FirstIndex(plan.categories, PlanCategoryNameOf, catName).value;
    ValidPlanUpdateCategory(plan, k, PlanCategory(name, defaultBudget));
  }

  /** The OverallPlan collection. */
  class PlanStore {
    var plans: seq<OverallPlan>

    /** Every stored plan passed validation, and no two belong to the same user. */
    predicate Valid()
      reads this
    {
      (forall i :: 0 <= i < |plans| ==> ValidPlan(plans[i])) && DistinctKeys(plans, UserIdOf)
    }

    constructor ()
      ensures Valid() && plans == []
    {
      plans := [];
    }

    /** `GET /`: `findOne()` with no filter, so the first plan stored, whoever it belongs to. */
    method GetPlan() returns (r: Option<OverallPlan>)
      ensures r == if plans == [] then None else Some(plans[0])
      ensures r.None? <==> plans == []
      ensures r.Some? ==> r.value in plans
      ensures r.Some? ==> FindPlan(plans, r.value.userId) == Some(r.value)
    {
      if plans == [] {
        r := None;
      } else {
        r := Some(plans[0]);
      }
    }

    /** `POST /`: create the user's plan, or replace its name and categories; rejected when the plan fails validation. */
    method SavePlan(name: string, userId: string, categories: seq<PlanCategory>) returns (r: Result<OverallPlan>)
      requires Valid()
      modifies this
      ensures Valid()
      ensures r.Ok? <==> ValidPlan(OverallPlan(name, userId, categories))
      ensures r.Ok? ==> (r.value == OverallPlan(name, userId, categories)
                         && plans == Upsert(old(plans), r.value)
                         && FindPlan(plans, userId) == Some(r.value))
      ensures r.Err? ==> r.error == ValidationFailed && plans == old(plans)
    {
      var p := OverallPlan(name, userId, categories);
      if !ValidPlan(p) {
        return Err(ValidationFailed);
      }
      UpsertThenFind(plans, p);
      UpsertKeepsValid(plans, p);
      plans := Upsert(plans, p);
      r := Ok(p);
    }

    /** `PUT /category/:catName`: 404s for a missing plan or category, a validation error for an empty new name. */
    method UpdateCategory(userId: string, catName: string, name: string, defaultBudget: real) returns (r: Result<OverallPlan>)
      requires Valid()
      modifies this
      ensures Valid()
      ensures r == Err(PlanNotFound) <==> FindPlan(old(plans), userId).None?
      ensures FindPlan(old(plans), userId).Some? ==>
                r == RenameCategory(FindPlan(old(plans), userId).value, catName, name, defaultBudget)
      ensures r.Ok? ==> plans == Upsert(old(plans), r.value) && FindPlan(plans, userId) == Some(r.value)
      ensures r.Err? ==> plans == old(plans)
    {
      var found := FindPlan(plans, userId);
      if found.None? {
        return Err(PlanNotFound);
      }
      r := RenameCategory(found.value, catName, name, defaultBudget);
      if r.Ok? {
        UpsertThenFind(plans, r.value);
        UpsertKeepsValid(plans, r.value);
        plans := Upsert(plans, r.value);
      }
    }
  }

  /** Upserting a valid plan keeps the collection valid. */
  lemma UpsertKeepsValid(plans: seq<OverallPlan>, p: OverallPlan)
    requires (forall i :: 0 <= i < |plans| ==> ValidPlan(plans[i])) && DistinctKeys(plans, UserIdOf)
    requires ValidPlan(p)
    ensures var t := Upsert(plans, p);
      (forall i :: 0 <= i < |t| ==> ValidPlan(t[i])) && DistinctKeys(t, UserIdOf)
  {
    UpsertThenFind(plans, p);
  }
}
