/** The device-local list of travel plans (src/store/usePlanStore.ts). Dates are
    timestamps. */
module Plans {
  import opened Base
  import opened Lists

  datatype Plan = Plan(
    id: string,
    name: string,
    startDate: int,
    endDate: int,
    offline: bool,
    places: seq<string>)

  function PlanId(p: Plan): string
  {
    p.id
  }

  class PlansStore {
    var plans: seq<Plan>

    constructor()
      ensures plans == []
    {
      plans := [];
    }

    /** `addPlan(plan)`: append at the end. */
    method AddPlan(plan: Plan)
      modifies this
      ensures plans == old(plans) + [plan]
      ensures |plans| == |old(plans)| + 1 && plans[|plans| - 1] == plan
    {
      plans := plans + [plan];
    }

    /** `removePlan(id)`: drop every plan with `id`; the others keep their order, and an
        absent id changes nothing. */
    method RemovePlan(id: string)
      modifies this
      ensures plans == Without(old(plans), PlanId, id)
      ensures !Any(plans, PlanId, id) && IsSubsequence(plans, old(plans))
      ensures !Any(old(plans), PlanId, id) ==> plans == old(plans)
    {
      if !Any(plans, PlanId, id) {
        WithoutAbsent(plans, PlanId, id);
      }
      plans := Without(plans, PlanId, id);
    }
  }

  /** Adding a plan with a fresh id and then removing that id gives back the list. */
  method AddThenRemove(store: PlansStore, plan: Plan)
    requires !Any(store.plans, PlanId, plan.id)
    modifies store
    ensures store.plans == old(store.plans)
  {
    store.AddPlan(plan);
    AppendThenWithout(old(store.plans), PlanId, plan);
    store.RemovePlan(plan.id);
  }
}
