/** The create/edit plan screen (src/screens/tourist/CreatePlanScreen.tsx): the selection of
    place ids, the date-order check, the edit prefill and the checks `handleSave` runs before
    it issues a plan call. Dates are millisecond timestamps. */
module CreatePlan {
  import opened Base
  import opened Text
  import opened Lists
  import opened Auth
  import opened Plans

  /** The one day the initial end date lies after the start. */
  const OneDayMillis: int := 86400000

  /** The key of a selected place id, for the list operations: the id itself. */
  function SelectionKey(id: string): string
  {
    id
  }

  /** The selection after tapping `id`: removed when selected, appended otherwise. */
  function ToggledSelection(selected: seq<string>, id: string): (r: seq<string>)
    ensures id in r <==> id !in selected
    ensures id in selected ==> r == Without(selected, SelectionKey, id)
    ensures id !in selected ==> r == selected + [id]
  {
    if id in selected then
      assert !Any(Without(selected, SelectionKey, id), SelectionKey, id);
      Without(selected, SelectionKey, id)
    else
      selected + [id]
  }

  /** Toggling never produces a repeated id. */
  lemma ToggleKeepsSelectionUnique(selected: seq<string>, id: string)
    requires UniqueKeys(selected, SelectionKey)
    ensures UniqueKeys(ToggledSelection(selected, id), SelectionKey)
  {
    if id in selected {
      WithoutKeepsUniqueKeys(selected, SelectionKey, id);
    } else {
      var r := selected + [id];
      forall i, j | 0 <= i < j < |r| ensures SelectionKey(r[i]) != SelectionKey(r[j]) {
        assert r[i] == selected[i];
        if j < |selected| {
          assert r[j] == selected[j];
        }
      }
    }
  }

  /** Tapping an unselected id twice gives back the selection. */
  lemma ToggleTwiceAbsent(selected: seq<string>, id: string)
    requires id !in selected
    ensures ToggledSelection(ToggledSelection(selected, id), id) == selected
  {
    AppendThenWithout(selected, SelectionKey, id);
  }

  /** Tapping a selected id twice moves it to the end, so in general it does not give back
      the selection: `["a", "b"]` becomes `["b", "a"]`. */
  lemma ToggleTwicePresentMoves()
    ensures ToggledSelection(ToggledSelection(["a", "b"], "a"), "a") == ["b", "a"]
  {
    var s: seq<string> := ["a", "b"];
    assert s == ["a"] + ["b"];
    WithoutAppend(["a"], ["b"], SelectionKey, "a");
    WithoutSingleton("a", SelectionKey, "a");
    WithoutSingleton("b", SelectionKey, "a");
  }

  /** `validateDates()`: the end is not before the start. */
  function ValidateDates(startDate: int, endDate: int): (ok: bool)
    ensures ok <==> startDate <= endDate
  {
    endDate >= startDate
  }

  /** The check accepts a one-day plan and rejects an end before the start. */
  lemma DatesOrder(startDate: int, endDate: int)
    ensures ValidateDates(startDate, startDate)
    ensures endDate < startDate ==> !ValidateDates(startDate, endDate)
  {
  }

  datatype SaveError = NotAuthenticated | MissingName | EndBeforeStart | NoPlaces

  datatype PlanPayload = PlanPayload(name: string, startDate: int, endDate: int, offline: bool, places: seq<string>)

  /** The call a valid form issues. The calls are those the screen makes: its plan
      store defines an `addPlan` with one argument and no `updatePlan`. */
  datatype PlanCall = UpdatePlanCall(planId: string, payload: PlanPayload) | AddPlanCall(userId: string, payload: PlanPayload)

  datatype SaveDecision = Reject(error: SaveError) | Save(call: PlanCall)

  class PlanForm {
    const planId: Option<string>
    var name: string
    var startDate: int
    var endDate: int
    var selectedPlaces: seq<string>
    var syncOnline: bool

    predicate IsEditing()
    {
      Truthy(planId)
    }

    /** The slots' initial values at time `now`: the end date one day later, no places,
        online sync on. */
    constructor(planId: Option<string>, now: int)
      ensures this.planId == planId && name == "" && selectedPlaces == [] && syncOnline
      ensures startDate == now && endDate == now + OneDayMillis
      ensures ValidateDates(startDate, endDate)
    {
      this.planId := planId;
      name, startDate, endDate := "", now, now + OneDayMillis;
      selectedPlaces, syncOnline := [], true;
    }

    /** `togglePlace(id)`. */
    method TogglePlace(id: string)
      modifies this
      ensures selectedPlaces == ToggledSelection(old(selectedPlaces), id)
      ensures name == old(name) && startDate == old(startDate) && endDate == old(endDate)
      ensures syncOnline == old(syncOnline)
    {
      selectedPlaces := ToggledSelection(selectedPlaces, id);
    }

    /** The edit prefill: when editing a plan the store holds, copy it; online sync is the
        negation of `offline`. */
    method Prefill(plans: seq<Plan>)
      modifies this
      ensures var found := if IsEditing() then Find(plans, PlanId, planId.value) else None;
              if found.None? then
                name == old(name) && startDate == old(startDate) && endDate == old(endDate) &&
                selectedPlaces == old(selectedPlaces) && syncOnline == old(syncOnline)
              else
                name == found.value.name && startDate == found.value.startDate &&
                endDate == found.value.endDate && selectedPlaces == found.value.places &&
                syncOnline == !found.value.offline
    {
      if !IsEditing() {
        return;
      }
      var found := Find(plans, PlanId, planId.value);
      if found.Some? {
        var p := found.value;
        name, startDate, endDate := p.name, p.startDate, p.endDate;
        selectedPlaces, syncOnline := p.places, !p.offline;
      }
    }

    /** `handleSave`: the first failing check, in the order: a user with an id, a trimmed
        name, the date order, at least one place. A valid form updates the edited plan or
        adds one for the user, with the trimmed name, `offline` the negation of online
        sync, and the places in selection order. */
    method HandleSave(user: Option<User>) returns (d: SaveDecision)
      ensures d == Reject(NotAuthenticated) <==> user.None? || user.value.id == ""
      ensures d == Reject(MissingName) <==> user.Some? && user.value.id != "" && Trim(name) == ""
      ensures d == Reject(EndBeforeStart) <==>
                user.Some? && user.value.id != "" && Trim(name) != "" && endDate < startDate
      ensures d == Reject(NoPlaces) <==>
                user.Some? && user.value.id != "" && Trim(name) != "" && endDate >= startDate &&
                selectedPlaces == []
      ensures d.Save? <==>
                user.Some? && user.value.id != "" && Trim(name) != "" && endDate >= startDate &&
                selectedPlaces != []
      ensures d.Save? ==> d.call.payload == PlanPayload(Trim(name), startDate, endDate, !syncOnline, selectedPlaces)
      ensures d.Save? ==> d.call == if IsEditing() then UpdatePlanCall(planId.value, d.call.payload)
                                    else AddPlanCall(user.value.id, d.call.payload)
    {
      if user.None? || user.value.id == "" {
        return Reject(NotAuthenticated);
      }
      if Trim(name) == "" {
        return Reject(MissingName);
      }
      if !ValidateDates(startDate, endDate) {
        return Reject(EndBeforeStart);
      }
      if |selectedPlaces| == 0 {
        return Reject(NoPlaces);
      }
      var payload := PlanPayload(Trim(name), startDate, endDate, !syncOnline, selectedPlaces);
      if IsEditing() {
        d := Save(UpdatePlanCall(planId.value, payload));
      } else {
        d := Save(AddPlanCall(user.value.id, payload));
      }
    }
  }

  /** Opening a stored plan for editing and saving it unchanged sends the plan back with
      its `offline` flag, dates and places as stored and its name trimmed. */
  method EditThenSave(form: PlanForm, plans: seq<Plan>, user: User) returns (d: SaveDecision)
    requires form.IsEditing() && Find(plans, PlanId, form.planId.value).Some?
    requires user.id != ""
    requires var p := Find(plans, PlanId, form.planId.value).value;
             Trim(p.name) != "" && ValidateDates(p.startDate, p.endDate) && p.places != []
    modifies form
    ensures var p := Find(plans, PlanId, form.planId.value).value;
            d == Save(UpdatePlanCall(form.planId.value,
                   PlanPayload(Trim(p.name), p.startDate, p.endDate, p.offline, p.places)))
  {
    form.Prefill(plans);
    d := form.HandleSave(Some(user));
  }
}
