/**
 * The specialization modal of the user-information step: a category dropdown, a dropdown of
 * that category's specializations, and submit / cancel buttons that report to the parent.
 */
module SpecializationModal {
  import opened Flow

  /** The module-level `categories` table. */
  const Categories: map<string, seq<string>> := map[
    "General Medicine" := ["Family Medicine", "Internal Medicine", "General Practice"],
    "Pediatrics" := ["Child Health", "Neonatology", "Pediatric Surgery"],
    "Dermatology" := ["Skin Care", "Cosmetic Dermatology", "Dermatopathology"],
    "Cardiology" := ["Heart Surgery", "Interventional Cardiology", "Electrophysiology"],
    "Orthopedics" := ["Joint Replacement", "Sports Medicine", "Spine Surgery"],
    "Gynecology" := ["Obstetrics", "Reproductive Health", "Gynecologic Surgery"]]

  /** The object handed to `onSubmit`. */
  datatype Choice = Choice(category: string, specialization: string)

  /** What the modal reports to its parent: a submitted choice, or `onClose`. */
  datatype Event = Submitted(choice: Choice) | Closed

  datatype Error = FieldsMissing

  /** `availableSpecializations`: the category's list, or `[]` when the table has no such category. */
  function AvailableSpecializations(category: string): (r: seq<string>)
    ensures category in Categories ==> r == Categories[category]
    ensures category !in Categories ==> r == []
  {
    if category in Categories then Categories[category] else []
  }

  /** Nothing is offered before a category is chosen, and every category offers three specializations. */
  lemma AvailableSpecializationsShape(category: string)
    ensures category == "" ==> AvailableSpecializations(category) == []
    ensures category in Categories ==> |AvailableSpecializations(category)| == 3
  {
  }

  /** The modal's state: one component per `useState` slot. */
  datatype State = State(
    selectedCategory: string,
    selectedSpecialization: string,
    showCategoryDropdown: bool,
    showSpecializationDropdown: bool)

  const Initial: State := State("", "", false, false)

  /**
   * `handleSubmit`: with either field empty the parent hears nothing and the state stays;
   * otherwise the parent receives both fields and the two fields are reset.
   */
  function Submit(s: State): (r: (Outcome<Error>, State, seq<Event>))
    ensures r.0 == Pass <==> s.selectedCategory != "" && s.selectedSpecialization != ""
    ensures r.0 != Pass ==> r == (Fail(FieldsMissing), s, [])
    ensures r.0 == Pass ==>
      r.2 == [Submitted(Choice(s.selectedCategory, s.selectedSpecialization))] &&
      r.1 == s.(selectedCategory := "", selectedSpecialization := "")
  {
    if s.selectedCategory == "" || s.selectedSpecialization == "" then (Fail(FieldsMissing), s, [])
    else (Pass, s.(selectedCategory := "", selectedSpecialization := ""), [Submitted(Choice(s.selectedCategory, s.selectedSpecialization))])
  }

  /** A row of the category list: chosen, the specialization reset, the list closed. */
  function PickCategory(s: State, category: string): State {
    s.(selectedCategory := category, selectedSpecialization := "", showCategoryDropdown := false)
  }

  /** A row of the specialization list: chosen and the list closed. */
  function PickSpecialization(s: State, specialization: string): State {
    s.(selectedSpecialization := specialization, showSpecializationDropdown := false)
  }

  /** A successful submit cannot be repeated: the second press finds the fields empty. */
  lemma NoDoubleSubmit(s: State)
    requires Submit(s).0 == Pass
    ensures Submit(Submit(s).1) == (Fail(FieldsMissing), Submit(s).1, [])
  {
  }

  /** Changing the category forces a new specialization to be picked before anything is submitted. */
  lemma NewCategoryBlocksSubmit(s: State, category: string)
    ensures Submit(PickCategory(s, category)).0 == Fail(FieldsMissing)
  {
  }

  /** Picking a category and then one of its specializations submits exactly that pair. */
  lemma PickBothThenSubmit(s: State, category: string, specialization: string)
    requires category != "" && specialization != ""
    ensures Submit(PickSpecialization(PickCategory(s, category), specialization)).2 == [Submitted(Choice(category, specialization))]
  {
  }

  /** The modal's state, and every call it made to `onSubmit` / `onClose`, oldest first. */
  class Modal {
    var selectedCategory: string
    var selectedSpecialization: string
    var showCategoryDropdown: bool
    var showSpecializationDropdown: bool
    var events: seq<Event>

    constructor ()
      ensures Current() == Initial && events == []
    {
      selectedCategory, selectedSpecialization := "", "";
      showCategoryDropdown, showSpecializationDropdown := false, false;
      events := [];
    }

    function Current(): State
      reads this
    {
      State(selectedCategory, selectedSpecialization, showCategoryDropdown, showSpecializationDropdown)
    }

    method HandleSubmit() returns (r: Outcome<Error>)
      modifies this
      ensures var step := Submit(old(Current()));
        r == step.0 && Current() == step.1 && events == old(events) + step.2
    {
      if selectedCategory == "" || selectedSpecialization == "" {
        return Fail(FieldsMissing);
      }
      events := events + [Submitted(Choice(selectedCategory, selectedSpecialization))];
      selectedCategory := "";
      selectedSpecialization := "";
      r := Pass;
    }

    /** `handleCancel`, also run by the back button: both fields reset and the parent told to close. */
    method HandleCancel()
      modifies this
      ensures Current() == old(Current()).(selectedCategory := "", selectedSpecialization := "")
      ensures events == old(events) + [Closed]
    {
      selectedCategory := "";
      selectedSpecialization := "";
      events := events + [Closed];
    }

    method ToggleCategoryDropdown()
      modifies this
      ensures Current() == old(Current()).(showCategoryDropdown := !old(showCategoryDropdown))
      ensures events == old(events)
    {
      showCategoryDropdown := !showCategoryDropdown;
    }

    method ToggleSpecializationDropdown()
      modifies this
      ensures Current() == old(Current()).(showSpecializationDropdown := !old(showSpecializationDropdown))
      ensures events == old(events)
    {
      showSpecializationDropdown := !showSpecializationDropdown;
    }

    method SelectCategory(category: string)
      modifies this
      ensures Current() == PickCategory(old(Current()), category) && events == old(events)
    {
      selectedCategory := category;
      selectedSpecialization := "";
      showCategoryDropdown := false;
    }

    method SelectSpecialization(specialization: string)
      modifies this
      ensures Current() == PickSpecialization(old(Current()), specialization) && events == old(events)
    {
      selectedSpecialization := specialization;
      showSpecializationDropdown := false;
    }
  }
}
