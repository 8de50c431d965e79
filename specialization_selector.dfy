/**
 * The specialization selector of the professional-information step: a list of chosen
 * "Category - Specialization" entries owned by the parent, and a modal in which a category
 * and then one of its specializations are picked and added to the list.
 */
module SpecializationSelector {

  /** `serviceCategories`, in the order its keys are listed. */
  const CategoryNames: seq<string> := [
    "General Medicine", "Pediatrics", "Dermatology", "Cardiology",
    "Surgery", "Gynecology", "Neurology", "Orthopedics"]

  const Categories: map<string, seq<string>> := map[
    "General Medicine" := ["Family Medicine", "Internal Medicine", "Emergency Medicine"],
    "Pediatrics" := ["General Pediatrics", "Pediatric Cardiology", "Pediatric Neurology", "Neonatology"],
    "Dermatology" := ["General Dermatology", "Cosmetic Dermatology", "Dermatopathology"],
    "Cardiology" := ["Interventional Cardiology", "Electrophysiology", "Heart Failure", "Preventive Cardiology"],
    "Surgery" := ["General Surgery", "Cardiac Surgery", "Neurosurgery", "Orthopedic Surgery"],
    "Gynecology" := ["Obstetrics", "Reproductive Endocrinology", "Gynecologic Oncology"],
    "Neurology" := ["General Neurology", "Stroke Medicine", "Epilepsy", "Movement Disorders"],
    "Orthopedics" := ["Joint Replacement", "Sports Medicine", "Spine Surgery", "Trauma Surgery"]]

  /** The category list offers exactly the table's categories, each once. */
  lemma CategoryListMatchesTable()
    ensures |CategoryNames| == 8
    ensures forall c :: c in CategoryNames <==> c in Categories
    ensures NoDuplicates(CategoryNames)
  {
  }

  /** The specializations listed under the chosen category; nothing for a category the table lacks. */
  function SpecializationsOf(category: string): seq<string> {
    if category in Categories then Categories[category] else []
  }

  /** The entry added to the list: `${category} - ${specialization}`. */
  function Entry(category: string, specialization: string): (e: string)
    ensures |e| == |category| + 3 + |specialization|
    ensures e[..|category|] == category && e[|category| + 3..] == specialization
    ensures e[|category|..|category| + 3] == " - "
  {
    category + " - " + specialization
  }

  predicate NoDuplicates(list: seq<string>) {
    forall i, j :: 0 <= i < j < |list| ==> list[i] != list[j]
  }

  /** The list after an entry is offered: unchanged when the entry is there already, else the entry at the end. */
  function AppendIfAbsent(list: seq<string>, entry: string): (r: seq<string>)
    ensures entry in list ==> r == list
    ensures entry in r && forall x :: x in r <==> x in list || x == entry
    ensures |list| <= |r| <= |list| + 1 && r[..|list|] == list
    ensures NoDuplicates(list) ==> NoDuplicates(r)
  {
    if entry in list then list else list + [entry]
  }

  /** `removeSpecialization`: every occurrence of `entry` goes, the rest stay in order. */
  function RemoveAll(list: seq<string>, entry: string): (r: seq<string>)
    ensures |r| <= |list|
    ensures forall x :: x in r <==> x in list && x != entry
  {
    if list == [] then []
    else (if list[0] == entry then [] else [list[0]]) + RemoveAll(list[1..], entry)
  }

  /** Removal distributes over concatenation, which is what keeping the order means. */
  lemma {:induction false} RemoveAllAppend(a: seq<string>, b: seq<string>, entry: string)
    ensures RemoveAll(a + b, entry) == RemoveAll(a, entry) + RemoveAll(b, entry)
  {
    if a == [] {
      assert a + b == b;
    } else {
      assert (a + b)[1..] == a[1..] + b;
      RemoveAllAppend(a[1..], b, entry);
    }
  }

  /** Removal takes out exactly the occurrences of `entry`, counted with multiplicity. */
  lemma {:induction false} RemoveAllCounts(list: seq<string>, entry: string)
    ensures multiset(RemoveAll(list, entry)) == multiset(list)[entry := 0]
  {
    if list != [] {
      RemoveAllCounts(list[1..], entry);
      assert list == [list[0]] + list[1..];
    }
  }

  /** Removing an entry that is not there changes nothing. */
  lemma {:induction false} RemoveAllAbsent(list: seq<string>, entry: string)
    requires entry !in list
    ensures RemoveAll(list, entry) == list
  {
    if list != [] {
      RemoveAllAbsent(list[1..], entry);
      assert list == [list[0]] + list[1..];
    }
  }

  /** Removal keeps a duplicate-free list duplicate-free. */
  lemma {:induction false} RemoveAllKeepsNoDuplicates(list: seq<string>, entry: string)
    requires NoDuplicates(list)
    ensures NoDuplicates(RemoveAll(list, entry))
  {
    if list != [] {
      RemoveAllKeepsNoDuplicates(list[1..], entry);
      var rest := RemoveAll(list[1..], entry);
      assert list[0] !in list[1..];
      assert list[0] !in rest;
    }
  }

  /** Adding a new entry and removing it again gives back the list. */
  lemma AddThenRemove(list: seq<string>, entry: string)
    requires entry !in list
    ensures RemoveAll(AppendIfAbsent(list, entry), entry) == list
  {
    RemoveAllAppend(list, [entry], entry);
    RemoveAllAbsent(list, entry);
    assert RemoveAll([entry], entry) == [];
  }

  /** The selector's state: the modal's three slots and the parent's list. */
  datatype State = State(isVisible: bool, selectedCategory: string, selectedSpecialization: string, selected: seq<string>)

  /** `handleSubmit`: with both picked, offers the entry, clears both picks and hides the modal; otherwise does nothing. */
  function Submit(s: State): State {
    if s.selectedCategory != "" && s.selectedSpecialization != "" then
      State(false, "", "", AppendIfAbsent(s.selected, Entry(s.selectedCategory, s.selectedSpecialization)))
    else s
  }

  /** `handleCancel`: clears both picks and hides the modal; the list is untouched. */
  function Cancel(s: State): State {
    s.(isVisible := false, selectedCategory := "", selectedSpecialization := "")
  }

  /** Picking a category clears the specialization picked under the previous one. */
  function PickCategory(s: State, category: string): State {
    s.(selectedCategory := category, selectedSpecialization := "")
  }

  /** A second press of submit adds nothing: the first one cleared the picks. */
  lemma SubmitIdempotent(s: State)
    ensures Submit(Submit(s)) == Submit(s)
  {
  }

  /** After submit with both picks, the entry is in the list exactly once, and the rest of the list is kept in order. */
  lemma SubmitAddsOnce(s: State)
    requires s.selectedCategory != "" && s.selectedSpecialization != "" && NoDuplicates(s.selected)
    ensures var e := Entry(s.selectedCategory, s.selectedSpecialization); var t := Submit(s);
      e in t.selected && NoDuplicates(t.selected) && t.selected[..|s.selected|] == s.selected &&
      !t.isVisible && t.selectedCategory == "" && t.selectedSpecialization == ""
  {
  }

  /** Picking a new category and submitting straight away adds nothing. */
  lemma PickCategoryThenSubmitAddsNothing(s: State, category: string)
    ensures Submit(PickCategory(s, category)).selected == s.selected
  {
  }

  /** The selector's state: one field per `useState` slot, plus the list the parent holds. */
  class Selector {
    var isVisible: bool
    var selectedCategory: string
    var selectedSpecialization: string
    /** `selectedSpecializations`, as the parent stores it through `onSelectionChange`. */
    var selected: seq<string>

    constructor (initial: seq<string>)
      ensures Current() == State(false, "", "", initial)
    {
      isVisible := false;
      selectedCategory, selectedSpecialization := "", "";
      selected := initial;
    }

    function Current(): State
      reads this
    {
      State(isVisible, selectedCategory, selectedSpecialization, selected)
    }

    /** The "Add Specialization" button. */
    method Open()
      modifies this
      ensures Current() == old(Current()).(isVisible := true)
    {
      isVisible := true;
    }

    method HandleSubmit()
      modifies this
      ensures Current() == Submit(old(Current()))
    {
      if selectedCategory != "" && selectedSpecialization != "" {
        var newSpec := Entry(selectedCategory, selectedSpecialization);
        if newSpec !in selected {
          selected := selected + [newSpec];
        }
        selectedCategory := "";
        selectedSpecialization := "";
        isVisible := false;
      }
    }

    method HandleCancel()
      modifies this
      ensures Current() == Cancel(old(Current()))
    {
      selectedCategory := "";
      selectedSpecialization := "";
      isVisible := false;
    }

    /** `onRequestClose` (the back button): hides the modal and keeps the picks. */
    method RequestClose()
      modifies this
      ensures Current() == old(Current()).(isVisible := false)
    {
      isVisible := false;
    }

    /** A row of the category list. */
    method SelectCategory(category: string)
      modifies this
      ensures Current() == PickCategory(old(Current()), category)
    {
      selectedCategory := category;
      selectedSpecialization := "";
    }

    /** A row of the specialization list. */
    method SelectSpecialization(specialization: string)
      modifies this
      ensures Current() == old(Current()).(selectedSpecialization := specialization)
    {
      selectedSpecialization := specialization;
    }

    /** The × next to an entry. */
    method RemoveSpecialization(spec: string)
      modifies this
      ensures Current() == old(Current()).(selected := RemoveAll(old(selected), spec))
    {
      selected := RemoveAll(selected, spec);
    }
  }
}
