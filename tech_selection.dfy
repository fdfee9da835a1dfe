/** The technology toggle the project form and the profile form share
    (ProjectForm.tsx and FreelancerProfile.tsx): clicking a selected
    technology removes every occurrence of it, clicking an unselected one
    appends it. */
module TechSelection {
  import opened Seqs

  /** `prev.includes(name) ? prev.filter((t) => t !== name) : [...prev, name]`. */
  function Toggle(selected: seq<string>, name: string): (r: seq<string>)
    ensures name in selected ==> name !in r && Subsequence(r, selected)
    ensures name in selected ==> forall t :: t in r <==> t in selected && t != name
    ensures name in selected ==> forall t :: t != name ==> multiset(r)[t] == multiset(selected)[t]
    ensures name !in selected ==> r == selected + [name]
  {
    if name in selected then
      FilterIsSubsequence(selected, (t: string) => t != name);
      forall t: string | t != name
        ensures multiset(Filter(selected, (t: string) => t != name))[t] == multiset(selected)[t]
      {
        FilterMultiset(selected, (t: string) => t != name, t);
      }
      Filter(selected, (t: string) => t != name)
    else selected + [name]
  }

  /** A selection without repeats stays without repeats. */
  lemma ToggleKeepsDistinct(selected: seq<string>, name: string)
    requires Distinct(selected)
    ensures Distinct(Toggle(selected, name))
  {
    if name in selected {
      FilterDistinct(selected, (t: string) => t != name);
    }
  }

  /** Selecting an unselected technology and deselecting it again restores
      the selection. */
  lemma ToggleTwiceRestores(selected: seq<string>, name: string)
    requires name !in selected
    ensures Toggle(Toggle(selected, name), name) == selected
  {
    var p := (t: string) => t != name;
    FilterConcat(selected, [name], p);
    FilterAll(selected, p);
    assert Filter([name], p) == [];
  }

  /** Deselecting and reselecting a selected technology moves it to the end. */
  lemma ToggleTwiceMovesLast(selected: seq<string>, name: string)
    requires name in selected
    ensures Toggle(Toggle(selected, name), name) == Filter(selected, (t: string) => t != name) + [name]
  {
  }
}
