/** The checkbox lists of the questionnaires: the selected options are a
    list of strings, `undefined` until first touched. Checking an option
    appends it; unchecking removes every copy of it. */
module CheckboxGroup {
  import opened Wrappers
  import Seqs

  /** The current selection: an absent list counts as empty. */
  function Current(value: Option<seq<string>>): seq<string> {
    value.GetOr([])
  }

  /** A box is drawn checked when its option is in the list. */
  predicate IsChecked(value: Option<seq<string>>, option: string) {
    option in Current(value)
  }

  /** Keep every entry other than `option`. */
  function Without(xs: seq<string>, option: string): seq<string> {
    Seqs.Filter(xs, (v: string) => v != option)
  }

  /** The new selection after the box for `option` changes to `checked`:
      appended at the end (no deduplication) when checked, every copy
      filtered out when unchecked. */
  function OnCheckedChange(value: Option<seq<string>>, option: string, checked: bool): (r: seq<string>)
    ensures checked ==> |r| == |Current(value)| + 1 && r[..|Current(value)|] == Current(value) && r[|r| - 1] == option
    ensures !checked ==> option !in r && forall x :: x != option ==> (x in r <==> x in Current(value))
    ensures !checked ==> forall x :: x != option ==> multiset(r)[x] == multiset(Current(value))[x]
    ensures checked <==> option in r
  {
    if checked then Current(value) + [option]
    else
      Seqs.FilterCounts(Current(value), (v: string) => v != option);
      Without(Current(value), option)
  }

  /** Unchecking an option that was checked once, from a list that did not
      hold it, gives back the original list: the other entries keep their
      order. */
  lemma CheckThenUncheck(xs: seq<string>, option: string)
    requires option !in xs
    ensures OnCheckedChange(Some(OnCheckedChange(Some(xs), option, true)), option, false) == xs
  {
    var keep := (v: string) => v != option;
    Seqs.FilterAppend(xs, [option], keep);
    Seqs.FilterKeepAll(xs, keep);
    assert Seqs.Filter([option], keep) == [];
  }

  /** Unchecking twice is unchecking once. */
  lemma UncheckIdempotent(value: Option<seq<string>>, option: string)
    ensures OnCheckedChange(Some(OnCheckedChange(value, option, false)), option, false)
      == OnCheckedChange(value, option, false)
  {
    Seqs.FilterIdempotent(Current(value), (v: string) => v != option);
  }

  /** Unchecking keeps the relative order of the other entries: it commutes
      with splitting the list anywhere. */
  lemma UncheckKeepsOrder(a: seq<string>, b: seq<string>, option: string)
    ensures OnCheckedChange(Some(a + b), option, false)
      == OnCheckedChange(Some(a), option, false) + OnCheckedChange(Some(b), option, false)
  {
    Seqs.FilterAppend(a, b, (v: string) => v != option);
  }

  /** The box is drawn as the last change set it. */
  lemma CheckedShowsState(value: Option<seq<string>>, option: string, checked: bool)
    ensures IsChecked(Some(OnCheckedChange(value, option, checked)), option) == checked
  {
  }
}
