/** The journal entry form and its validation rule (`journalSchema`). */
module JournalSchema {
  import opened Wrappers

  datatype JournalForm = JournalForm(entryText: string, moodTag: Option<string>)

  datatype JournalIssue = EntryEmpty

  function JournalIssues(f: JournalForm): (r: seq<JournalIssue>)
    ensures r == [] <==> |f.entryText| >= 1
  {
    if |f.entryText| < 1 then [EntryEmpty] else []
  }

  predicate JournalAccepts(f: JournalForm) {
    JournalIssues(f) == []
  }

  /** Validity depends on nothing but the entry text being non-empty: the
      mood tag, present or absent, and the text's content play no part. */
  lemma JournalDependsOnlyOnLength(f: JournalForm, g: JournalForm)
    requires |f.entryText| == |g.entryText|
    ensures JournalAccepts(f) <==> JournalAccepts(g)
    ensures JournalAccepts(JournalForm("", f.moodTag)) == false
    ensures JournalAccepts(JournalForm(f.entryText, None)) <==> f.entryText != ""
  {
  }
}
