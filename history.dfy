/** The bounded analysis history of the orchestrator (App.tsx, saveToHistory
    and the clear button): newest first, at most twenty entries, mirrored into
    local storage. Storage is an abstract value; ids and clock readings are
    parameters. */
module History {
  import opened Types

  datatype HistoryItem = HistoryItem(id: string, timestamp: int, preview: string, result: AnalysisResult)

  const MaxEntries: nat := 20
  const PreviewLength: nat := 30
  const FallbackPreview := "案例分析"

  function Min(a: int, b: int): int {
    if a <= b then a else b
  }

  /** The preview: the input's first thirty characters, or the fallback label
      for an empty input. */
  function Preview(text: string): (r: string)
    ensures text == "" ==> r == FallbackPreview
    ensures text != "" ==> r != "" && r <= text && |r| == Min(|text|, PreviewLength)
  {
    var cut := text[..Min(|text|, PreviewLength)];
    if cut != "" then cut else FallbackPreview
  }

  function NewItem(data: AnalysisResult, text: string, id: string, now: int): HistoryItem {
    HistoryItem(id, now, Preview(text), data)
  }

  /** Prepend, then keep the first twenty. */
  function Save(history: seq<HistoryItem>, item: HistoryItem): (r: seq<HistoryItem>)
    ensures |r| == Min(|history| + 1, MaxEntries)
    ensures r[0] == item
    ensures r[1..] == history[..|r| - 1]
  {
    ([item] + history)[..Min(|history| + 1, MaxEntries)]
  }

  /** Saving one item after another, oldest first. */
  function SaveAll(history: seq<HistoryItem>, items: seq<HistoryItem>): seq<HistoryItem>
    decreases |items|
  {
    if items == [] then history else SaveAll(Save(history, items[0]), items[1..])
  }

  function Reversed(s: seq<HistoryItem>): (r: seq<HistoryItem>)
    ensures |r| == |s|
    ensures forall i :: 0 <= i < |s| ==> r[i] == s[|s| - 1 - i]
  {
    if s == [] then [] else Reversed(s[1..]) + [s[0]]
  }

  /** After any run of saves on a list within the bound, the list is the
      newest entries, newest first, followed by the old list, cut to twenty. */
  lemma {:induction false} SaveAllNewestFirst(history: seq<HistoryItem>, items: seq<HistoryItem>)
    requires |history| <= MaxEntries
    ensures SaveAll(history, items) == (Reversed(items) + history)[..Min(|items| + |history|, MaxEntries)]
    decreases |items|
  {
    if items != [] {
      var h1 := Save(history, items[0]);
      var rest := items[1..];
      SaveAllNewestFirst(h1, rest);
      var k := Min(|items| + |history|, MaxEntries);
      var lhs := (Reversed(rest) + h1)[..Min(|rest| + |h1|, MaxEntries)];
      var rhs := (Reversed(items) + history)[..k];
      assert |lhs| == |rhs|;
      forall i | 0 <= i < |lhs| ensures lhs[i] == rhs[i] {
        if i < |rest| {
          assert lhs[i] == rest[|rest| - 1 - i] == items[|items| - 1 - i];
        } else if i == |rest| {
          assert lhs[i] == h1[0] == items[0];
        } else {
          assert lhs[i] == h1[i - |rest|] == history[i - |rest| - 1];
        }
      }
    }
  }

  /** Any number of saves into an empty history leaves the twenty most recent
      entries, newest first; older ones are dropped. */
  lemma KeepsTwentyNewest(items: seq<HistoryItem>)
    ensures |SaveAll([], items)| == Min(|items|, MaxEntries)
    ensures forall i :: 0 <= i < |SaveAll([], items)| ==> SaveAll([], items)[i] == items[|items| - 1 - i]
  {
    SaveAllNewestFirst([], items);
    assert Reversed(items) + [] == Reversed(items);
  }

  /** The local-storage entry under 'sales_history'. Corrupt is a stored text
      that does not parse; restoring it is silently skipped. */
  datatype Stored = Absent | Corrupt | Saved(items: seq<HistoryItem>)

  function Restore(stored: Stored): seq<HistoryItem> {
    match stored
    case Saved(items) => items
    case _ => []
  }

  /** The in-memory list together with its persisted copy. */
  datatype HistoryState = HistoryState(items: seq<HistoryItem>, stored: Stored) {
    /** The list on screen is what a reload would restore. */
    predicate Synced() {
      items == Restore(stored)
    }
  }

  /** The startup read of the stored list. */
  function Startup(stored: Stored): (r: HistoryState)
    ensures r.Synced() && r.stored == stored
  {
    HistoryState(Restore(stored), stored)
  }

  /** saveToHistory: the new list is set and written back, so both copies agree. */
  function SaveToHistory(h: HistoryState, data: AnalysisResult, text: string, id: string, now: int): (r: HistoryState)
    ensures r.Synced() && r.stored == Saved(r.items)
    ensures |r.items| == Min(|h.items| + 1, MaxEntries) && |r.items| <= MaxEntries
    ensures r.items[0] == HistoryItem(id, now, Preview(text), data)
    ensures r.items[1..] == h.items[..|r.items| - 1]
  {
    var items := Save(h.items, NewItem(data, text, id, now));
    HistoryState(items, Saved(items))
  }

  /** The clear button: the list is emptied and the stored copy removed. */
  function ClearHistory(h: HistoryState): (r: HistoryState)
    ensures r.items == [] && r.stored == Absent && r.Synced()
  {
    HistoryState([], Absent)
  }
}
