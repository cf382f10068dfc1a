/**
 * The recent-notes list (src/hooks/useNoteHistory.ts): each triggered note
 * is appended and only the last fifteen are kept. The React state update is
 * modelled as the function from the old list to the new one; the id and the
 * timestamp (`Date.now()`, `Math.random()`) are parameters.
 */
module NoteHistory {
  import opened Types
  import opened JsArray

  /** How many entries the history keeps. */
  const NoteHistoryLength: nat := 15

  datatype NoteHistoryItem = NoteHistoryItem(id: string, note: string, hand: Side, finger: Finger,
                                             timestamp: int, color: string)

  /** `[...current, item].slice(-15)`. */
  function AddItem(history: seq<NoteHistoryItem>, item: NoteHistoryItem): (r: seq<NoteHistoryItem>)
    ensures |r| <= NoteHistoryLength && r != []
    ensures r[|r| - 1] == item
    ensures r[..|r| - 1] == KeepLast(history, NoteHistoryLength - 1)
    ensures |history| < NoteHistoryLength ==> r == history + [item]
  {
    var r := SliceFrom(history + [item], -(NoteHistoryLength as int));
    SliceNegativeIsKeepLast(history + [item], NoteHistoryLength);
    KeepLastAppend(history, item, NoteHistoryLength);
    r
  }

  /** `addNote`: the new item carries the given note, hand, finger and colour. */
  function AddNote(history: seq<NoteHistoryItem>, note: string, hand: Side, finger: Finger, color: string,
                   id: string, timestamp: int): (r: seq<NoteHistoryItem>)
    ensures |r| <= NoteHistoryLength && r != []
    ensures r[|r| - 1] == NoteHistoryItem(id, note, hand, finger, timestamp, color)
    ensures r[..|r| - 1] == KeepLast(history, NoteHistoryLength - 1)
    ensures |history| < NoteHistoryLength ==> |r| == |history| + 1 && r[..|history|] == history
  {
    AddItem(history, NoteHistoryItem(id, note, hand, finger, timestamp, color))
  }

  /** `clearHistory`. */
  function ClearHistory(): (r: seq<NoteHistoryItem>)
    ensures |r| == 0
  {
    []
  }

  /** The history after adding `items` one at a time. */
  function AddAll(history: seq<NoteHistoryItem>, items: seq<NoteHistoryItem>): seq<NoteHistoryItem> {
    if items == [] then history
    else AddItem(AddAll(history, items[..|items| - 1]), items[|items| - 1])
  }

  /** The history is a bounded FIFO: starting from any list of at most
      fifteen, it always holds the last fifteen of everything seen, in the
      order seen. */
  lemma {:induction false} AddAllKeepsLastFifteen(history: seq<NoteHistoryItem>, items: seq<NoteHistoryItem>)
    requires |history| <= NoteHistoryLength
    ensures AddAll(history, items) == KeepLast(history + items, NoteHistoryLength)
  {
    if items != [] {
      var init, last := items[..|items| - 1], items[|items| - 1];
      AddAllKeepsLastFifteen(history, init);
      var before := KeepLast(history + init, NoteHistoryLength);
      assert history + items == (history + init) + [last];
      KeepLastAppend(history + init, last, NoteHistoryLength);
      KeepLastAppend(before, last, NoteHistoryLength);
      KeepLastOfKeepLast(history + init, NoteHistoryLength, NoteHistoryLength - 1);
    }
  }

  /** Keeping the last m of the last n (m <= n) is keeping the last m. */
  lemma KeepLastOfKeepLast<T>(s: seq<T>, n: nat, m: nat)
    requires m <= n
    ensures KeepLast(KeepLast(s, n), m) == KeepLast(s, m)
  {
  }
}
