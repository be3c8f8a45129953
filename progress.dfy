/**
 * The reading-progress store (src/reader/progress.ts): one persisted blob
 * under the key "aozora-reader-progress/v1" holding a map from work id to
 * {pageIndex, totalPages, updatedAt}. The browser's storage slot is
 * modelled by what reading it can yield; JSON parsing and printing are not
 * modelled, and the clock is a parameter.
 */
module Progress {
  import opened Wrappers

  datatype ReadingProgress = ReadingProgress(pageIndex: int, totalPages: int, updatedAt: int)

  type ProgressMap = map<string, ReadingProgress>

  /** What the storage slot can hold, as seen by `getReadingProgressMap`:
      nothing (no item, or the empty string), text that `JSON.parse`
      rejects, a JSON value that is not an object (or is null), or an
      object of progress records. */
  datatype Slot = Missing | Unparsable | NotAnObject | Stored(entries: ProgressMap)

  /** getReadingProgressMap: every slot that is not a stored object reads as
      the empty map; no failure is ever raised. */
  function ProgressMapOf(slot: Slot): (m: ProgressMap)
    ensures !slot.Stored? ==> m == map[]
    ensures slot.Stored? ==> m == slot.entries
  {
    match slot
    case Stored(entries) => entries
    case _ => map[]
  }

  /** getReadingProgress: a plain lookup in the map read from the slot. */
  function ProgressOf(slot: Slot, bookId: string): (r: Option<ReadingProgress>)
    ensures r.Some? <==> bookId in ProgressMapOf(slot)
    ensures r.Some? ==> r.value == ProgressMapOf(slot)[bookId]
  {
    var m := ProgressMapOf(slot);
    if bookId in m then Some(m[bookId]) else None
  }

  /** The slot after saveReadingProgress(bookId, pageIndex, totalPages) at
      time `now`: the whole map is written back with that one record
      replaced. */
  function SavedSlot(slot: Slot, bookId: string, pageIndex: int, totalPages: int, now: int): (s: Slot)
    ensures s.Stored?
    ensures ProgressOf(s, bookId) == Some(ReadingProgress(pageIndex, totalPages, now))
    ensures forall other :: other != bookId ==> ProgressOf(s, other) == ProgressOf(slot, other)
    ensures s.entries.Keys == ProgressMapOf(slot).Keys + {bookId}
    ensures !slot.Stored? ==> s.entries == map[bookId := ReadingProgress(pageIndex, totalPages, now)]
  {
    Stored(ProgressMapOf(slot)[bookId := ReadingProgress(pageIndex, totalPages, now)])
  }

  /** The slot after removeReadingProgress(bookId): untouched (no write at
      all) when the id has no record, otherwise the map without that id. */
  function RemovedSlot(slot: Slot, bookId: string): (s: Slot)
    ensures bookId !in ProgressMapOf(slot) ==> s == slot
    ensures ProgressOf(s, bookId) == None
    ensures forall other :: other != bookId ==> ProgressOf(s, other) == ProgressOf(slot, other)
    ensures bookId in ProgressMapOf(slot) ==> s.Stored? && s.entries.Keys == ProgressMapOf(slot).Keys - {bookId}
  {
    var m := ProgressMapOf(slot);
    if bookId !in m then slot else Stored(m - {bookId})
  }

  /** Removing a record that was just saved leaves every other record as it
      was before the save. */
  lemma SaveThenRemove(slot: Slot, bookId: string, pageIndex: int, totalPages: int, now: int, other: string)
    ensures ProgressOf(RemovedSlot(SavedSlot(slot, bookId, pageIndex, totalPages, now), bookId), other)
         == if other == bookId then None else ProgressOf(slot, other)
  {
  }

  /** Saving the same id twice keeps only the later record. */
  lemma SaveOverwrites(slot: Slot, bookId: string, p1: int, t1: int, now1: int, p2: int, t2: int, now2: int)
    ensures SavedSlot(SavedSlot(slot, bookId, p1, t1, now1), bookId, p2, t2, now2)
         == SavedSlot(slot, bookId, p2, t2, now2)
  {
  }

  /** The browser's storage slot for the progress key. */
  class ProgressStore {
    var slot: Slot

    constructor(initial: Slot)
      ensures slot == initial
    {
      slot := initial;
    }

    /** getReadingProgressMap */
    function ProgressMap(): ProgressMap
      reads this
    {
      ProgressMapOf(slot)
    }

    /** getReadingProgress */
    function Get(bookId: string): Option<ReadingProgress>
      reads this
    {
      ProgressOf(slot, bookId)
    }

    /** saveReadingProgress: read the map, put the record, write the map. */
    method Save(bookId: string, pageIndex: int, totalPages: int, now: int)
      modifies this
      ensures slot == SavedSlot(old(slot), bookId, pageIndex, totalPages, now)
      ensures Get(bookId) == Some(ReadingProgress(pageIndex, totalPages, now))
    {
      var progressMap := ProgressMap();
      progressMap := progressMap[bookId := ReadingProgress(pageIndex, totalPages, now)];
      slot := Stored(progressMap);
    }

    /** removeReadingProgress: no write when the id is absent. */
    method Remove(bookId: string)
      modifies this
      ensures slot == RemovedSlot(old(slot), bookId)
      ensures bookId !in old(ProgressMap()) ==> unchanged(this)
      ensures Get(bookId) == None
    {
      var progressMap := ProgressMap();
      if bookId !in progressMap {
        return;
      }
      progressMap := progressMap - {bookId};
      slot := Stored(progressMap);
    }
  }
}
