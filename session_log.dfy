/**
 * The saved session log: the record the timer screen writes under the
 * storage key "@sessions", the states that key can be in when it is read,
 * and the read-modify-write append of `saveSessionToStorage`. The report
 * and history screens read the same key.
 */
module SessionLog {
  import opened Optional

  /** One stored session. Every field but `id` and `date` may be absent in
      stored data (the screens read it with `|| 0` and `|| "Diğer"`
      fallbacks); `date` is the completion time as an integer timestamp. */
  datatype Record = Record(
    id: int,
    category: Option<string>,
    duration: Option<nat>,
    distractions: Option<nat>,
    reason: Option<string>,
    goal: Option<string>,
    date: int)

  /** What `AsyncStorage.getItem("@sessions")` followed by `JSON.parse`
      gives: no value (or an empty one), text that does not parse, or a
      parsed list of records. */
  datatype StoredValue = Missing | Malformed | Stored(records: seq<Record>)

  /** Label used for a record without a category. */
  const OTHER_CATEGORY: string := "Diğer"

  /** `s.duration || 0` */
  function DurationOrZero(r: Record): nat {
    r.duration.GetOr(0)
  }

  /** `s.distractions || 0` */
  function DistractionsOrZero(r: Record): nat {
    r.distractions.GetOr(0)
  }

  /** `s.category || "Diğer"`: the empty string is falsy too. */
  function CategoryKey(r: Record): (k: string)
    ensures k != ""
    ensures r.category.Some? && r.category.value != "" ==> k == r.category.value
    ensures r.category.None? || r.category.value == "" ==> k == OTHER_CATEGORY
  {
    if r.category.Some? && r.category.value != "" then r.category.value else OTHER_CATEGORY
  }

  /** `stored ? JSON.parse(stored) : []`; None when parsing throws. */
  function ReadOrEmpty(v: StoredValue): (r: Option<seq<Record>>)
    ensures r.None? <==> v.Malformed?
    ensures v.Missing? ==> r == Some([])
    ensures v.Stored? ==> r == Some(v.records)
  {
    match v
    case Missing => Some([])
    case Malformed => None
    case Stored(rs) => Some(rs)
  }

  /** The store after `saveSessionToStorage` appends `rec`: the list read
      (absent means empty) with the record pushed on its end. A read that
      fails to parse throws before anything is written, so the value is
      left as it was. */
  function Appended(v: StoredValue, rec: Record): (w: StoredValue)
    ensures v.Malformed? <==> w.Malformed?
    ensures !v.Malformed? ==> w == Stored(ReadOrEmpty(v).value + [rec])
  {
    match v
    case Missing => Stored([rec])
    case Malformed => Malformed
    case Stored(rs) => Stored(rs + [rec])
  }

  /** Round trip: after an append to a readable store, reading returns the
      earlier list, unchanged, with the new record, all fields intact, at
      its end. */
  lemma AppendThenRead(v: StoredValue, rec: Record)
    requires !v.Malformed?
    ensures var r := ReadOrEmpty(Appended(v, rec));
      && r.Some?
      && |r.value| == |ReadOrEmpty(v).value| + 1
      && r.value[..|r.value| - 1] == ReadOrEmpty(v).value
      && r.value[|r.value| - 1] == rec
  {
  }
}
