/** An optional value, used for JavaScript's `null`/`undefined` and for
    lookups that may miss. */
module Wrappers {

  datatype Option<+T> = None | Some(value: T) {

    /** The value held, or `default` when there is none. */
    function GetOr(default: T): T {
      match this
      case Some(v) => v
      case None => default
    }
  }
}

/** Dates travel through localStorage as text: JSON.stringify writes a date
    as a string and the scan-history reviver turns that string back into a
    date. A date is an instant in epoch milliseconds; its text form is
    modelled as the decimal numeral of that count. */
module DateText {

  predicate IsDigit(c: char) {
    '0' <= c <= '9'
  }

  function DigitChar(d: nat): (c: char)
    requires d < 10
    ensures IsDigit(c)
  {
    ('0' as int + d) as char
  }

  function DigitValue(c: char): (d: nat)
    ensures d < 10
  {
    if IsDigit(c) then c as int - '0' as int else 0
  }

  /** The text written for an instant. */
  function FormatInstant(n: nat): (t: string)
    ensures |t| > 0
    ensures forall i :: 0 <= i < |t| ==> IsDigit(t[i])
    decreases n
  {
    if n < 10 then [DigitChar(n)] else FormatInstant(n / 10) + [DigitChar(n % 10)]
  }

  /** The instant read back from its text. */
  function ParseInstant(t: string): nat
    decreases |t|
  {
    if t == [] then 0 else ParseInstant(t[..|t| - 1]) * 10 + DigitValue(t[|t| - 1])
  }

  /** Text that reads back to an instant whose text is itself. */
  predicate IsCanonical(t: string) {
    FormatInstant(ParseInstant(t)) == t
  }

  /** Writing an instant and reading it back yields the same instant. */
  lemma {:induction false} InstantRoundTrip(n: nat)
    ensures ParseInstant(FormatInstant(n)) == n
    ensures IsCanonical(FormatInstant(n))
    decreases n
  {
    if n >= 10 {
      InstantRoundTrip(n / 10);
      var t := FormatInstant(n);
      assert t[..|t| - 1] == FormatInstant(n / 10);
    }
  }
}

/** The browser's key/value store (localStorage), shared by the sign-in
    context and the scan-history context. A value is kept as the record
    JSON.stringify would write for it. */
module Storage {
  import opened Wrappers

  /** The signed-in user (src/contexts/AuthContext.tsx, interface User). */
  datatype User = User(id: string, email: string, name: string)

  /** The verdict of a saved scan: 'Safe' | 'Suspicious' | 'Critical'. */
  datatype Verdict = Safe | Suspicious | Critical

  /** A scan-history entry as written to the store: its date is text. */
  datatype StoredScan = StoredScan(
    id: string,
    fileName: string,
    fileSize: string,
    scanDate: string,
    threatLevel: Verdict,
    detailsPath: Option<string>,
    filePath: Option<string>)

  datatype StoredValue = UserEntry(user: User) | HistoryEntry(scans: seq<StoredScan>)

  const UserKey: string := "user"
  const HistoryKeyPrefix: string := "scanHistory_"

  /** The key under which one user's scan history is kept. */
  function HistoryKey(userId: string): (key: string)
    ensures |key| == |HistoryKeyPrefix| + |userId|
    ensures key[..|HistoryKeyPrefix|] == HistoryKeyPrefix
    ensures key[|HistoryKeyPrefix|..] == userId
  {
    HistoryKeyPrefix + userId
  }

  /** Distinct users have distinct history keys, and no history key is the
      key of the signed-in user, so no write to one entry touches another. */
  lemma HistoryKeysSeparate(a: string, b: string)
    ensures HistoryKey(a) == HistoryKey(b) <==> a == b
    ensures HistoryKey(a) != UserKey
  {
    if HistoryKey(a) == HistoryKey(b) {
      assert a == HistoryKey(a)[|HistoryKeyPrefix|..];
    }
  }

  class LocalStorage {
    var items: map<string, StoredValue>

    /** The store as it was left by earlier sessions. */
    constructor (saved: map<string, StoredValue>)
      ensures items == saved
    {
      items := saved;
    }

    function GetItem(key: string): (v: Option<StoredValue>)
      reads this
      ensures v.Some? <==> key in items
      ensures v.Some? ==> v.value == items[key]
    {
      if key in items then Some(items[key]) else None
    }

    method SetItem(key: string, value: StoredValue)
      modifies this
      ensures items == old(items)[key := value]
    {
      items := items[key := value];
    }

    method RemoveItem(key: string)
      modifies this
      ensures items == old(items) - {key}
    {
      items := items - {key};
    }
  }
}
