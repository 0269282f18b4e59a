/** The scan-history context (src/contexts/ScanHistoryContext.tsx): the
    signed-in user's list of past scans, newest first, mirrored in the
    browser store under the key `scanHistory_<user id>`.

    The context's two effects are modelled as functions of the store:
    loading when the user changes, and saving whenever the list or the
    user changes. */
module ScanHistoryStore {
  import opened Wrappers
  import opened Storage
  import DateText

  /** A saved scan, with its date as an instant in epoch milliseconds. */
  datatype ScanResult = ScanResult(
    id: string,
    fileName: string,
    fileSize: string,
    scanDate: nat,
    threatLevel: Verdict,
    detailsPath: Option<string>,
    filePath: Option<string>)

  /** What a caller of addScanResult supplies: a scan without id and date. */
  datatype NewScan = NewScan(
    fileName: string,
    fileSize: string,
    threatLevel: Verdict,
    detailsPath: Option<string>,
    filePath: Option<string>)

  const IdPrefix: string := "scan_"

  /** The entry addScanResult creates: the caller's fields, an id made of
      `scan_` and random text, and the current date. */
  function Stamp(r: NewScan, idSuffix: string, now: nat): (s: ScanResult)
    ensures IdPrefix <= s.id && s.scanDate == now
    ensures s.fileName == r.fileName && s.fileSize == r.fileSize && s.threatLevel == r.threatLevel
    ensures s.detailsPath == r.detailsPath && s.filePath == r.filePath
  {
    ScanResult(IdPrefix + idSuffix, r.fileName, r.fileSize, now, r.threatLevel, r.detailsPath, r.filePath)
  }

  // ---------------------------------------------------------------------
  // Serialisation: JSON.stringify and JSON.parse with the date reviver
  // ---------------------------------------------------------------------

  function ToStored(r: ScanResult): StoredScan {
    StoredScan(r.id, r.fileName, r.fileSize, DateText.FormatInstant(r.scanDate),
               r.threatLevel, r.detailsPath, r.filePath)
  }

  /** The reviver turns the `scanDate` text back into a date. */
  function FromStored(s: StoredScan): ScanResult {
    ScanResult(s.id, s.fileName, s.fileSize, DateText.ParseInstant(s.scanDate),
               s.threatLevel, s.detailsPath, s.filePath)
  }

  function Serialize(h: seq<ScanResult>): (s: seq<StoredScan>)
    ensures |s| == |h|
  {
    if h == [] then [] else [ToStored(h[0])] + Serialize(h[1..])
  }

  function Deserialize(s: seq<StoredScan>): (h: seq<ScanResult>)
    ensures |h| == |s|
  {
    if s == [] then [] else [FromStored(s[0])] + Deserialize(s[1..])
  }

  /** Every date in the list is written the way a date is written. */
  ghost predicate Canonical(s: seq<StoredScan>) {
    forall i :: 0 <= i < |s| ==> DateText.IsCanonical(s[i].scanDate)
  }

  /** Saving a list and loading it back yields the same list in the same
      order, dates included, and what is saved is in written form. */
  lemma {:induction false} SaveLoadRoundTrip(h: seq<ScanResult>)
    ensures Deserialize(Serialize(h)) == h
    ensures Canonical(Serialize(h))
  {
    if h != [] {
      SaveLoadRoundTrip(h[1..]);
      DateText.InstantRoundTrip(h[0].scanDate);
      var s := Serialize(h);
      forall i | 0 <= i < |s|
        ensures DateText.IsCanonical(s[i].scanDate)
      {
        if i > 0 {
          assert s[i] == Serialize(h[1..])[i - 1];
        }
      }
    }
  }

  /** Loading a list in written form and saving it again writes back
      exactly what was stored. */
  lemma {:induction false} LoadSaveRoundTrip(s: seq<StoredScan>)
    requires Canonical(s)
    ensures Serialize(Deserialize(s)) == s
  {
    if s != [] {
      assert Canonical(s[1..]) by {
        forall i | 0 <= i < |s[1..]|
          ensures DateText.IsCanonical(s[1..][i].scanDate)
        {
          assert s[1..][i] == s[i + 1];
        }
      }
      LoadSaveRoundTrip(s[1..]);
      assert DateText.IsCanonical(s[0].scanDate);
    }
  }

  /** Every history entry in the store is in written form, as every entry
      this context writes is. */
  ghost predicate StoreCanonical(items: map<string, StoredValue>) {
    forall k :: k in items && items[k].HistoryEntry? ==> Canonical(items[k].scans)
  }

  // ---------------------------------------------------------------------
  // The two effects
  // ---------------------------------------------------------------------

  /** The load effect: the user's saved list, or an empty one when there is
      no user or nothing is saved under the user's key. */
  function LoadHistory(items: map<string, StoredValue>, user: Option<string>): (h: seq<ScanResult>)
    ensures user.None? ==> h == []
    ensures user.Some? && HistoryKey(user.value) !in items ==> h == []
  {
    match user
    case None => []
    case Some(id) =>
      var key := HistoryKey(id);
      if key in items && items[key].HistoryEntry? then Deserialize(items[key].scans) else []
  }

  /** The save effect: writes the list under the user's key when there is a
      user and the list is not empty, and does nothing otherwise. */
  function SaveHistory(items: map<string, StoredValue>, user: Option<string>, h: seq<ScanResult>)
    : (r: map<string, StoredValue>)
    ensures user.Some? && |h| > 0 ==> HistoryKey(user.value) in r && LoadHistory(r, user) == h
    ensures !(user.Some? && |h| > 0) ==> r == items
    ensures r.Keys <= items.Keys + (if user.Some? then {HistoryKey(user.value)} else {})
    ensures forall k :: k in items && (user.None? || k != HistoryKey(user.value)) ==> k in r && r[k] == items[k]
    ensures StoreCanonical(items) ==> StoreCanonical(r)
  {
    SaveLoadRoundTrip(h);
    if user.Some? && |h| > 0 then items[HistoryKey(user.value) := HistoryEntry(Serialize(h))] else items
  }

  /** The store and list after the user changes, as the context is written.
      In the commit where `user` changes both effects run with that
      render's values: the load effect reads the new user's list, and the
      save effect writes the list still on screen, the previous user's,
      under the new user's key. The re-render with the loaded list then
      saves again, but only when that list is not empty. So the new user's
      key ends up holding their own list when they had one, and the
      previous user's list when they had none. */
  function SwitchUserAsWritten(items: map<string, StoredValue>, shown: seq<ScanResult>, user: Option<string>)
    : (r: (map<string, StoredValue>, seq<ScanResult>))
    ensures r.1 == LoadHistory(items, user)
    ensures user.None? ==> r.0 == items
    ensures user.Some? && |r.1| > 0 ==> LoadHistory(r.0, user) == r.1
    ensures user.Some? && |r.1| == 0 && |shown| > 0 ==> LoadHistory(r.0, user) == shown
    ensures |r.1| == 0 && |shown| == 0 ==> r.0 == items
    ensures r.0.Keys <= items.Keys + (if user.Some? then {HistoryKey(user.value)} else {})
    ensures forall k :: k in items && (user.None? || k != HistoryKey(user.value)) ==> k in r.0 && r.0[k] == items[k]
    ensures StoreCanonical(items) ==> StoreCanonical(r.0)
  {
    var loaded := LoadHistory(items, user);
    var afterStaleSave := SaveHistory(items, user, shown);
    (SaveHistory(afterStaleSave, user, loaded), loaded)
  }

  /** Signing in as a user with nothing saved while another user's list is
      on screen copies that list under the new user's key: the new user is
      shown an empty list now, and the other user's scans the next time the
      list is loaded. */
  lemma SwitchUserLeaksHistory(items: map<string, StoredValue>, shown: seq<ScanResult>, user: Option<string>)
    requires user.Some? && HistoryKey(user.value) !in items && |shown| > 0
    ensures var r := SwitchUserAsWritten(items, shown, user);
      r.1 == [] && LoadHistory(r.0, user) == shown && LoadHistory(r.0, user) != LoadHistory(items, user)
  {
  }

  /** One such input: the store is empty, one scan is on screen, and user
      `b` signs in. */
  lemma SwitchUserLeaksHistoryExample()
    ensures var previous := [ScanResult("scan_a", "a.exe", "1 KB", 0, Critical, None, None)];
            var r := SwitchUserAsWritten(map[], previous, Some("b"));
            r.1 == [] && LoadHistory(r.0, Some("b")) == previous
  {
    var previous := [ScanResult("scan_a", "a.exe", "1 KB", 0, Critical, None, None)];
    SwitchUserLeaksHistory(map[], previous, Some("b"));
  }

  /** The store and list after the user changes, saving only the list that
      belongs to the new user. Switching users then never changes what is
      stored, and the new user sees only their own saved list. */
  function SwitchUser(items: map<string, StoredValue>, user: Option<string>)
    : (r: (map<string, StoredValue>, seq<ScanResult>))
    requires StoreCanonical(items)
    ensures r.0 == items
    ensures r.1 == LoadHistory(items, user)
    ensures user.Some? && HistoryKey(user.value) !in items ==> r.1 == []
  {
    var loaded := LoadHistory(items, user);
    SaveLoadedUnchanged(items, user);
    (SaveHistory(items, user, loaded), loaded)
  }

  /** Saving the list just loaded for a user writes back what is already
      stored. */
  lemma SaveLoadedUnchanged(items: map<string, StoredValue>, user: Option<string>)
    requires StoreCanonical(items)
    ensures SaveHistory(items, user, LoadHistory(items, user)) == items
  {
    if user.Some? && HistoryKey(user.value) in items && items[HistoryKey(user.value)].HistoryEntry? {
      LoadSaveRoundTrip(items[HistoryKey(user.value)].scans);
    }
  }

  /** The session key and the history keys are distinct, so signing in,
      signing up or signing out never changes any user's saved list. */
  lemma SessionWritesKeepHistory(items: map<string, StoredValue>, u: User, user: Option<string>)
    ensures LoadHistory(items[UserKey := UserEntry(u)], user) == LoadHistory(items, user)
    ensures LoadHistory(items - {UserKey}, user) == LoadHistory(items, user)
    ensures StoreCanonical(items) ==> StoreCanonical(items[UserKey := UserEntry(u)])
    ensures StoreCanonical(items) ==> StoreCanonical(items - {UserKey})
  {
    if user.Some? {
      HistoryKeysSeparate(user.value, user.value);
    }
  }

  class ScanHistoryProvider {
    var user: Option<string>
    var scanHistory: seq<ScanResult>
    const store: LocalStorage

    /** The store holds written-form lists only, and a non-empty list shown
        for a user is the one stored under that user's key. */
    ghost predicate Valid()
      reads this, store
    {
      && StoreCanonical(store.items)
      && (user.Some? && |scanHistory| > 0 ==> LoadHistory(store.items, user) == scanHistory)
    }

    /** Mounting with no user yet: an empty list. */
    constructor (store: LocalStorage)
      requires StoreCanonical(store.items)
      ensures Valid()
      ensures this.store == store && user == None && scanHistory == []
    {
      this.store := store;
      user := None;
      scanHistory := [];
    }

    /** The user changes (sign-in, sign-out, or the restored session), with
        the corrected switch: the new user's list is loaded and the store is
        left as it was. */
    method UserChanged(newUser: Option<string>)
      requires Valid()
      modifies this, store
      ensures Valid()
      ensures user == newUser
      ensures scanHistory == LoadHistory(old(store.items), newUser)
      ensures store.items == old(store.items)
    {
      user := newUser;
      var switched := SwitchUser(store.items, newUser);
      scanHistory := switched.1;
      if user.Some? && |scanHistory| > 0 {
        store.SetItem(HistoryKey(user.value), HistoryEntry(Serialize(scanHistory)));
      }
    }

    /** The user changes, with both effects as the context is written: the
        list on screen is first saved under the new user's key, then the
        new user's list, as loaded before that save, is shown and saved. */
    method UserChangedAsWritten(newUser: Option<string>)
      requires Valid()
      modifies this, store
      ensures Valid()
      ensures user == newUser
      ensures (store.items, scanHistory) == SwitchUserAsWritten(old(store.items), old(scanHistory), newUser)
    {
      ghost var switched := SwitchUserAsWritten(store.items, scanHistory, newUser);
      var loaded := LoadHistory(store.items, newUser);
      if newUser.Some? && |scanHistory| > 0 {
        store.SetItem(HistoryKey(newUser.value), HistoryEntry(Serialize(scanHistory)));
      }
      user := newUser;
      scanHistory := loaded;
      if user.Some? && |scanHistory| > 0 {
        store.SetItem(HistoryKey(user.value), HistoryEntry(Serialize(scanHistory)));
      }
      assert store.items == switched.0 && scanHistory == switched.1;
    }

    /** addScanResult: the new entry goes first, the earlier ones follow in
        their order, and the save effect stores the list. */
    method AddScanResult(r: NewScan, idSuffix: string, now: nat)
      requires Valid()
      modifies this, store
      ensures Valid()
      ensures user == old(user)
      ensures scanHistory == [Stamp(r, idSuffix, now)] + old(scanHistory)
      ensures store.items == SaveHistory(old(store.items), user, scanHistory)
    {
      scanHistory := [Stamp(r, idSuffix, now)] + scanHistory;
      if user.Some? && |scanHistory| > 0 {
        SaveLoadRoundTrip(scanHistory);
        store.SetItem(HistoryKey(user.value), HistoryEntry(Serialize(scanHistory)));
      }
    }

    /** clearHistory: with a user, drops the list and its stored entry;
        without one, does nothing. */
    method ClearHistory()
      requires Valid()
      modifies this, store
      ensures Valid()
      ensures user == old(user)
      ensures old(user).None? ==> scanHistory == old(scanHistory) && store.items == old(store.items)
      ensures old(user).Some? ==>
        scanHistory == [] && store.items == old(store.items) - {HistoryKey(old(user).value)}
    {
      if user.Some? {
        store.RemoveItem(HistoryKey(user.value));
        scanHistory := [];
      }
    }
  }
}
