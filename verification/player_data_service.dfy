/** The local-first sync layer over the remote `player_data` table. Whether
    the backend is configured and whether each remote call succeeds are
    inputs; the table itself is a map from row id to the row's `data` column. */
module PlayerDataService {
  import opened Wrappers
  import opened Records
  import opened LocalStore
  import DataService

  /** The fixed id of the single player row. */
  const RowId: int := 1

  /** Row id to the row's `data` column; `None` is a null column. */
  type Table = map<int, Option<PlayerData>>

  /** `initializeDatabase`: when configured and the existence check reports
      an empty table, insert row `RowId` holding what `getData` returns now.
      A failed check or insert is logged and swallowed, leaving the table as
      it was. */
  function InitializeDatabase(configured: bool, checkOk: bool, insertOk: bool, s: Store, t: Table): (t': Table)
    ensures !configured ==> t' == t
    ensures t != map[] ==> t' == t
    ensures t' != t <==> configured && checkOk && insertOk && t == map[]
    ensures t' != t ==> t' == map[RowId := Some(DataService.GetData(s))]
  {
    if !configured || !checkOk then t
    else if t == map[] then
      (if insertOk then
         var inserted := t[RowId := Some(DataService.GetData(s))];
         assert RowId in inserted;
         inserted
       else t)
    else t
  }

  /** `getPlayerData`: the local record when unconfigured or when the remote
      read fails (a missing row is a read error for `.single()`); otherwise
      the row's `data` column, which may be null. */
  function GetPlayerData(configured: bool, readOk: bool, s: Store, t: Table): (r: Option<PlayerData>)
    ensures !configured || !readOk || RowId !in t ==> r == Some(DataService.GetData(s))
    ensures configured && readOk && RowId in t ==> r == t[RowId]
  {
    if configured && readOk && RowId in t then t[RowId]
    else Some(DataService.GetData(s))
  }

  /** The outcome of `savePlayerData`: the reported flag and both storage tiers after it. */
  datatype Saved = Saved(ok: bool, store: Store, table: Table)

  /** `savePlayerData`: write the record locally first (ignoring whether that
      write succeeded), then, when configured, upsert row `RowId`. */
  function SavePlayerData(configured: bool, writable: bool, upsertOk: bool, s: Store, t: Table, d: PlayerData): (r: Saved)
    ensures r.store == DataService.SaveData(s, d, writable).store
    ensures writable ==> DataService.GetData(r.store) == d
    ensures !configured ==> r.ok && r.table == t
    ensures configured ==> (r.ok <==> upsertOk)
    ensures configured && r.ok ==> r.table == t[RowId := Some(d)]
    ensures !r.ok ==> r.table == t
  {
    var local := DataService.SaveData(s, d, writable).store;
    if !configured then Saved(true, local, t)
    else if upsertOk then Saved(true, local, t[RowId := Some(d)])
    else Saved(false, local, t)
  }

  /** A realtime subscription: disabled (unconfigured backend) or a channel
      that is open until torn down. */
  datatype Subscription = Disabled | Channel(open: bool)

  /** A change notification: the row it concerns and its new `data`, if the
      payload carries one (a deletion carries none). */
  datatype Change = Change(rowId: int, newData: Option<PlayerData>)

  predicate Listening(sub: Subscription) {
    sub.Channel? && sub.open
  }

  /** `subscribeToPlayerData`: a live channel only when configured. */
  function Subscribe(configured: bool): (sub: Subscription)
    ensures Listening(sub) <==> configured
    ensures !configured ==> sub == Disabled
  {
    if configured then Channel(true) else Disabled
  }

  /** The returned unsubscribe function: closes a channel; does nothing for a
      disabled subscription. */
  function Unsubscribe(sub: Subscription): (sub': Subscription)
    ensures !Listening(sub')
    ensures sub.Disabled? ==> sub' == sub
  {
    match sub
    case Disabled => Disabled
    case Channel(_) => Channel(false)
  }

  /** The callback's argument for one notification, if it fires: only on a
      live channel, only for row `RowId` (the channel's filter), and only
      when the payload carries new data. */
  function Notify(sub: Subscription, c: Change): (r: Option<PlayerData>)
    ensures r.Some? <==> Listening(sub) && c.rowId == RowId && c.newData.Some?
    ensures r.Some? ==> r == c.newData
  {
    if Listening(sub) && c.rowId == RowId then c.newData else None
  }

  /** The arguments of the successive callback invocations for a stream of notifications. */
  function Notifications(sub: Subscription, cs: seq<Change>): seq<PlayerData>
    decreases |cs|
  {
    if |cs| == 0 then []
    else
      var rest := Notifications(sub, cs[1..]);
      match Notify(sub, cs[0])
      case Some(d) => [d] + rest
      case None => rest
  }

  // ---- properties relating several operations ----

  /** A second initialisation on a table the first one left non-empty
      inserts nothing, whatever the second call's outcomes. */
  lemma InitializeIdempotent(configured: bool, checkOk: bool, insertOk: bool, s: Store, t: Table,
                             c2: bool, k2: bool, i2: bool, s2: Store)
    requires InitializeDatabase(configured, checkOk, insertOk, s, t) != map[]
    ensures var t1 := InitializeDatabase(configured, checkOk, insertOk, s, t);
            InitializeDatabase(c2, k2, i2, s2, t1) == t1
  {
  }

  /** Initialising an empty table inserts exactly one row, `RowId`, holding
      the locally stored record if there is one and the defaults otherwise. */
  lemma InitializeEmptyTable(s: Store)
    ensures var t1 := InitializeDatabase(true, true, true, s, map[]);
            t1.Keys == {RowId}
            && t1[RowId] == Some(DataService.StoredRecord(s).GetOr(DataService.DefaultData))
  {
  }

  /** What a read returns after a save. Reads served locally (no backend, a
      failed read, or no row `RowId`) see the record whenever the local write
      succeeded; a configured read sees it
      after a successful upsert; after a failed upsert a configured read
      returns the previous remote row. */
  lemma SaveThenGet(configured: bool, writable: bool, upsertOk: bool, readOk: bool,
                      s: Store, t: Table, d: PlayerData)
    ensures var r := SavePlayerData(configured, writable, upsertOk, s, t, d);
            var got := GetPlayerData(configured, readOk, r.store, r.table);
            && (writable && (!configured || !readOk || RowId !in r.table) ==> got == Some(d))
            && (configured && upsertOk && readOk ==> got == Some(d))
            && (configured && !upsertOk && readOk && RowId in t ==> got == t[RowId])
  {
  }

  /** In local-only mode a save is reported successful even when the local
      write failed, and the store then still answers with the old record. */
  lemma LocalOnlySaveIgnoresWriteFailure(s: Store, t: Table, d: PlayerData)
    ensures var r := SavePlayerData(false, false, false, s, t, d);
            r.ok && DataService.GetData(r.store) == DataService.GetData(s)
  {
  }

  /** Delivering two streams in turn calls back with the first stream's
      records followed by the second's. */
  lemma {:induction false} NotificationsAppend(sub: Subscription, a: seq<Change>, b: seq<Change>)
    ensures Notifications(sub, a + b) == Notifications(sub, a) + Notifications(sub, b)
    decreases |a|
  {
    if |a| > 0 {
      assert (a + b)[1..] == a[1..] + b;
      NotificationsAppend(sub, a[1..], b);
    } else {
      assert a + b == b;
    }
  }

  /** Every record the callback receives was the new data of a notification
      for row `RowId`, and the callback fires at most once per notification. */
  lemma {:induction false} NotificationsFromChanges(sub: Subscription, cs: seq<Change>)
    ensures |Notifications(sub, cs)| <= |cs|
    ensures forall d :: d in Notifications(sub, cs) ==> Change(RowId, Some(d)) in cs
    decreases |cs|
  {
    if |cs| > 0 {
      NotificationsFromChanges(sub, cs[1..]);
      forall d | d in Notifications(sub, cs) ensures Change(RowId, Some(d)) in cs {
        if d !in Notifications(sub, cs[1..]) {
          assert cs[0] == Change(RowId, Some(d));
        } else {
          assert Change(RowId, Some(d)) in cs[1..];
        }
      }
    }
  }

  /** On a live channel, every notification for row `RowId` carrying data
      reaches the callback, in order. */
  lemma {:induction false} NotificationsComplete(cs: seq<Change>)
    requires forall i :: 0 <= i < |cs| ==> cs[i].rowId == RowId && cs[i].newData.Some?
    ensures |Notifications(Channel(true), cs)| == |cs|
    ensures forall i :: 0 <= i < |cs| ==> Notifications(Channel(true), cs)[i] == cs[i].newData.value
    decreases |cs|
  {
    if |cs| > 0 {
      NotificationsComplete(cs[1..]);
    }
  }

  /** A single notification for row `RowId` carrying data on a live
      channel calls back once with that data. */
  lemma NotificationSingle(c: Change)
    requires c.rowId == RowId && c.newData.Some?
    ensures Notifications(Channel(true), [c]) == [c.newData.value]
  {
    assert [c][1..] == [];
  }

  /** A notification for row `RowId` carrying data, between two streams on a
      live channel, is delivered between what the two streams deliver. */
  lemma NotificationBetween(pre: seq<Change>, c: Change, post: seq<Change>)
    requires c.rowId == RowId && c.newData.Some?
    ensures Notifications(Channel(true), pre + ([c] + post))
            == Notifications(Channel(true), pre) + ([c.newData.value] + Notifications(Channel(true), post))
  {
    NotificationsAppend(Channel(true), pre, [c] + post);
    NotificationsAppend(Channel(true), [c], post);
    NotificationSingle(c);
  }

  /** In any stream on a live channel, a notification for row `RowId`
      carrying data is delivered at its own place: after what the earlier
      notifications delivered and before what the later ones deliver. */
  lemma NotificationDelivered(cs: seq<Change>, i: int)
    requires 0 <= i < |cs| && cs[i].rowId == RowId && cs[i].newData.Some?
    ensures Notifications(Channel(true), cs)
            == Notifications(Channel(true), cs[..i]) + [cs[i].newData.value] + Notifications(Channel(true), cs[i + 1..])
  {
    SplitAround(cs, i);
    NotificationBetween(cs[..i], cs[i], cs[i + 1..]);
  }

  /** A sequence is what comes before position `i`, the element there, and
      what comes after. */
  lemma SplitAround<T>(s: seq<T>, i: int)
    requires 0 <= i < |s|
    ensures s == s[..i] + ([s[i]] + s[i + 1..])
  {
    assert s[..i] + ([s[i]] + s[i + 1..]) == s[..i] + s[i..];
  }

  /** After unsubscribing, no notification reaches the callback. */
  lemma {:induction false} NothingAfterUnsubscribe(sub: Subscription, cs: seq<Change>)
    ensures Notifications(Unsubscribe(sub), cs) == []
    decreases |cs|
  {
    if |cs| > 0 {
      NothingAfterUnsubscribe(sub, cs[1..]);
    }
  }
}
