/** Clients rebuild state from the log: upsert what is inserted or updated, evict what is deleted. */
module Replay {
  import opened Listing
  import opened Wire
  import opened IssueStore

  /** What a user may read of a workspace's log. */
  predicate Visible(e: Entry, w: Id, u: Id) {
    e.workspace == w && (e.audience.Some? ==> e.audience.value == u)
  }

  /** Relations and activities are refetched, never kept. */
  predicate Cached(kind: Kind) {
    !kind.RelationKind? && !kind.ActivityKind?
  }

  type Client = map<Key, Payload>

  function Receive(client: Client, e: Entry): Client {
    if !Cached(e.key.kind) then client
    else if e.action.Delete? then client - {e.key}
    else if e.data.None? then client
    else client[e.key := e.data.value]
  }

  function Replayed(log: seq<Entry>, w: Id, u: Id): Client {
    if log == [] then map[]
    else
      var before := Replayed(log[..|log| - 1], w, u);
      if Visible(log[|log| - 1], w, u) then Receive(before, log[|log| - 1]) else before
  }

  /** A client that follows the log entry by entry. */
  method FollowLog(log: seq<Entry>, w: Id, u: Id) returns (client: Client)
    ensures client == Replayed(log, w, u)
  {
    client := map[];
    for k := 0 to |log|
      invariant client == Replayed(log[..k], w, u)
    {
      assert log[..k + 1][..k] == log[..k];
      if Visible(log[k], w, u) { client := Receive(client, log[k]); }
    }
    assert log[..|log|] == log;
  }

  // ---------------------------------------------------------------- rows, on both sides

  /** A row's own columns, without what is derived from other rows. */
  datatype Row = IssueRow(issue: Issue) | CommentRow(comment: Comment) | NotificationRow(notification: Notification)
               | FavoriteRow(favorite: Favorite) | NoRow

  function RowOf(p: Payload): Row {
    match p
    case IssueData(x, _) => IssueRow(x)
    case CommentData(c) => CommentRow(c)
    case NotificationData(n) => NotificationRow(n)
    case FavoriteData(f) => FavoriteRow(f)
    case _ => NoRow
  }

  function ClientRow(client: Client, key: Key): Option<Row> {
    if key in client then Some(RowOf(client[key])) else None
  }

  /** What user `u` of workspace `w` should hold: the workspace's unarchived issues and its comments, and the
      user's own notifications and favorites. */
  function ServerRow(st: Store, w: Id, u: Id, key: Key): Option<Row> {
    match key.kind
    case IssueKind =>
      if key.id in st.issues && st.issues[key.id].workspace == w && st.issues[key.id].archivedAt.None?
      then Some(IssueRow(st.issues[key.id])) else None
    case CommentKind =>
      if key.id in st.comments && st.comments[key.id].issue in st.issues
         && st.issues[st.comments[key.id].issue].workspace == w
      then Some(CommentRow(st.comments[key.id])) else None
    case NotificationKind =>
      if key.id in st.notifications && st.notifications[key.id].workspace == w && st.notifications[key.id].user == u
      then Some(NotificationRow(st.notifications[key.id])) else None
    case FavoriteKind =>
      if key.id in st.favorites && st.favorites[key.id].workspace == w && st.favorites[key.id].user == u
      then Some(FavoriteRow(st.favorites[key.id])) else None
    case _ => None
  }

  ghost predicate AgreesOn(st: Store, w: Id, u: Id, key: Key) {
    ClientRow(Replayed(st.log, w, u), key) == ServerRow(st, w, u, key)
  }

  ghost predicate Agrees(st: Store, w: Id, u: Id) {
    forall key :: AgreesOn(st, w, u, key)
  }

  // ---------------------------------------------------------------- a batch of entries

  function EffectRow(e: Entry): Option<Row> {
    if e.action.Delete? || e.data.None? then None else Some(RowOf(e.data.value))
  }

  /** Entries clients act on: everything but a delete carries the row. */
  predicate Effective(e: Entry) {
    e.action.Delete? || e.data.Some?
  }

  ghost predicate Touches(es: seq<Entry>, k: nat, w: Id, u: Id, key: Key) {
    k < |es| && es[k].key == key && Visible(es[k], w, u)
  }

  /** After a batch, a row is what some entry of the batch about it says, or what it was. */
  lemma {:induction false} ReplayBatch(log: seq<Entry>, es: seq<Entry>, w: Id, u: Id, key: Key)
    requires Cached(key.kind) && forall k {:trigger es[k]} :: 0 <= k < |es| ==> Effective(es[k])
    ensures (forall k: nat :: !Touches(es, k, w, u, key))
            ==> ClientRow(Replayed(log + es, w, u), key) == ClientRow(Replayed(log, w, u), key)
    ensures (exists k: nat :: Touches(es, k, w, u, key))
            ==> exists k: nat :: Touches(es, k, w, u, key) && ClientRow(Replayed(log + es, w, u), key) == EffectRow(es[k])
  {
    if es == [] {
      assert log + es == log;
    } else {
      var front, last := es[..|es| - 1], es[|es| - 1];
      ReplayBatch(log, front, w, u, key);
      assert (log + es)[..|log + es| - 1] == log + front;
      forall k: nat ensures Touches(front, k, w, u, key) ==> Touches(es, k, w, u, key) && es[k] == front[k] {}
      if last.key == key && Visible(last, w, u) {
        assert Touches(es, |es| - 1, w, u, key);
      } else {
        assert forall k: nat :: Touches(es, k, w, u, key) ==> Touches(front, k, w, u, key);
        assert ClientRow(Replayed(log + es, w, u), key) == ClientRow(Replayed(log + front, w, u), key);
      }
    }
  }

  /** Every entry a user sees, except those about rows in `but`, says what is now the case. */
  ghost predicate Truthful(st': Store, es: seq<Entry>, w: Id, u: Id, but: set<Key>) {
    forall k {:trigger es[k]} :: 0 <= k < |es| ==>
      Effective(es[k])
      && (Visible(es[k], w, u) && Cached(es[k].key.kind) && es[k].key !in but ==> EffectRow(es[k]) == ServerRow(st', w, u, es[k].key))
  }

  /** Every row that moved has an entry. */
  ghost predicate Complete(st: Store, st': Store, es: seq<Entry>, w: Id, u: Id) {
    forall key {:trigger ServerRow(st', w, u, key)} ::
      ServerRow(st', w, u, key) != ServerRow(st, w, u, key) ==> exists k: nat :: Touches(es, k, w, u, key)
  }

  /** `st'` follows `st` with entries that announce every change, truthfully except about rows in `but`. */
  ghost predicate Announced(st: Store, st': Store, es: seq<Entry>, w: Id, u: Id, but: set<Key>) {
    st'.log == st.log + es && Truthful(st', es, w, u, but) && Complete(st, st', es, w, u)
  }

  lemma {:induction false} OnlyCachedRows(log: seq<Entry>, w: Id, u: Id, key: Key)
    ensures key in Replayed(log, w, u) ==> Cached(key.kind)
  {
    if log != [] { OnlyCachedRows(log[..|log| - 1], w, u, key); }
  }

  /** A row with a truthful entry is right afterwards, whatever it was. */
  lemma RowTouched(st: Store, st': Store, es: seq<Entry>, w: Id, u: Id, but: set<Key>, key: Key)
    requires Announced(st, st', es, w, u, but) && key !in but && exists k: nat :: Touches(es, k, w, u, key)
    ensures AgreesOn(st', w, u, key)
  {
    OnlyCachedRows(st'.log, w, u, key);
    if Cached(key.kind) {
      ReplayBatch(st.log, es, w, u, key);
      var k: nat :| Touches(es, k, w, u, key) && ClientRow(Replayed(st.log + es, w, u), key) == EffectRow(es[k]);
      assert EffectRow(es[k]) == ServerRow(st', w, u, es[k].key);
    }
  }

  /** A row without any entry stays right or wrong. */
  lemma RowUntouched(st: Store, st': Store, es: seq<Entry>, w: Id, u: Id, but: set<Key>, key: Key)
    requires Announced(st, st', es, w, u, but) && forall k: nat :: !Touches(es, k, w, u, key)
    ensures AgreesOn(st', w, u, key) <==> AgreesOn(st, w, u, key)
  {
    OnlyCachedRows(st.log, w, u, key);
    OnlyCachedRows(st'.log, w, u, key);
    assert ServerRow(st', w, u, key) == ServerRow(st, w, u, key);
    if Cached(key.kind) {
      ReplayBatch(st.log, es, w, u, key);
      assert ClientRow(Replayed(st'.log, w, u), key) == ClientRow(Replayed(st.log, w, u), key);
    }
  }

  lemma BatchAgrees(st: Store, st': Store, es: seq<Entry>, w: Id, u: Id)
    requires Agrees(st, w, u) && Announced(st, st', es, w, u, {})
    ensures Agrees(st', w, u)
  {
    forall key ensures AgreesOn(st', w, u, key) {
      if exists k: nat :: Touches(es, k, w, u, key) {
        RowTouched(st, st', es, w, u, {}, key);
      } else {
        RowUntouched(st, st', es, w, u, {}, key);
      }
    }
  }

  /** A batch that sends a row as something it is not leaves the client wrong about it. */
  lemma BatchDisagrees(st: Store, st': Store, es: seq<Entry>, w: Id, u: Id, key: Key)
    requires st'.log == st.log + es && Cached(key.kind)
    requires forall k {:trigger es[k]} :: 0 <= k < |es| ==> Effective(es[k])
    requires exists k: nat :: Touches(es, k, w, u, key)
    requires forall k: nat :: Touches(es, k, w, u, key) ==> EffectRow(es[k]) != ServerRow(st', w, u, key)
    ensures !AgreesOn(st', w, u, key)
  {
    ReplayBatch(st.log, es, w, u, key);
  }
}
