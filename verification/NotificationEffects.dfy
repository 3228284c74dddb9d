/** What the changes of notifications do to the rows, and which of them undo each other. */
module NotificationEffects {
  import opened Listing
  import opened Wire
  import opened IssueStore

  function AsSet(ids: seq<Id>): set<Id> {
    set n <- ids
  }

  /** The row after a change, column by column. */
  predicate AsAsked(change: Change, was: Notification, now: Notification, clock: Time) {
    && now.workspace == was.workspace && now.user == was.user && now.issue == was.issue
    && match change
       case Read => now.read && now.deletedAt == was.deletedAt
       case Unread => !now.read && now.deletedAt == was.deletedAt
       case SoftDelete => now.read == was.read && now.deletedAt == Some(clock)
       case Restore => now.read == was.read && now.deletedAt.None?
  }

  /** In the inbox, and so can be read, unread or deleted. */
  predicate InInbox(n: Notification) {
    n.deletedAt.None?
  }

  /** Every selected row changes, and every row that would change is selected: rows in the inbox by all changes but
      restoring, which is for the others. */
  lemma SelectsExactly(change: Change, n: Notification, clock: Time)
    ensures Selects(change, n) <==> !AsAsked(change, n, n, clock) && InInbox(n) == (change != Restore)
  {
  }

  /** Exactly the given rows change, as asked. */
  ghost predicate Moved(before: map<Id, Notification>, after: map<Id, Notification>, change: Change, ids: set<Id>, clock: Time) {
    && after.Keys == before.Keys
    && forall n {:trigger after[n]} :: n in before ==>
         if n in ids then AsAsked(change, before[n], after[n], clock) else after[n] == before[n]
  }

  lemma ChangeMoves(st: Store, user: Id, change: Change, ids: seq<Id>)
    requires forall n :: n in ids ==> n in st.notifications
    ensures Moved(st.notifications, ChangeTx(st, user, change, ids).notifications, change, AsSet(ids), st.clock)
    ensures ChangeTx(st, user, change, ids).clock == st.clock
  {
  }

  /** A change leaves nothing behind that it would select. */
  lemma NothingLeft(st: Store, st': Store, user: Id, change: Change, only: Option<set<Id>>)
    requires Moved(st.notifications, st'.notifications, change, Affected(st, user, change, only), st.clock)
    ensures Affected(st', user, change, only) == {}
  {
    forall n | n in st'.notifications && st'.notifications[n].user == user && (only.Some? ==> n in only.value)
      ensures !Selects(change, st'.notifications[n])
    {
      if n in Affected(st, user, change, only) {
        SelectsExactly(change, st'.notifications[n], st.clock);
      } else {
        assert st'.notifications[n] == st.notifications[n];
      }
    }
  }

  lemma AffectedListed(st: Store, user: Id, change: Change, only: Option<set<Id>>, ids: seq<Id>)
    requires Lists(ids, Affected(st, user, change, only))
    ensures AsSet(ids) == Affected(st, user, change, only) && forall n :: n in ids ==> n in st.notifications
  {
    forall n | n in ids ensures n in st.notifications { Listed(ids, Affected(st, user, change, only), n); }
  }

  /** All of a change: the affected rows change as asked, the others stay, and none is left to change. */
  lemma ChangeEffect(st: Store, user: Id, change: Change, only: Option<set<Id>>, ids: seq<Id>)
    requires Lists(ids, Affected(st, user, change, only))
    ensures forall n :: n in ids ==> n in st.notifications
    ensures var st' := ChangeTx(st, user, change, ids);
            && Moved(st.notifications, st'.notifications, change, Affected(st, user, change, only), st.clock)
            && Affected(st', user, change, only) == {} && st'.clock == st.clock
  {
    AffectedListed(st, user, change, only, ids);
    ChangeMoves(st, user, change, ids);
    hide *;
    NothingLeft(st, ChangeTx(st, user, change, ids), user, change, only);
  }

  function Inverse(change: Change): Change
    requires !change.Restore?
  {
    match change
    case Read => Unread
    case Unread => Read
    case SoftDelete => Restore
  }

  lemma FoundAgain(st: Store, st': Store, user: Id, change: Change, only: Option<set<Id>>)
    requires !change.Restore? && Moved(st.notifications, st'.notifications, change, Affected(st, user, change, only), st.clock)
    ensures Affected(st', user, Inverse(change), Some(Affected(st, user, change, only))) == Affected(st, user, change, only)
  {
  }

  lemma MovedBack(before: map<Id, Notification>, between: map<Id, Notification>, after: map<Id, Notification>, change: Change,
                  ids: set<Id>, clock: Time, later: Time)
    requires !change.Restore? && forall n :: n in ids ==> n in before && Selects(change, before[n])
    requires Moved(before, between, change, ids, clock) && Moved(between, after, Inverse(change), ids, later)
    ensures after == before
  {
    forall n | n in before ensures after[n] == before[n] {
      if n in ids { assert AsAsked(change, before[n], between[n], clock) && AsAsked(Inverse(change), between[n], after[n], later); }
    }
  }

  /** Unread undoes read, read undoes unread and restoring undoes deleting: asked for the same rows, each finds exactly
      those and gives them back as they were. */
  lemma UndoneByInverse(st: Store, user: Id, change: Change, only: Option<set<Id>>, ids: seq<Id>, again: seq<Id>, now: Time)
    requires !change.Restore? && Allowed(st, ChangeNotifications(user, change, only, ids))
    requires var st1 := Apply(st, ChangeNotifications(user, change, only, ids)).(clock := now);
             Allowed(st1, ChangeNotifications(user, Inverse(change), Some(AsSet(ids)), again))
    ensures var st1 := Apply(st, ChangeNotifications(user, change, only, ids)).(clock := now);
            && AsSet(again) == AsSet(ids)
            && Apply(st1, ChangeNotifications(user, Inverse(change), Some(AsSet(ids)), again)).notifications == st.notifications
  {
    var asked := AsSet(ids);
    var st1 := Apply(st, ChangeNotifications(user, change, only, ids)).(clock := now);
    ListedRows(st, ChangeNotifications(user, change, only, ids));
    ListedRows(st1, ChangeNotifications(user, Inverse(change), Some(asked), again));
    assert asked == Affected(st, user, change, only) && AsSet(again) == Affected(st1, user, Inverse(change), Some(asked));
    ChangeMoves(st, user, change, ids);
    ChangeMoves(st1, user, Inverse(change), again);
    assert forall n :: n in asked ==> n in st.notifications && Selects(change, st.notifications[n]);
    hide Affected, Moved, ChangeTx, Allowed, Selects;
    FoundAgain(st, st1, user, change, only);
    MovedBack(st.notifications, st1.notifications,
              Apply(st1, ChangeNotifications(user, Inverse(change), Some(asked), again)).notifications, change, asked, st.clock, now);
  }
}
