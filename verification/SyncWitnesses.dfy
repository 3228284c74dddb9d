/** Two runs of the service in which clients are left with something that is not the case. */
module SyncWitnesses {
  import opened Wire
  import opened IssueStore
  import opened Replay
  import opened ReplayAgreement
  import opened DerivedFlags

  const ONE_TEAM := Store(
    map[], map[], map[], map[], map[], map["backlog" := Backlog, "done" := Completed], map["team" := "home"],
    map["home" := "backlog"], [], [], map[], 0)

  const COMPLETED := Updates(Some("done"), None, None, None)

  lemma RunOfFour(states: seq<Store>, steps: seq<Step>, times: seq<Time>)
    requires |states| == 5 && |steps| == |times| == 4 && Empty(states[0])
    requires forall k :: 0 <= k < 4 ==> Stepped(states[k], steps[k], times[k], states[k + 1]) && ReadBefore(states, k, steps[k])
    ensures IsRun(states, steps, times)
  {
    hide Stepped, Empty, ReadBefore;
  }

  /** A store in which nothing but issues in the default status were created. */
  predicate OnlyCreated(st: Store, ids: set<Id>) {
    && st.issues.Keys == st.born.Keys == ids && st.relations == map[] && st.clock == 0
    && st.statuses == ONE_TEAM.statuses && st.teams == ONE_TEAM.teams && st.defaults == ONE_TEAM.defaults
    && (forall i :: i in ids ==> st.issues[i].status == "backlog" && st.issues[i].workspace == "home")
    && (forall k :: 0 <= k < |st.log| ==> st.log[k].key.kind == IssueKind && st.log[k].key.id in ids)
  }

  lemma NothingCreated()
    ensures Empty(ONE_TEAM) && OnlyCreated(ONE_TEAM, {})
  {
  }

  lemma Created(st: Store, ids: set<Id>, i: Id) returns (st': Store)
    requires OnlyCreated(st, ids) && i !in ids
    ensures Stepped(st, CreateIssue(i, "home", "team", "", {}), 0, st') && OnlyCreated(st', ids + {i})
  {
    assert st.(clock := 0) == st;
    hide NextNumber, IsBlocked;
    st' := CreateIssueTx(st, i, "home", "team", "", {}).0;
  }

  // ---------------------------------------------------------------- a relabelled archived issue

  const RELABEL_ARCHIVED := [
    CreateIssue("i", "home", "team", "", {}),
    UpdateIssue("i", COMPLETED, []),
    Archive("i", 0),
    SetLabels("i", {"label"})]

  lemma CompletedIssue(s1: Store) returns (s2: Store)
    requires OnlyCreated(s1, {"i"})
    ensures Stepped(s1, RELABEL_ARCHIVED[1], 0, s2) && ReadAt(s1, RELABEL_ARCHIVED[1])
    ensures s2.clock == 0 && s2.statuses == ONE_TEAM.statuses && s2.issues.Keys == {"i"} && s2.issues["i"].workspace == "home"
    ensures s2.issues["i"].status == "done" && s2.issues["i"].archivedAt.None? && s2.issues["i"].updatedAt == 0
  {
    assert s1.(clock := 0) == s1;
    assert BlockedBy(s1, "i") == {};
    hide NextNumber, IsBlocked;
    s2 := Apply(s1, RELABEL_ARCHIVED[1]);
  }

  lemma ArchivedIssue(s2: Store) returns (s3: Store)
    requires s2.clock == 0 && s2.statuses == ONE_TEAM.statuses && s2.issues.Keys == {"i"} && s2.issues["i"].workspace == "home"
    requires s2.issues["i"].status == "done" && s2.issues["i"].archivedAt.None? && s2.issues["i"].updatedAt == 0
    ensures Stepped(s2, RELABEL_ARCHIVED[2], 1, s3)
    ensures s3.clock == 1 && s3.issues.Keys == {"i"} && s3.issues["i"].workspace == "home" && Archived(s3, "i")
  {
    assert Selected(s2.(clock := 1), "i", 0);
    s3 := Apply(s2.(clock := 1), RELABEL_ARCHIVED[2]);
  }

  lemma Relabelled(s3: Store) returns (s4: Store)
    requires s3.clock == 1 && s3.issues.Keys == {"i"} && s3.issues["i"].workspace == "home" && Archived(s3, "i")
    ensures Stepped(s3, RELABEL_ARCHIVED[3], 1, s4) && !Agrees(s4, "home", "anyone")
  {
    assert s3.(clock := 1) == s3;
    var w := ResendDisagrees(s3, SetLabels("i", {"label"}), "anyone");
    s4 := Apply(s3, RELABEL_ARCHIVED[3]);
  }

  /** An issue created, completed, archived and then relabelled: clients show it again, though it is archived. */
  lemma RelabelledArchiveReappears() returns (states: seq<Store>)
    ensures IsRun(states, RELABEL_ARCHIVED, [0, 0, 1, 1]) && !Agrees(states[4], "home", "anyone")
  {
    hide Agrees, IsRun, Stepped, ReadAt, Archived, OnlyCreated, Empty;
    NothingCreated();
    var none: set<Id> := {};
    assert none + {"i"} == {"i"};
    var s1 := Created(ONE_TEAM, none, "i");
    var s2 := CompletedIssue(s1);
    var s3 := ArchivedIssue(s2);
    var s4 := Relabelled(s3);
    states := [ONE_TEAM, s1, s2, s3, s4];
    assert ReadAt(states[1], RELABEL_ARCHIVED[1]);
    RunOfFour(states, RELABEL_ARCHIVED, [0, 0, 1, 1]);
  }

  // ---------------------------------------------------------------- a relation made in between

  const RELATE_LATE := [
    CreateIssue("a", "home", "team", "", {}),
    CreateIssue("b", "home", "team", "", {}),
    Relate("r", Relation("a", "b", Blocks)),
    UpdateIssue("a", COMPLETED, [])]

  lemma Related(s2: Store) returns (s3: Store)
    requires OnlyCreated(s2, {"a", "b"})
    ensures Stepped(s2, RELATE_LATE[2], 0, s3) && ReadAt(s2, RELATE_LATE[3])
    ensures s3.clock == 0 && s3.issues.Keys == {"a", "b"} && s3.statuses == ONE_TEAM.statuses && s3.issues["a"].status == "backlog"
    ensures s3.relations == map["r" := Relation("a", "b", Blocks)]
  {
    assert s2.(clock := 0) == s2 && BlockedBy(s2, "a") == {};
    s3 := Apply(s2, RELATE_LATE[2]);
  }

  lemma CompletedLate(s3: Store) returns (s4: Store)
    requires s3.clock == 0 && s3.issues.Keys == {"a", "b"} && s3.statuses == ONE_TEAM.statuses && s3.issues["a"].status == "backlog"
    requires s3.relations == map["r" := Relation("a", "b", Blocks)]
    ensures Stepped(s3, RELATE_LATE[3], 0, s4)
    ensures IsBlocked(s3, "b") && !IsBlocked(s4, "b") && forall k: nat :: !About(s3, s4, k, "b")
  {
    assert s3.(clock := 0) == s3;
    s4 := UpdateIssueTx(s3, "a", COMPLETED, []).0;
    AnnouncedExactly(s3, "a", COMPLETED, [], "b");
    assert OpenBlocker(s3, s3.relations["r"], "b");
    assert s4.issues["a"].status == "done";
  }

  /** Issue `a` comes to block `b` after the list was read and before `a` is completed: the flag of `b` moves, and no
      entry of the commit is about `b`. */
  lemma LateRelationUnannounced() returns (states: seq<Store>)
    ensures IsRun(states, RELATE_LATE, [0, 0, 0, 0])
    ensures IsBlocked(states[3], "b") && !IsBlocked(states[4], "b") && forall k: nat :: !About(states[3], states[4], k, "b")
  {
    hide IsBlocked, IsRun, Stepped, ReadAt, About, OnlyCreated, Empty;
    NothingCreated();
    var none: set<Id> := {};
    assert none + {"a"} == {"a"} && {"a"} + {"b"} == {"a", "b"};
    var s1 := Created(ONE_TEAM, none, "a");
    var s2 := Created(s1, {"a"}, "b");
    var s3 := Related(s2);
    var s4 := CompletedLate(s3);
    states := [ONE_TEAM, s1, s2, s3, s4];
    assert ReadAt(states[2], RELATE_LATE[3]);
    RunOfFour(states, RELATE_LATE, [0, 0, 0, 0]);
  }
}
