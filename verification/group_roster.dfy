/** The member grid of a group call (`GroupCallMemberDataSource`).

    The roster is an ordered list of members plus two id sets: the ids of
    everyone listed, and the ids of members that were invited but have not
    connected yet. Four events change it: start inviting, member connected,
    member disconnected, and a polled authoritative id list. Grid item 0 is
    the "add member" button, so member k sits at grid item k + 1. */
module GroupRoster {
  import opened Common

  type UserId = string

  /** A participant (`UserItem`); only the id matters to the roster. */
  datatype Member = Member(userId: UserId, fullName: string)

  datatype Roster = Roster(
    conversationId: string,
    members: seq<Member>,
    memberUserIds: set<UserId>,
    invitingMemberUserIds: set<UserId>,
    audioLevels: map<UserId, real>)

  /** What the collection view is told; items are grid indices. */
  datatype GridChange =
    | Unchanged
    | Inserted(items: seq<int>)
    | Reloaded(items: seq<int>)
    | Deleted(items: seq<int>)

  /** The roster after an event, the grid update it issued, and whether the
      visible-members-did-change notification was posted. */
  datatype Step = Step(roster: Roster, change: GridChange, posted: bool)

  /** The poll broadcast's payload; an entry is absent when the user info
      lacks it or holds a value of the wrong type. */
  datatype PollNotice = PollNotice(conversationId: Option<string>, userIds: Option<seq<UserId>>)

  /** Level above which a member is highlighted as speaking. */
  const SpeakingThreshold: real := 0.01

  function Ids(ms: seq<Member>): set<UserId> {
    set m | m in ms :: m.userId
  }

  predicate DistinctIds(ms: seq<Member>) {
    forall i, j :: 0 <= i < j < |ms| ==> ms[i].userId != ms[j].userId
  }

  /** The roster invariant: the id set mirrors the list, inviting members are
      tracked members, and nobody is listed twice. */
  predicate Valid(r: Roster) {
    && r.memberUserIds == Ids(r.members)
    && r.invitingMemberUserIds <= r.memberUserIds
    && DistinctIds(r.members)
  }

  /** `indexPath(forMemberAt:)`: the grid item showing member `k`. */
  function GridItem(k: int): int {
    k + 1
  }

  function ItemCount(r: Roster): int {
    |r.members| + 1
  }

  function Init(conversationId: string, members: seq<Member>, inviting: set<UserId>): (r: Roster)
    ensures r.members == members && r.invitingMemberUserIds == inviting
    ensures forall id :: id in r.memberUserIds <==> exists i :: 0 <= i < |members| && members[i].userId == id
    ensures r.audioLevels == map[]
    ensures DistinctIds(members) && inviting <= Ids(members) ==> Valid(r)
  {
    var r := Roster(conversationId, members, Ids(members), inviting, map[]);
    assert forall id :: id in r.memberUserIds ==> exists i :: 0 <= i < |members| && members[i].userId == id by {
      forall id | id in r.memberUserIds
        ensures exists i :: 0 <= i < |members| && members[i].userId == id
      {
        var m :| m in members && m.userId == id;
        var i :| 0 <= i < |members| && members[i] == m;
      }
    }
    r
  }

  // ---------------------------------------------------------------------
  // Lookup helpers

  /** The position of the first member with the given id (`firstIndex(where:)`). */
  function FirstIndex(ms: seq<Member>, id: UserId): (r: Option<nat>)
    ensures r.Some? ==> r.value < |ms| && ms[r.value].userId == id
    ensures r.Some? ==> forall j :: 0 <= j < r.value ==> ms[j].userId != id
    ensures r.None? <==> id !in Ids(ms)
  {
    if ms == [] then None
    else if ms[0].userId == id then Some(0)
    else
      var rest := FirstIndex(ms[1..], id);
      assert Ids(ms) == {ms[0].userId} + Ids(ms[1..]) by {
        assert ms == [ms[0]] + ms[1..];
      }
      match rest
      case None => None
      case Some(k) => Some(k + 1)
  }

  lemma IdsAppend(a: seq<Member>, b: seq<Member>)
    ensures Ids(a + b) == Ids(a) + Ids(b)
  {
    assert forall m :: m in a + b <==> m in a || m in b;
  }

  lemma IdsRemoveAt(ms: seq<Member>, i: nat)
    requires i < |ms| && DistinctIds(ms)
    ensures Ids(ms[..i] + ms[i + 1..]) == Ids(ms) - {ms[i].userId}
    ensures DistinctIds(ms[..i] + ms[i + 1..])
  {
    IdsWithout(ms, i);
    DistinctWithout(ms, i);
  }

  lemma IdsWithout(ms: seq<Member>, i: nat)
    requires i < |ms| && DistinctIds(ms)
    ensures Ids(ms[..i] + ms[i + 1..]) == Ids(ms) - {ms[i].userId}
  {
    assert ms == ms[..i] + [ms[i]] + ms[i + 1..];
    IdsAppend(ms[..i], ms[i + 1..]);
    IdsAppend(ms[..i] + [ms[i]], ms[i + 1..]);
    IdsAppend(ms[..i], [ms[i]]);
    forall m | m in ms[..i] ensures m.userId != ms[i].userId {
      var j :| 0 <= j < i && ms[..i][j] == m;
      assert ms[j] == m;
    }
    forall m | m in ms[i + 1..] ensures m.userId != ms[i].userId {
      var j :| 0 <= j < |ms| - i - 1 && ms[i + 1..][j] == m;
      assert ms[i + 1 + j] == m;
    }
  }

  lemma DistinctWithout(ms: seq<Member>, i: nat)
    requires i < |ms| && DistinctIds(ms)
    ensures DistinctIds(ms[..i] + ms[i + 1..])
  {
    var rest := ms[..i] + ms[i + 1..];
    forall p, q | 0 <= p < q < |rest|
      ensures rest[p].userId != rest[q].userId
    {
      var p' := if p < i then p else p + 1;
      var q' := if q < i then q else q + 1;
      assert rest[p] == ms[p'] && rest[q] == ms[q'];
    }
  }

  // ---------------------------------------------------------------------
  // Events

  /** Users not yet tracked, in input order: those `reportStartInviting` adds. */
  function Untracked(r: Roster, users: seq<Member>): seq<Member> {
    Filter(users, (u: Member) => u.userId !in r.memberUserIds)
  }

  lemma UntrackedFacts(r: Roster, users: seq<Member>)
    ensures forall m :: m in Untracked(r, users) <==> m in users && m.userId !in r.memberUserIds
    ensures IsSubsequence(Untracked(r, users), users)
    ensures Untracked(r, users) == [] ==> forall u :: u in users ==> u.userId in r.memberUserIds
  {
    var keep := (u: Member) => u.userId !in r.memberUserIds;
    FilterIsSubsequence(users, keep);
    forall m {
      FilterMembership(users, keep, m);
    }
  }

  /** `reportStartInviting`: appends the untracked users at the end and
      posts only when at least one user was added; the grid inserts one item
      per added member, right after the existing ones. */
  function StartInviting(r: Roster, users: seq<Member>): (s: Step)
    ensures s.roster.conversationId == r.conversationId && s.roster.audioLevels == r.audioLevels
    ensures |s.roster.members| >= |r.members| && s.roster.members[..|r.members|] == r.members
    ensures s.posted <==> |s.roster.members| > |r.members|
    ensures s.posted ==> s.change.Inserted? && |s.change.items| == |s.roster.members| - |r.members|
    ensures s.posted ==> forall k :: 0 <= k < |s.change.items| ==> s.change.items[k] == GridItem(|r.members| + k)
    ensures !s.posted ==> s.change == Unchanged && s.roster == r
  {
    var added := Untracked(r, users);
    if |added| == 0 then
      Step(r, Unchanged, false)
    else
      var members := r.members + added;
      assert members[..|r.members|] == r.members;
      var items := seq(|added|, k => GridItem(|r.members| + k));
      Step(r.(members := members,
              memberUserIds := r.memberUserIds + Ids(added),
              invitingMemberUserIds := r.invitingMemberUserIds + Ids(added)),
           Inserted(items), true)
  }

  /** What `reportStartInviting` adds: exactly the input users not already
      tracked, in input order, each tracked as both listed and inviting;
      every input user is tracked afterwards. */
  lemma StartInvitingAddsUntracked(r: Roster, users: seq<Member>)
    ensures var s := StartInviting(r, users); var added := s.roster.members[|r.members|..];
      && (forall m :: m in added <==> m in users && m.userId !in r.memberUserIds)
      && IsSubsequence(added, users)
      && (forall u :: u in users ==> u.userId in s.roster.memberUserIds)
      && s.roster.memberUserIds == r.memberUserIds + Ids(added)
      && s.roster.invitingMemberUserIds == r.invitingMemberUserIds + Ids(added)
  {
    var s := StartInviting(r, users);
    var added := Untracked(r, users);
    UntrackedFacts(r, users);
    if |added| == 0 {
      assert r.members[|r.members|..] == [];
      assert Ids([]) == {};
    } else {
      assert s.roster.members[|r.members|..] == added;
      assert forall u :: u in users && u.userId !in r.memberUserIds ==> u.userId in Ids(added);
    }
  }

  /** `reportMemberDidConnected`: the user stops being "inviting"; a listed
      member keeps its position and its grid cell is reloaded, an unknown one
      is appended and tracked. The notification is always posted. */
  function MemberConnected(r: Roster, member: Member): (s: Step)
    ensures s.posted
    ensures s.roster.invitingMemberUserIds == r.invitingMemberUserIds - {member.userId}
    ensures s.roster.conversationId == r.conversationId && s.roster.audioLevels == r.audioLevels
    ensures member.userId in Ids(r.members) ==>
      && s.roster.members == r.members
      && s.roster.memberUserIds == r.memberUserIds
      && s.change == Reloaded([GridItem(FirstIndex(r.members, member.userId).value)])
    ensures member.userId !in Ids(r.members) ==>
      && s.roster.members == r.members + [member]
      && s.roster.memberUserIds == r.memberUserIds + {member.userId}
      && s.change == Inserted([GridItem(|r.members|)])
  {
    var inviting := r.invitingMemberUserIds - {member.userId};
    match FirstIndex(r.members, member.userId)
    case Some(k) =>
      Step(r.(invitingMemberUserIds := inviting), Reloaded([GridItem(k)]), true)
    case None =>
      Step(r.(members := r.members + [member],
              memberUserIds := r.memberUserIds + {member.userId},
              invitingMemberUserIds := inviting),
           Inserted([GridItem(|r.members|)]), true)
  }

  /** `reportMemberWithIdDidDisconnected`: the id leaves both sets; the first
      listed member with that id leaves the list, and only then is the grid
      updated and the notification posted. */
  function MemberDisconnected(r: Roster, id: UserId): (s: Step)
    ensures s.roster.memberUserIds == r.memberUserIds - {id}
    ensures s.roster.invitingMemberUserIds == r.invitingMemberUserIds - {id}
    ensures s.roster.conversationId == r.conversationId && s.roster.audioLevels == r.audioLevels
    ensures s.posted <==> id in Ids(r.members)
    ensures !s.posted ==> s.roster.members == r.members && s.change == Unchanged
    ensures s.posted ==>
      var k := FirstIndex(r.members, id).value;
      && s.roster.members == r.members[..k] + r.members[k + 1..]
      && s.change == Deleted([GridItem(k)])
  {
    var r' := r.(memberUserIds := r.memberUserIds - {id},
                 invitingMemberUserIds := r.invitingMemberUserIds - {id});
    match FirstIndex(r.members, id)
    case Some(k) =>
      Step(r'.(members := r.members[..k] + r.members[k + 1..]), Deleted([GridItem(k)]), true)
    case None =>
      Step(r', Unchanged, false)
  }

  // ---------------------------------------------------------------------
  // Poll reconciliation

  /** A member survives a poll when the poll lists it or it is the local user. */
  predicate Keeps(id: UserId, remote: set<UserId>, me: UserId) {
    id in remote || id == me
  }

  function Survivors(ms: seq<Member>, remote: set<UserId>, me: UserId): seq<Member> {
    Filter(ms, (m: Member) => Keeps(m.userId, remote, me))
  }

  /** Ids of the listed members a poll evicts ("zombies"). */
  function Zombies(ms: seq<Member>, remote: set<UserId>, me: UserId): set<UserId> {
    set m | m in ms && !Keeps(m.userId, remote, me) :: m.userId
  }

  /** Grid items of the zombies at positions `lo..` in descending order: the
      order in which the source visits (and deletes) them. */
  function ZombieItemsFrom(ms: seq<Member>, remote: set<UserId>, me: UserId, lo: nat): (items: seq<int>)
    requires lo <= |ms|
    ensures forall k :: 0 <= k < |items| ==> lo < items[k] <= |ms|
    ensures forall k :: 0 <= k < |items| ==> !Keeps(ms[items[k] - 1].userId, remote, me)
    ensures forall k, l :: 0 <= k < l < |items| ==> items[k] > items[l]
    decreases |ms| - lo
  {
    if lo == |ms| then []
    else ZombieItemsFrom(ms, remote, me, lo + 1)
         + (if Keeps(ms[lo].userId, remote, me) then [] else [GridItem(lo)])
  }

  function ZombieItems(ms: seq<Member>, remote: set<UserId>, me: UserId): seq<int> {
    ZombieItemsFrom(ms, remote, me, 0)
  }

  /** `updateWithPolledPeers`: ignored (nothing posted) unless the notice is for
      this conversation and carries an id list; otherwise every member absent
      from the list, except the local user, is dropped from the list and from
      both sets, the grid deletes their items, and the notification is posted. */
  function Poll(r: Roster, notice: PollNotice, me: UserId): (s: Step)
    ensures notice.conversationId != Some(r.conversationId) || notice.userIds.None? ==>
      s == Step(r, Unchanged, false)
    ensures notice.conversationId == Some(r.conversationId) && notice.userIds.Some? ==>
      var remote := set id | id in notice.userIds.value;
      && s.posted
      && s.roster.members == Survivors(r.members, remote, me)
      && s.roster.memberUserIds == r.memberUserIds - Zombies(r.members, remote, me)
      && s.roster.invitingMemberUserIds == r.invitingMemberUserIds - Zombies(r.members, remote, me)
      && s.change == Deleted(ZombieItems(r.members, remote, me))
  {
    if notice.conversationId != Some(r.conversationId) || notice.userIds.None? then
      Step(r, Unchanged, false)
    else
      var remote := set id | id in notice.userIds.value;
      var zombies := Zombies(r.members, remote, me);
      Step(r.(members := Survivors(r.members, remote, me),
              memberUserIds := r.memberUserIds - zombies,
              invitingMemberUserIds := r.invitingMemberUserIds - zombies),
           Deleted(ZombieItems(r.members, remote, me)), true)
  }

  lemma SurvivorsCons(m: Member, rest: seq<Member>, remote: set<UserId>, me: UserId)
    ensures Survivors([m] + rest, remote, me)
         == (if Keeps(m.userId, remote, me) then [m] else []) + Survivors(rest, remote, me)
  {
    assert ([m] + rest)[0] == m;
    assert ([m] + rest)[1..] == rest;
  }

  lemma ZombiesCons(m: Member, rest: seq<Member>, remote: set<UserId>, me: UserId)
    ensures Zombies([m] + rest, remote, me)
         == (if Keeps(m.userId, remote, me) then {} else {m.userId}) + Zombies(rest, remote, me)
  {
    assert forall x :: x in [m] + rest <==> x == m || x in rest;
  }

  /** One step of the reconciliation loop on the list. */
  lemma PollMembersStep(ms: seq<Member>, i: nat, remote: set<UserId>, me: UserId)
    requires 0 < i <= |ms|
    ensures var before := ms[..i] + Survivors(ms[i..], remote, me);
      var after := ms[..i - 1] + Survivors(ms[i - 1..], remote, me);
      (Keeps(ms[i - 1].userId, remote, me) ==> before == after)
      && (!Keeps(ms[i - 1].userId, remote, me) ==> before[..i - 1] + before[i..] == after)
  {
    var m := ms[i - 1];
    assert ms[i - 1..] == [m] + ms[i..];
    SurvivorsCons(m, ms[i..], remote, me);
    assert ms[..i] == ms[..i - 1] + [m];
  }

  /** One step of the reconciliation loop on the id sets. */
  lemma PollZombiesStep(ms: seq<Member>, i: nat, remote: set<UserId>, me: UserId)
    requires 0 < i <= |ms|
    ensures Zombies(ms[i - 1..], remote, me)
         == (if Keeps(ms[i - 1].userId, remote, me) then {} else {ms[i - 1].userId}) + Zombies(ms[i..], remote, me)
  {
    assert ms[i - 1..] == [ms[i - 1]] + ms[i..];
    ZombiesCons(ms[i - 1], ms[i..], remote, me);
  }

  /** The source's reconciliation loop: walk the members from the last index
      down to the first, removing each zombie in place and recording its grid
      item. It computes exactly what `Poll` specifies. */
  method ApplyPollInPlace(r: Roster, remote: set<UserId>, me: UserId)
    returns (members: seq<Member>, memberUserIds: set<UserId>, inviting: set<UserId>, deleted: seq<int>)
    ensures members == Survivors(r.members, remote, me)
    ensures memberUserIds == r.memberUserIds - Zombies(r.members, remote, me)
    ensures inviting == r.invitingMemberUserIds - Zombies(r.members, remote, me)
    ensures deleted == ZombieItems(r.members, remote, me)
  {
    var ms := r.members;
    members := ms;
    memberUserIds := r.memberUserIds;
    inviting := r.invitingMemberUserIds;
    deleted := [];
    var i := |ms|;
    assert ms[i..] == [];
    while i > 0
      invariant 0 <= i <= |ms|
      invariant members == ms[..i] + Survivors(ms[i..], remote, me)
      invariant memberUserIds == r.memberUserIds - Zombies(ms[i..], remote, me)
      invariant inviting == r.invitingMemberUserIds - Zombies(ms[i..], remote, me)
      invariant deleted == ZombieItemsFrom(ms, remote, me, i)
    {
      var m := ms[i - 1];
      PollMembersStep(ms, i, remote, me);
      PollZombiesStep(ms, i, remote, me);
      if !Keeps(m.userId, remote, me) {
        inviting := inviting - {m.userId};
        memberUserIds := memberUserIds - {m.userId};
        members := members[..i - 1] + members[i..];
        deleted := deleted + [GridItem(i - 1)];
      }
      i := i - 1;
    }
    assert ms[..0] + Survivors(ms[0..], remote, me) == Survivors(ms, remote, me) by {
      assert ms[0..] == ms;
    }
    assert ms[0..] == ms;
  }

  /** `report(audioLevels:)`: replaces the cached levels; the list is untouched. */
  function ReportAudioLevels(r: Roster, levels: map<UserId, real>): (s: Roster)
    ensures s.members == r.members && s.memberUserIds == r.memberUserIds
    ensures s.invitingMemberUserIds == r.invitingMemberUserIds
    ensures forall id :: IsSpeaking(s, id) <==> id in levels && levels[id] > SpeakingThreshold
  {
    r.(audioLevels := levels)
  }

  // ---------------------------------------------------------------------
  // Grid data source

  /** `member(at:)`: item 0 is the add button; item i shows member i - 1 while
      that exists. */
  function MemberAt(r: Roster, item: int): (m: Option<Member>)
    ensures m.Some? <==> 0 < item < ItemCount(r)
    ensures m.Some? ==> m.value == r.members[item - 1]
  {
    if item <= 0 then None
    else if item - 1 < |r.members| then Some(r.members[item - 1])
    else None
  }

  /** `isMemberSpeaking`: a cached level above the threshold; a user without a
      cached level counts as level 0, so is silent. */
  predicate IsSpeaking(r: Roster, id: UserId) {
    (if id in r.audioLevels then r.audioLevels[id] else 0.0) > SpeakingThreshold
  }
  // ---------------------------------------------------------------------
  // Invariant preservation

  lemma DistinctAppend(a: seq<Member>, b: seq<Member>)
    requires DistinctIds(a) && DistinctIds(b) && Ids(a) !! Ids(b)
    ensures DistinctIds(a + b)
  {
    forall p, q | 0 <= p < q < |a + b|
      ensures (a + b)[p].userId != (a + b)[q].userId
    {
      if q >= |a| && p < |a| {
        assert (a + b)[p] == a[p] && a[p] in a && a[p].userId in Ids(a);
        assert (a + b)[q] == b[q - |a|] && b[q - |a|] in b && b[q - |a|].userId in Ids(b);
      }
    }
  }

  lemma {:induction false} FilterKeepsDistinct(ms: seq<Member>, keep: Member -> bool)
    requires DistinctIds(ms)
    ensures DistinctIds(Filter(ms, keep))
  {
    if ms != [] {
      FilterKeepsDistinct(ms[1..], keep);
      var rest := Filter(ms[1..], keep);
      if keep(ms[0]) {
        forall m | m in rest
          ensures m.userId != ms[0].userId
        {
          FilterMembership(ms[1..], keep, m);
          var j :| 0 <= j < |ms| - 1 && ms[1..][j] == m;
          assert ms[j + 1] == m;
        }
        DistinctAppend([ms[0]], rest);
      }
    }
  }

  /** Zombie-ness depends on the id alone, so the survivors' ids are exactly
      the listed ids minus the zombies. */
  lemma IdsOfSurvivors(ms: seq<Member>, remote: set<UserId>, me: UserId)
    ensures Ids(Survivors(ms, remote, me)) == Ids(ms) - Zombies(ms, remote, me)
  {
    var keep := (m: Member) => Keeps(m.userId, remote, me);
    forall m {
      FilterMembership(ms, keep, m);
    }
  }

  lemma StartInvitingPreservesValid(r: Roster, users: seq<Member>)
    requires Valid(r) && DistinctIds(users)
    ensures Valid(StartInviting(r, users).roster)
  {
    var added := Untracked(r, users);
    StartInvitingAddsUntracked(r, users);
    if |added| > 0 {
      FilterKeepsDistinct(users, (u: Member) => u.userId !in r.memberUserIds);
      UntrackedFacts(r, users);
      DistinctAppend(r.members, added);
      IdsAppend(r.members, added);
    }
  }

  lemma MemberConnectedPreservesValid(r: Roster, member: Member)
    requires Valid(r)
    ensures Valid(MemberConnected(r, member).roster)
  {
    if member.userId !in Ids(r.members) {
      DistinctAppend(r.members, [member]);
      IdsAppend(r.members, [member]);
    }
  }

  lemma MemberDisconnectedPreservesValid(r: Roster, id: UserId)
    requires Valid(r)
    ensures Valid(MemberDisconnected(r, id).roster)
  {
    match FirstIndex(r.members, id)
    case Some(k) => IdsRemoveAt(r.members, k);
    case None =>
  }

  lemma PollPreservesValid(r: Roster, notice: PollNotice, me: UserId)
    requires Valid(r)
    ensures Valid(Poll(r, notice, me).roster)
  {
    if notice.conversationId == Some(r.conversationId) && notice.userIds.Some? {
      var remote := set id | id in notice.userIds.value;
      IdsOfSurvivors(r.members, remote, me);
      FilterKeepsDistinct(r.members, (m: Member) => Keeps(m.userId, remote, me));
    }
  }

  /** A poll for this conversation removes exactly the members it does not
      list, except the local user; survivors keep their relative order, and
      a removed member leaves both id sets. */
  lemma PollEvictsExactlyZombies(r: Roster, userIds: seq<UserId>, me: UserId)
    ensures var s := Poll(r, PollNotice(Some(r.conversationId), Some(userIds)), me).roster;
      && IsSubsequence(s.members, r.members)
      && (forall m :: m in s.members <==> m in r.members && (m.userId in userIds || m.userId == me))
      && (forall m :: m in r.members && m.userId !in userIds && m.userId != me ==>
            m.userId !in s.memberUserIds && m.userId !in s.invitingMemberUserIds)
  {
    var remote := set id | id in userIds;
    var keep := (m: Member) => Keeps(m.userId, remote, me);
    FilterIsSubsequence(r.members, keep);
    forall m {
      FilterMembership(r.members, keep, m);
    }
  }

  /** A poll never evicts the local user, even when the poll omits it. */
  lemma PollNeverEvictsLocalUser(r: Roster, notice: PollNotice, me: UserId)
    ensures var s := Poll(r, notice, me).roster;
      && (forall m :: m in r.members && m.userId == me ==> m in s.members)
      && (me in r.memberUserIds ==> me in s.memberUserIds)
  {
    if notice.conversationId == Some(r.conversationId) && notice.userIds.Some? {
      var remote := set id | id in notice.userIds.value;
      forall m | m in r.members && m.userId == me
        ensures m in Survivors(r.members, remote, me)
      {
        FilterMembership(r.members, (x: Member) => Keeps(x.userId, remote, me), m);
      }
    }
  }

  // ---------------------------------------------------------------------
  // Event traces

  datatype Event =
    | StartInvitingEvent(users: seq<Member>)
    | ConnectedEvent(member: Member)
    | DisconnectedEvent(id: UserId)
    | PolledEvent(notice: PollNotice)

  function Apply(r: Roster, e: Event, me: UserId): Step {
    match e
    case StartInvitingEvent(users) => StartInviting(r, users)
    case ConnectedEvent(m) => MemberConnected(r, m)
    case DisconnectedEvent(id) => MemberDisconnected(r, id)
    case PolledEvent(notice) => Poll(r, notice, me)
  }

  function Run(r: Roster, es: seq<Event>, me: UserId): Roster
    decreases |es|
  {
    if es == [] then r else Run(Apply(r, es[0], me).roster, es[1..], me)
  }

  predicate DistinctInvitations(es: seq<Event>) {
    forall i :: 0 <= i < |es| && es[i].StartInvitingEvent? ==> DistinctIds(es[i].users)
  }

  /** Any sequence of the four events keeps the roster invariant, provided
      each invitation batch names every user once. */
  lemma {:induction false} RunPreservesValid(r: Roster, es: seq<Event>, me: UserId)
    requires Valid(r) && DistinctInvitations(es)
    ensures Valid(Run(r, es, me))
    decreases |es|
  {
    if es != [] {
      var r' := Apply(r, es[0], me).roster;
      match es[0] {
        case StartInvitingEvent(users) => StartInvitingPreservesValid(r, users);
        case ConnectedEvent(m) => MemberConnectedPreservesValid(r, m);
        case DisconnectedEvent(id) => MemberDisconnectedPreservesValid(r, id);
        case PolledEvent(notice) => PollPreservesValid(r, notice, me);
      }
      assert DistinctInvitations(es[1..]) by {
        forall i | 0 <= i < |es[1..]| && es[1..][i].StartInvitingEvent?
          ensures DistinctIds(es[1..][i].users)
        {
          assert es[1..][i] == es[i + 1];
        }
      }
      RunPreservesValid(r', es[1..], me);
    }
  }

  /** Without distinct invitees the list can hold a user twice, and a later
      disconnect then leaves a listed user outside the id set. */
  lemma RepeatedInviteeBreaksMirror()
    ensures var u := Member("u", "U");
      var s := StartInviting(Init("c", [], {}), [u, u]).roster;
      var t := MemberDisconnected(s, "u").roster;
      && s.members == [u, u]
      && !DistinctIds(s.members)
      && t.members == [u]
      && "u" !in t.memberUserIds
  {
    var u := Member("u", "U");
    var r := Init("c", [], {});
    var keep := (x: Member) => x.userId !in r.memberUserIds;
    assert Filter([u], keep) == [u];
    assert Filter([u, u], keep) == [u] + Filter([u, u][1..], keep);
    assert [u, u][1..] == [u];
    var s := StartInviting(r, [u, u]).roster;
    assert s.members == [u, u];
    assert FirstIndex(s.members, "u") == Some(0);
    assert s.members[..0] + s.members[1..] == [u];
  }

  // The walkthrough of a group call: the local user invites U1 and U2, U1
  // connects, then a poll lists only the local user and U1, evicting U2.

  const ScenarioMe := Member("me", "Me")
  const ScenarioU1 := Member("u1", "U1")
  const ScenarioU2 := Member("u2", "U2")

  lemma ScenarioInvite()
    ensures StartInviting(Init("c", [ScenarioMe], {}), [ScenarioU1, ScenarioU2]).roster
         == Roster("c", [ScenarioMe, ScenarioU1, ScenarioU2], {"me", "u1", "u2"}, {"u1", "u2"}, map[])
  {
    var r0 := Init("c", [ScenarioMe], {});
    assert Ids([ScenarioMe]) == {"me"};
    var keep := (x: Member) => x.userId !in r0.memberUserIds;
    assert Filter([ScenarioU2], keep) == [ScenarioU2];
    assert [ScenarioU1, ScenarioU2][1..] == [ScenarioU2];
    assert Filter([ScenarioU1, ScenarioU2], keep) == [ScenarioU1] + Filter([ScenarioU2], keep);
    assert Ids([ScenarioU1, ScenarioU2]) == {"u1", "u2"};
  }

  lemma ScenarioConnect()
    ensures MemberConnected(Roster("c", [ScenarioMe, ScenarioU1, ScenarioU2], {"me", "u1", "u2"}, {"u1", "u2"}, map[]), ScenarioU1).roster
         == Roster("c", [ScenarioMe, ScenarioU1, ScenarioU2], {"me", "u1", "u2"}, {"u2"}, map[])
  {
    assert FirstIndex([ScenarioU1, ScenarioU2], "u1") == Some(0);
    assert [ScenarioMe, ScenarioU1, ScenarioU2][1..] == [ScenarioU1, ScenarioU2];
    assert FirstIndex([ScenarioMe, ScenarioU1, ScenarioU2], "u1") == Some(1);
  }

  lemma ScenarioPoll()
    ensures Poll(Roster("c", [ScenarioMe, ScenarioU1, ScenarioU2], {"me", "u1", "u2"}, {"u2"}, map[]),
                 PollNotice(Some("c"), Some(["me", "u1"])), "me").roster
         == Roster("c", [ScenarioMe, ScenarioU1], {"me", "u1"}, {}, map[])
  {
    var ms := [ScenarioMe, ScenarioU1, ScenarioU2];
    var remote := set id | id in ["me", "u1"];
    assert remote == {"me", "u1"};
    var survive := (x: Member) => Keeps(x.userId, remote, "me");
    assert Filter([ScenarioU2], survive) == [];
    assert [ScenarioU1, ScenarioU2][1..] == [ScenarioU2];
    assert Filter([ScenarioU1, ScenarioU2], survive) == [ScenarioU1] + Filter([ScenarioU2], survive);
    assert ms[1..] == [ScenarioU1, ScenarioU2];
    assert Filter(ms, survive) == [ScenarioMe] + Filter([ScenarioU1, ScenarioU2], survive);
    assert Zombies(ms, remote, "me") == {"u2"};
  }

  /** Grid layout: item 0 is the add button, member k is at item k + 1, and
      the grid has one item more than there are members. */
  lemma GridLayout(r: Roster)
    ensures MemberAt(r, 0).None?
    ensures ItemCount(r) == |r.members| + 1
    ensures forall k :: 0 <= k < |r.members| ==> MemberAt(r, GridItem(k)) == Some(r.members[k])
    ensures MemberAt(r, ItemCount(r)).None?
  {
  }
}
