/**
 * The root component: it owns the students, opportunities, clubs and
 * notifications, the active tab, the profile being viewed and the search
 * query. Every handler builds a new collection with `map`/`filter`/append
 * (the pure functions below) and assigns it to one or more fields
 * (the methods of `AppState`). Ids that match nothing leave a collection
 * as it was.
 */
module App {
  import opened Collections
  import opened Entities
  import NotificationsCard

  // ---------------------------------------------------------------- opportunities

  /** The list after `handleLike`: current user's like toggled on every opportunity with that id. */
  function LikeToggled(opps: seq<Opportunity>, opportunityId: Id): (r: seq<Opportunity>)
    ensures |r| == |opps|
    ensures forall i :: 0 <= i < |opps| && opps[i].id != opportunityId ==> r[i] == opps[i]
    ensures forall i :: 0 <= i < |opps| && opps[i].id == opportunityId ==>
      && r[i] == opps[i].(likes := r[i].likes)
      && (CurrentUserId in r[i].likes <==> CurrentUserId !in opps[i].likes)
      && (CurrentUserId !in opps[i].likes ==> r[i].likes == opps[i].likes + [CurrentUserId])
      && (CurrentUserId in opps[i].likes ==>
            && multiset(r[i].likes) == multiset(opps[i].likes)[CurrentUserId := 0]
            && IsSubsequence(r[i].likes, opps[i].likes))
    ensures (forall i :: 0 <= i < |opps| ==> opps[i].id != opportunityId) ==> r == opps
  {
    seq(|opps|, i requires 0 <= i < |opps| =>
      if opps[i].id == opportunityId then opps[i].(likes := Toggle(opps[i].likes, CurrentUserId))
      else opps[i])
  }

  /** The list after `handleSave`: the same toggle on the saved list. */
  function SaveToggled(opps: seq<Opportunity>, opportunityId: Id): (r: seq<Opportunity>)
    ensures |r| == |opps|
    ensures forall i :: 0 <= i < |opps| && opps[i].id != opportunityId ==> r[i] == opps[i]
    ensures forall i :: 0 <= i < |opps| && opps[i].id == opportunityId ==>
      && r[i] == opps[i].(saved := r[i].saved)
      && (CurrentUserId in r[i].saved <==> CurrentUserId !in opps[i].saved)
      && (CurrentUserId !in opps[i].saved ==> r[i].saved == opps[i].saved + [CurrentUserId])
      && (CurrentUserId in opps[i].saved ==>
            && multiset(r[i].saved) == multiset(opps[i].saved)[CurrentUserId := 0]
            && IsSubsequence(r[i].saved, opps[i].saved))
    ensures (forall i :: 0 <= i < |opps| ==> opps[i].id != opportunityId) ==> r == opps
  {
    seq(|opps|, i requires 0 <= i < |opps| =>
      if opps[i].id == opportunityId then opps[i].(saved := Toggle(opps[i].saved, CurrentUserId))
      else opps[i])
  }

  /**
   * Liking twice gives every opportunity back its like membership, and gives
   * back the very same record when the user had not liked it before.
   */
  lemma LikeTwice(opps: seq<Opportunity>, opportunityId: Id)
    ensures var twice := LikeToggled(LikeToggled(opps, opportunityId), opportunityId);
      && |twice| == |opps|
      && (forall i :: 0 <= i < |opps| ==> (CurrentUserId in twice[i].likes <==> CurrentUserId in opps[i].likes))
      && (forall i :: 0 <= i < |opps| && CurrentUserId !in opps[i].likes ==> twice[i] == opps[i])
  {
    forall i | 0 <= i < |opps| && opps[i].id == opportunityId && CurrentUserId !in opps[i].likes
      ensures Toggle(Toggle(opps[i].likes, CurrentUserId), CurrentUserId) == opps[i].likes
    {
      ToggleTwice(opps[i].likes, CurrentUserId);
    }
  }

  /** Saving twice behaves like liking twice. */
  lemma SaveTwice(opps: seq<Opportunity>, opportunityId: Id)
    ensures var twice := SaveToggled(SaveToggled(opps, opportunityId), opportunityId);
      && |twice| == |opps|
      && (forall i :: 0 <= i < |opps| ==> (CurrentUserId in twice[i].saved <==> CurrentUserId in opps[i].saved))
      && (forall i :: 0 <= i < |opps| && CurrentUserId !in opps[i].saved ==> twice[i] == opps[i])
  {
    forall i | 0 <= i < |opps| && opps[i].id == opportunityId && CurrentUserId !in opps[i].saved
      ensures Toggle(Toggle(opps[i].saved, CurrentUserId), CurrentUserId) == opps[i].saved
    {
      ToggleTwice(opps[i].saved, CurrentUserId);
    }
  }

  /** The list after `handleComment`: `c` added after the existing comments of the matched opportunity. */
  function WithComment(opps: seq<Opportunity>, opportunityId: Id, c: Comment): (r: seq<Opportunity>)
    ensures |r| == |opps|
    ensures forall i :: 0 <= i < |opps| && opps[i].id != opportunityId ==> r[i] == opps[i]
    ensures forall i :: 0 <= i < |opps| && opps[i].id == opportunityId ==>
      && r[i] == opps[i].(comments := r[i].comments)
      && |r[i].comments| == |opps[i].comments| + 1
      && r[i].comments[..|opps[i].comments|] == opps[i].comments
      && r[i].comments[|opps[i].comments|] == c
  {
    seq(|opps|, i requires 0 <= i < |opps| =>
      if opps[i].id == opportunityId then opps[i].(comments := opps[i].comments + [c])
      else opps[i])
  }

  // ---------------------------------------------------------------- network

  /** The list after `handleConnect`: the current user appended to the target's pending requests. */
  function WithConnectRequest(students: seq<Student>, studentId: Id): (r: seq<Student>)
    ensures |r| == |students|
    ensures forall i :: 0 <= i < |students| && students[i].id != studentId ==> r[i] == students[i]
    ensures forall i :: 0 <= i < |students| && students[i].id == studentId ==>
      && r[i] == students[i].(pendingRequests := r[i].pendingRequests)
      && |r[i].pendingRequests| == |students[i].pendingRequests| + 1
      && r[i].pendingRequests[..|students[i].pendingRequests|] == students[i].pendingRequests
      && r[i].pendingRequests[|students[i].pendingRequests|] == CurrentUserId
      && multiset(r[i].pendingRequests)[CurrentUserId] == multiset(students[i].pendingRequests)[CurrentUserId] + 1
  {
    seq(|students|, i requires 0 <= i < |students| =>
      if students[i].id == studentId
      then students[i].(pendingRequests := students[i].pendingRequests + [CurrentUserId])
      else students[i])
  }

  /** No duplicate check: two requests leave two pending entries more than before. */
  lemma ConnectTwiceDuplicates(students: seq<Student>, studentId: Id)
    ensures var twice := WithConnectRequest(WithConnectRequest(students, studentId), studentId);
      forall i :: 0 <= i < |students| && students[i].id == studentId ==>
        multiset(twice[i].pendingRequests)[CurrentUserId]
          == multiset(students[i].pendingRequests)[CurrentUserId] + 2
  {
  }

  /**
   * The list after `handleAcceptRequest`: in one update the current user
   * gains the requester as a connection and loses the pending request, and
   * the requester gains the current user as a connection.
   */
  function WithAccepted(students: seq<Student>, studentId: Id): (r: seq<Student>)
    ensures |r| == |students|
    ensures forall i :: 0 <= i < |students| && students[i].id == CurrentUserId ==>
      && r[i] == students[i].(connections := r[i].connections, pendingRequests := r[i].pendingRequests)
      && r[i].connections == students[i].connections + [studentId]
      && studentId in r[i].connections
      && studentId !in r[i].pendingRequests
      && multiset(r[i].pendingRequests) == multiset(students[i].pendingRequests)[studentId := 0]
      && IsSubsequence(r[i].pendingRequests, students[i].pendingRequests)
    ensures forall i :: 0 <= i < |students| && students[i].id == studentId && studentId != CurrentUserId ==>
      && r[i] == students[i].(connections := r[i].connections)
      && r[i].connections == students[i].connections + [CurrentUserId]
      && CurrentUserId in r[i].connections
    ensures forall i :: 0 <= i < |students| && students[i].id != CurrentUserId && students[i].id != studentId ==>
      r[i] == students[i]
  {
    seq(|students|, i requires 0 <= i < |students| =>
      if students[i].id == CurrentUserId then
        students[i].(connections := students[i].connections + [studentId],
                     pendingRequests := RemoveAll(students[i].pendingRequests, studentId))
      else if students[i].id == studentId then
        students[i].(connections := students[i].connections + [CurrentUserId])
      else students[i])
  }

  /** The list after `handleRejectRequest`: only the current user's pending list changes. */
  function WithRejected(students: seq<Student>, studentId: Id): (r: seq<Student>)
    ensures |r| == |students|
    ensures forall i :: 0 <= i < |students| ==> r[i].connections == students[i].connections
    ensures forall i :: 0 <= i < |students| && students[i].id == CurrentUserId ==>
      && r[i] == students[i].(pendingRequests := r[i].pendingRequests)
      && studentId !in r[i].pendingRequests
      && multiset(r[i].pendingRequests) == multiset(students[i].pendingRequests)[studentId := 0]
      && IsSubsequence(r[i].pendingRequests, students[i].pendingRequests)
    ensures forall i :: 0 <= i < |students| && students[i].id != CurrentUserId ==> r[i] == students[i]
  {
    seq(|students|, i requires 0 <= i < |students| =>
      if students[i].id == CurrentUserId then
        students[i].(pendingRequests := RemoveAll(students[i].pendingRequests, studentId))
      else students[i])
  }

  // ---------------------------------------------------------------- clubs

  /** The list after `handleJoinClub`: the current user appended, even if already a member. */
  function WithJoined(clubs: seq<Club>, clubId: Id): (r: seq<Club>)
    ensures |r| == |clubs|
    ensures forall i :: 0 <= i < |clubs| && clubs[i].id != clubId ==> r[i] == clubs[i]
    ensures forall i :: 0 <= i < |clubs| && clubs[i].id == clubId ==>
      && r[i] == clubs[i].(members := r[i].members)
      && r[i].members == clubs[i].members + [CurrentUserId]
      && multiset(r[i].members)[CurrentUserId] == multiset(clubs[i].members)[CurrentUserId] + 1
  {
    seq(|clubs|, i requires 0 <= i < |clubs| =>
      if clubs[i].id == clubId then clubs[i].(members := clubs[i].members + [CurrentUserId])
      else clubs[i])
  }

  /** The list after `handleLeaveClub`: every occurrence of the current user removed. */
  function WithLeft(clubs: seq<Club>, clubId: Id): (r: seq<Club>)
    ensures |r| == |clubs|
    ensures forall i :: 0 <= i < |clubs| && clubs[i].id != clubId ==> r[i] == clubs[i]
    ensures forall i :: 0 <= i < |clubs| && clubs[i].id == clubId ==>
      && r[i] == clubs[i].(members := r[i].members)
      && CurrentUserId !in r[i].members
      && multiset(r[i].members) == multiset(clubs[i].members)[CurrentUserId := 0]
      && IsSubsequence(r[i].members, clubs[i].members)
  {
    seq(|clubs|, i requires 0 <= i < |clubs| =>
      if clubs[i].id == clubId then clubs[i].(members := RemoveAll(clubs[i].members, CurrentUserId))
      else clubs[i])
  }

  /** Joining and then leaving is the same as leaving alone. */
  lemma LeaveUndoesJoin(clubs: seq<Club>, clubId: Id)
    ensures WithLeft(WithJoined(clubs, clubId), clubId) == WithLeft(clubs, clubId)
  {
    var a, b := WithLeft(WithJoined(clubs, clubId), clubId), WithLeft(clubs, clubId);
    forall i | 0 <= i < |clubs| ensures a[i] == b[i] {
      if clubs[i].id == clubId {
        RemoveAllAppend(clubs[i].members, CurrentUserId, CurrentUserId);
      }
    }
  }

  /** Joining twice lists the current user twice more. */
  lemma JoinTwiceDuplicates(clubs: seq<Club>, clubId: Id)
    ensures var twice := WithJoined(WithJoined(clubs, clubId), clubId);
      forall i :: 0 <= i < |clubs| && clubs[i].id == clubId ==>
        multiset(twice[i].members)[CurrentUserId] == multiset(clubs[i].members)[CurrentUserId] + 2
  {
  }

  // ---------------------------------------------------------------- profile

  /** `Partial<Student>`: a field is present (`Some`) or absent (`None`). */
  datatype ProfilePatch = ProfilePatch(
    id: Option<Id>,
    name: Option<string>,
    avatar: Option<string>,
    branch: Option<string>,
    year: Option<int>,
    bio: Option<string>,
    skills: Option<seq<string>>,
    projects: Option<seq<string>>,
    connections: Option<seq<Id>>,
    pendingRequests: Option<seq<Id>>)

  const NoChanges := ProfilePatch(None, None, None, None, None, None, None, None, None, None)

  function Pick<T>(current: T, update: Option<T>): (v: T)
  {
    if update.Some? then update.value else current
  }

  /** `{ ...student, ...updates }`: present fields overwrite, absent ones keep their value. */
  function Patched(st: Student, p: ProfilePatch): (r: Student)
    ensures p == NoChanges ==> r == st
    ensures r.id == (if p.id.Some? then p.id.value else st.id)
    ensures r.name == (if p.name.Some? then p.name.value else st.name)
    ensures r.avatar == (if p.avatar.Some? then p.avatar.value else st.avatar)
    ensures r.branch == (if p.branch.Some? then p.branch.value else st.branch)
    ensures r.year == (if p.year.Some? then p.year.value else st.year)
    ensures r.bio == (if p.bio.Some? then p.bio.value else st.bio)
    ensures r.skills == (if p.skills.Some? then p.skills.value else st.skills)
    ensures r.projects == (if p.projects.Some? then p.projects.value else st.projects)
    ensures r.connections == (if p.connections.Some? then p.connections.value else st.connections)
    ensures r.pendingRequests == (if p.pendingRequests.Some? then p.pendingRequests.value else st.pendingRequests)
  {
    Student(
      Pick(st.id, p.id), Pick(st.name, p.name), Pick(st.avatar, p.avatar),
      Pick(st.branch, p.branch), Pick(st.year, p.year), Pick(st.bio, p.bio),
      Pick(st.skills, p.skills), Pick(st.projects, p.projects),
      Pick(st.connections, p.connections), Pick(st.pendingRequests, p.pendingRequests))
  }

  /** A patch carrying only a bio changes the bio and nothing else. */
  lemma BioOnlyPatch(st: Student, bio: string)
    ensures Patched(st, NoChanges.(bio := Some(bio))) == st.(bio := bio)
  {
  }

  /** Applying the same patch again changes nothing more. */
  lemma PatchIdempotent(st: Student, p: ProfilePatch)
    ensures Patched(Patched(st, p), p) == Patched(st, p)
  {
  }

  /** The list after `handleEditProfile`: only records with the current user's id are patched. */
  function WithProfileEdit(students: seq<Student>, p: ProfilePatch): (r: seq<Student>)
    ensures |r| == |students|
    ensures forall i :: 0 <= i < |students| && students[i].id != CurrentUserId ==> r[i] == students[i]
    ensures forall i :: 0 <= i < |students| && students[i].id == CurrentUserId ==> r[i] == Patched(students[i], p)
  {
    seq(|students|, i requires 0 <= i < |students| =>
      if students[i].id == CurrentUserId then Patched(students[i], p) else students[i])
  }

  // ---------------------------------------------------------------- notifications

  /** The list after `handleMarkAsRead`: notifications with that id become read. */
  function WithRead(ns: seq<Notification>, notificationId: Id): (r: seq<Notification>)
    ensures |r| == |ns|
    ensures forall i :: 0 <= i < |ns| ==>
      && r[i] == ns[i].(read := r[i].read)
      && (r[i].read <==> ns[i].read || ns[i].id == notificationId)
  {
    seq(|ns|, i requires 0 <= i < |ns| =>
      if ns[i].id == notificationId then ns[i].(read := true) else ns[i])
  }

  /**
   * Marking one notification read never raises the unread count, and lowers
   * it when a notification with that id was unread.
   */
  lemma {:induction false} MarkAsReadLowersUnread(ns: seq<Notification>, notificationId: Id)
    ensures NotificationsCard.UnreadCount(WithRead(ns, notificationId)) <= NotificationsCard.UnreadCount(ns)
    ensures (exists i :: 0 <= i < |ns| && ns[i].id == notificationId && !ns[i].read) ==>
      NotificationsCard.UnreadCount(WithRead(ns, notificationId)) < NotificationsCard.UnreadCount(ns)
  {
    if ns != [] {
      WithReadCount(ns, notificationId);
      NotificationsCard.UnreadCountCons(ns);
      MarkAsReadLowersUnread(ns[1..], notificationId);
      if exists i :: 0 <= i < |ns| && ns[i].id == notificationId && !ns[i].read {
        var i :| 0 <= i < |ns| && ns[i].id == notificationId && !ns[i].read;
        if i > 0 {
          assert ns[1..][i - 1] == ns[i];
        }
      }
    }
  }

  /** The unread count after marking splits into the first notification and the rest. */
  lemma WithReadCount(ns: seq<Notification>, notificationId: Id)
    requires ns != []
    ensures NotificationsCard.UnreadCount(WithRead(ns, notificationId))
      == (if ns[0].read || ns[0].id == notificationId then 0 else 1)
         + NotificationsCard.UnreadCount(WithRead(ns[1..], notificationId))
  {
    assert WithRead(ns, notificationId)[1..] == WithRead(ns[1..], notificationId);
    NotificationsCard.UnreadCountCons(WithRead(ns, notificationId));
  }

  /** After marking, nothing with that id is left among the unread. */
  lemma MarkAsReadClearsId(ns: seq<Notification>, notificationId: Id)
    ensures forall n :: n in NotificationsCard.Unread(WithRead(ns, notificationId)) ==> n.id != notificationId
  {
    var r := WithRead(ns, notificationId);
    forall n | n in NotificationsCard.Unread(r) ensures n.id != notificationId {
      var k :| 0 <= k < |r| && r[k] == n;
    }
  }

  /** The list after `handleMarkAllAsRead`: every notification read, nothing else changed. */
  function AllRead(ns: seq<Notification>): (r: seq<Notification>)
    ensures |r| == |ns|
    ensures forall i :: 0 <= i < |ns| ==> r[i].read && r[i] == ns[i].(read := r[i].read)
    ensures NotificationsCard.UnreadCount(r) == 0
  {
    seq(|ns|, i requires 0 <= i < |ns| => ns[i].(read := true))
  }

  /** Marking all read a second time changes nothing. */
  lemma MarkAllIdempotent(ns: seq<Notification>)
    ensures AllRead(AllRead(ns)) == AllRead(ns)
  {
  }

  /**
   * `handleNotificationClick`: the tab a notification leads to. Likes,
   * comments and unknown types keep the current tab.
   */
  function RouteFor(kind: NotificationType, current: Tab): (t: Tab)
    ensures kind == ConnectionType ==> t == Network
    ensures kind == MessageType ==> t == Chat
    ensures kind == OpportunityType ==> t == Feed
    ensures kind == ClubType ==> t == Clubs
    ensures kind == LikeType || kind == CommentType || kind.OtherType? ==> t == current
  {
    match kind
    case ConnectionType => Network
    case MessageType => Chat
    case OpportunityType => Feed
    case ClubType => Clubs
    case _ => current
  }

  /** `mockConversations.reduce((sum, conv) => sum + conv.unread, 0)`, the chat badge. */
  function UnreadMessageTotal(convs: seq<Conversation>): (total: nat)
    ensures forall c :: c in convs ==> c.unread <= total
    ensures total == 0 <==> forall c :: c in convs ==> c.unread == 0
    ensures |convs| == 1 ==> total == convs[0].unread
  {
    if convs == [] then 0
    else
      var rest := UnreadMessageTotal(convs[..|convs| - 1]);
      assert forall c :: c in convs ==> c in convs[..|convs| - 1] || c == convs[|convs| - 1];
      rest + convs[|convs| - 1].unread
  }

  /** The total of two lists of conversations is the sum of their totals. */
  lemma {:induction false} UnreadMessageTotalAppend(a: seq<Conversation>, b: seq<Conversation>)
    ensures UnreadMessageTotal(a + b) == UnreadMessageTotal(a) + UnreadMessageTotal(b)
    decreases |b|
  {
    if b == [] {
      assert a + b == a;
    } else {
      var front := b[..|b| - 1];
      assert (a + b)[..|a + b| - 1] == a + front;
      UnreadMessageTotalAppend(a, front);
    }
  }

  /**
   * `reduce` folds from the left: the total is the first counter plus the
   * total of the rest.
   */
  lemma UnreadMessageTotalFold(convs: seq<Conversation>)
    requires convs != []
    ensures UnreadMessageTotal(convs) == convs[0].unread + UnreadMessageTotal(convs[1..])
  {
    assert convs == [convs[0]] + convs[1..];
    UnreadMessageTotalAppend([convs[0]], convs[1..]);
  }

  // ---------------------------------------------------------------- the component

  class AppState {
    var isAuthenticated: bool
    var activeTab: Tab
    var students: seq<Student>
    var opportunities: seq<Opportunity>
    var clubs: seq<Club>
    var notifications: seq<Notification>
    var viewingProfileId: Option<Id>
    var searchQuery: string

    /** The initial state, from the seed collections. */
    constructor (seedStudents: seq<Student>, seedOpportunities: seq<Opportunity>,
                 seedClubs: seq<Club>, seedNotifications: seq<Notification>)
      ensures !isAuthenticated && activeTab == Feed
      ensures students == seedStudents && opportunities == seedOpportunities
      ensures clubs == seedClubs && notifications == seedNotifications
      ensures viewingProfileId == None && searchQuery == ""
    {
      isAuthenticated := false;
      activeTab := Feed;
      students, opportunities, clubs, notifications := seedStudents, seedOpportunities, seedClubs, seedNotifications;
      viewingProfileId := None;
      searchQuery := "";
    }

    method Login()
      modifies this`isAuthenticated
      ensures isAuthenticated
    {
      isAuthenticated := true;
    }

    method Like(opportunityId: Id)
      modifies this`opportunities
      ensures opportunities == LikeToggled(old(opportunities), opportunityId)
    {
      opportunities := LikeToggled(opportunities, opportunityId);
    }

    method Save(opportunityId: Id)
      modifies this`opportunities
      ensures opportunities == SaveToggled(old(opportunities), opportunityId)
    {
      opportunities := SaveToggled(opportunities, opportunityId);
    }

    /**
     * `handleComment`; `newId` and `now` stand for the clock-derived id and
     * timestamp, `currentUser` for the seed data's current-user record.
     */
    method AddComment(opportunityId: Id, commentText: string, currentUser: Student, newId: Id, now: int)
      modifies this`opportunities
      ensures opportunities == WithComment(old(opportunities), opportunityId,
        Comment(newId, CurrentUserId, currentUser.name, currentUser.avatar, commentText, now))
    {
      var c := Comment(newId, CurrentUserId, currentUser.name, currentUser.avatar, commentText, now);
      opportunities := WithComment(opportunities, opportunityId, c);
    }

    method Connect(studentId: Id)
      modifies this`students
      ensures students == WithConnectRequest(old(students), studentId)
    {
      students := WithConnectRequest(students, studentId);
    }

    method AcceptRequest(studentId: Id)
      modifies this`students
      ensures students == WithAccepted(old(students), studentId)
    {
      students := WithAccepted(students, studentId);
    }

    method RejectRequest(studentId: Id)
      modifies this`students
      ensures students == WithRejected(old(students), studentId)
    {
      students := WithRejected(students, studentId);
    }

    /** `handleMessage`: opens the chat page; the student is not used. */
    method OpenChat(studentId: Id)
      modifies this`activeTab
      ensures activeTab == Chat
    {
      activeTab := Chat;
    }

    /** `handleViewProfile`: sets the tab directly, so the search query is kept. */
    method ViewProfile(studentId: Id)
      modifies this`viewingProfileId, this`activeTab
      ensures viewingProfileId == Some(studentId) && activeTab == Profile
    {
      viewingProfileId := Some(studentId);
      activeTab := Profile;
    }

    method JoinClub(clubId: Id)
      modifies this`clubs
      ensures clubs == WithJoined(old(clubs), clubId)
    {
      clubs := WithJoined(clubs, clubId);
    }

    method LeaveClub(clubId: Id)
      modifies this`clubs
      ensures clubs == WithLeft(old(clubs), clubId)
    {
      clubs := WithLeft(clubs, clubId);
    }

    method EditProfile(updates: ProfilePatch)
      modifies this`students
      ensures students == WithProfileEdit(old(students), updates)
    {
      students := WithProfileEdit(students, updates);
    }

    method MarkAsRead(notificationId: Id)
      modifies this`notifications
      ensures notifications == WithRead(old(notifications), notificationId)
    {
      notifications := WithRead(notifications, notificationId);
    }

    method MarkAllAsRead()
      modifies this`notifications
      ensures notifications == AllRead(old(notifications))
      ensures UnreadNotifications() == 0
    {
      notifications := AllRead(notifications);
    }

    /** `handleNotificationClick`: sets the tab directly, so the profile and query are kept. */
    method NotificationClick(notification: Notification)
      modifies this`activeTab
      ensures activeTab == RouteFor(notification.kind, old(activeTab))
    {
      activeTab := RouteFor(notification.kind, activeTab);
    }

    /**
     * A click on a row of the notification card, as the card dispatches it
     * to this component's handlers: mark read if unread, then route.
     */
    method NotificationRowClick(notification: Notification)
      modifies this`notifications, this`activeTab
      ensures notifications == if notification.read then old(notifications)
                               else WithRead(old(notifications), notification.id)
      ensures activeTab == RouteFor(notification.kind, old(activeTab))
    {
      if !notification.read {
        MarkAsRead(notification.id);
      }
      NotificationClick(notification);
    }

    /** `handleTabChange`: leaving the profile forgets the viewed profile, leaving search forgets the query. */
    method TabChange(tab: Tab)
      modifies this`activeTab, this`viewingProfileId, this`searchQuery
      ensures activeTab == tab
      ensures viewingProfileId == if tab == Profile then old(viewingProfileId) else None
      ensures searchQuery == if tab == Search then old(searchQuery) else ""
    {
      if tab != Profile {
        viewingProfileId := None;
      }
      if tab != Search {
        searchQuery := "";
      }
      activeTab := tab;
    }

    /** The navigation bar's `onSearch`, wired straight to the query setter. */
    method SetSearchQuery(query: string)
      modifies this`searchQuery
      ensures searchQuery == query
    {
      searchQuery := query;
    }

    /**
     * The navigation bar's `handleSearchFocus`: focusing the search box
     * changes to the search tab unless it is already shown. The change goes
     * through `handleTabChange`, so it forgets the viewed profile and keeps
     * the query.
     */
    method SearchFocus()
      modifies this`activeTab, this`viewingProfileId, this`searchQuery
      ensures activeTab == Search
      ensures old(activeTab) == Search ==> viewingProfileId == old(viewingProfileId)
      ensures old(activeTab) != Search ==> viewingProfileId == None
      ensures searchQuery == old(searchQuery)
    {
      if activeTab != Search {
        TabChange(Search);
      }
    }

    /** `unreadNotifications`, the navigation bar's badge. */
    function UnreadNotifications(): (c: nat)
      reads this
      ensures c <= |notifications|
      ensures c == 0 <==> forall n :: n in notifications ==> n.read
      ensures c == |NotificationsCard.Unread(notifications)|
    {
      NotificationsCard.UnreadCount(notifications)
    }

    /**
     * `displayedStudent`: the first student with the viewed id, falling back
     * to the current-user record when nothing is viewed (null or empty id) or
     * the id is unknown.
     */
    function DisplayedStudent(currentUser: Student): (s: Student)
      reads this
      ensures !IsSet(viewingProfileId) ==> s == currentUser
      ensures IsSet(viewingProfileId) ==>
        if exists t :: t in students && t.id == viewingProfileId.value
        then s in students && s.id == viewingProfileId.value
        else s == currentUser
      ensures IsSet(viewingProfileId) ==>
        forall i :: 0 <= i < |students| && students[i].id == viewingProfileId.value ==>
          exists k :: 0 <= k <= i && students[k] == s && forall j :: 0 <= j < k ==> students[j].id != viewingProfileId.value
    {
      if IsSet(viewingProfileId) then
        match FindStudent(students, viewingProfileId.value)
        case Some(t) => t
        case None => currentUser
      else currentUser
    }
  }
}
