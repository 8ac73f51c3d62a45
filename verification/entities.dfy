/**
 * The records the application keeps in memory. The type definitions module
 * of the application is not part of this model; the fields below are the
 * ones the modelled handlers and views read or write.
 */
module Entities {
  import opened Collections

  type Id = string

  /** The fixed identity of the signed-in user. */
  const CurrentUserId: Id := "current"

  /**
   * Whether an optional id is truthy in JavaScript: `null` and the empty
   * string both count as no id.
   */
  predicate IsSet(id: Option<Id>)
  {
    id.Some? && id.value != ""
  }

  datatype Student = Student(
    id: Id,
    name: string,
    avatar: string,
    branch: string,
    year: int,
    bio: string,
    skills: seq<string>,
    projects: seq<string>,
    connections: seq<Id>,
    pendingRequests: seq<Id>)

  /** Author fields are copied when the comment is written, not looked up later. */
  datatype Comment = Comment(
    id: Id,
    authorId: Id,
    authorName: string,
    authorAvatar: string,
    content: string,
    timestamp: int)

  datatype Opportunity = Opportunity(
    id: Id,
    authorId: Id,
    content: string,
    comments: seq<Comment>,
    likes: seq<Id>,
    saved: seq<Id>)

  datatype Club = Club(id: Id, name: string, description: string, members: seq<Id>)

  /**
   * The six notification types; `OtherType` stands for any other tag a
   * record may carry at run time, which every `switch` sends to its default.
   */
  datatype NotificationType =
    | ConnectionType | LikeType | CommentType | MessageType | OpportunityType | ClubType
    | OtherType(tag: string)

  datatype Notification = Notification(
    id: Id,
    kind: NotificationType,
    read: bool,
    title: string,
    message: string,
    avatar: string,
    timestamp: int)

  datatype Conversation = Conversation(
    id: Id,
    participantId: Id,
    participantName: string,
    lastMessage: string,
    unread: nat,
    timestamp: int)

  datatype ChatMessage = ChatMessage(
    id: Id,
    senderId: Id,
    content: string,
    timestamp: int,
    isOwn: bool)

  /** The top-level pages the root component switches between. */
  datatype Tab = Feed | Search | Network | Chat | Clubs | Profile | Notifications

  /** `students.find(s => s.id === id)`: the first student with that id, if any. */
  function FindStudent(students: seq<Student>, id: Id): (r: Option<Student>)
    ensures r.None? <==> forall s :: s in students ==> s.id != id
    ensures r.Some? ==> r.value.id == id
    ensures r.Some? ==>
      exists i :: 0 <= i < |students| && students[i] == r.value && (forall j :: 0 <= j < i ==> students[j].id != id)
  {
    if students == [] then None
    else if students[0].id == id then Some(students[0])
    else
      var r := FindStudent(students[1..], id);
      assert forall s :: s in students[1..] ==> s in students;
      assert r.Some? ==>
        exists i :: 0 <= i < |students| && students[i] == r.value && (forall j :: 0 <= j < i ==> students[j].id != id)
      by {
        if r.Some? {
          var i :| 0 <= i < |students| - 1 && students[1..][i] == r.value
            && forall j :: 0 <= j < i ==> students[1..][j].id != id;
          assert students[i + 1] == r.value;
        }
      }
      r
  }
}
