/**
 * "Suggested For You": up to three students from the current user's branch
 * who are neither the current user nor already connected, in list order.
 */
module SuggestionsCard {
  import opened Collections
  import opened Entities

  /**
   * The filter test against `me`, the result of looking the current user up.
   * When the lookup fails, `!undefined` lets every student through the
   * connection test but `s.branch === undefined` holds for no student, so
   * nobody qualifies.
   */
  function Qualifies(s: Student, currentUserId: Id, me: Option<Student>): (q: bool)
    ensures me.None? ==> !q
    ensures q ==> s.id != currentUserId
    ensures me.Some? ==>
      (q <==> s.id != currentUserId && s.id !in me.value.connections && s.branch == me.value.branch)
  {
    && s.id != currentUserId
    && me.Some?
    && s.id !in me.value.connections
    && s.branch == me.value.branch
  }

  /** `students.filter(...)`: every qualifying student, in list order. */
  function Candidates(students: seq<Student>, currentUserId: Id, me: Option<Student>): (r: seq<Student>)
    ensures IsSubsequence(r, students)
    ensures forall s :: s in r <==> s in students && Qualifies(s, currentUserId, me)
    ensures forall s :: multiset(r)[s] == if Qualifies(s, currentUserId, me) then multiset(students)[s] else 0
  {
    if students == [] then []
    else
      var rest := Candidates(students[1..], currentUserId, me);
      assert students == [students[0]] + students[1..];
      assert forall s :: s in students <==> s == students[0] || s in students[1..];
      assert rest != [] ==> rest[0] in rest;
      if Qualifies(students[0], currentUserId, me) then [students[0]] + rest else rest
  }

  /** `suggestedStudents`: the first three qualifying students. */
  function Suggested(students: seq<Student>, currentUserId: Id): (r: seq<Student>)
    ensures |r| <= 3
    ensures IsSubsequence(r, students)
    ensures forall s :: s in r ==> s.id != currentUserId
    ensures var me := FindStudent(students, currentUserId);
      forall s :: s in r ==> me.Some? && s.id !in me.value.connections && s.branch == me.value.branch
    ensures var all := Candidates(students, currentUserId, FindStudent(students, currentUserId));
      |r| == Min(3, |all|) && r == all[..|r|]
    ensures var me := FindStudent(students, currentUserId);
      |r| < 3 ==> forall s :: s in students && Qualifies(s, currentUserId, me) ==> s in r
    ensures FindStudent(students, currentUserId).None? ==> r == []
  {
    var me := FindStudent(students, currentUserId);
    var all := Candidates(students, currentUserId, me);
    var r := all[..Min(3, |all|)];
    SubsequencePrefix(all, students, |r|);
    assert forall s :: s in r ==> s in all;
    assert me.None? ==> all == [] by {
      if all != [] { assert all[0] in all; }
    }
    r
  }

  /** `student.skills.slice(0, 2)`: at most the first two skills are shown. */
  function ShownSkills(s: Student): (r: seq<string>)
    ensures |r| == Min(2, |s.skills|)
    ensures r == s.skills[..|r|]
  {
    s.skills[..Min(2, |s.skills|)]
  }
}
