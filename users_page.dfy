/** The users list (WebTaskFlow/src/components/UsersPage.jsx): the skill
    badges of a user, and removing a user, which filters the list once the
    server has deleted it. */
module UsersPage {
  import opened Values
  import opened Records
  import opened SkillText

  /** The skills cell: one badge per comma-separated piece of Skills, in
      order, each without edge whitespace. */
  function DisplayedSkills(u: Employee): (badges: seq<string>)
    ensures |badges| == |Split(u.skills, ",")|
    ensures forall i :: 0 <= i < |badges| ==>
      badges[i] == Strip(Split(u.skills, ",")[i], JavaScript) && Trimmed(badges[i], JavaScript)
  {
    Pieces(u.skills, JavaScript)
  }

  /** `users.filter((user) => user.Employee_ID !== userId)` */
  function Without(users: seq<Employee>, userId: int): (r: seq<Employee>)
    ensures forall u :: u in r ==> u in users && u.id != userId
    ensures forall i :: 0 <= i < |users| && users[i].id != userId ==> users[i] in r
  {
    Filter(users, (u: Employee) => u.id != userId)
  }

  /** No user with the id is left, every other user keeps its multiplicity,
      and the remaining users keep their relative order: filtering a
      concatenation filters each part. */
  lemma WithoutSpec(users: seq<Employee>, more: seq<Employee>, userId: int, u: Employee)
    ensures multiset(Without(users, userId))[u] == if u.id == userId then 0 else multiset(users)[u]
    ensures Without(users + more, userId) == Without(users, userId) + Without(more, userId)
  {
    FilterCount(users, (v: Employee) => v.id != userId, u);
    FilterAppend(users, more, (v: Employee) => v.id != userId);
  }

  /** Two deletes confirmed from the same rendering: the second completes by
      filtering the list it captured, so a user the first delete removed is
      shown again. */
  lemma StaleDeleteRestores(rendered: seq<Employee>, a: Employee, b: int)
    requires a in rendered && a.id != b
    ensures a in Without(rendered, b)
  {
    FilterCount(rendered, (v: Employee) => v.id != b, a);
  }

  class UsersList {
    var users: seq<Employee>

    /** `handleRemove(userId)`: `rendered` is the `users` list of the
        rendering whose button was clicked (the closure's copy), `confirmed`
        the answer to the confirmation dialog and `deleted` whether the delete
        request succeeded. The new list is that copy, filtered, whatever
        `users` has become in the meantime. */
    method HandleRemove(rendered: seq<Employee>, userId: int, confirmed: bool, deleted: bool)
      modifies this
      ensures confirmed && deleted ==> users == Without(rendered, userId)
      ensures !(confirmed && deleted) ==> users == old(users)
    {
      if confirmed && deleted {
        users := Without(rendered, userId);
      }
    }
  }
}
