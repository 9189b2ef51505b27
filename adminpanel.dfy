/** The admin console (sections/AdminPanel.tsx): three role sections over the user
    list and the approve/reject actions each section offers. */
module AdminPanel {
  import opened Types
  import opened Text
  import opened Ledger
  import LedgerFacts

  /** The console's three sections: incoming transmissions, the agent roster and
      the blacklist. */
  datatype Section = Incoming | Roster | Blacklist

  predicate InSection(role: Role, sec: Section) {
    match sec
    case Incoming => role == PENDING
    case Roster => role == BOY || role == ADMIN
    case Blacklist => role == REJECTED
  }

  /** `users.filter(...)` for one section, in list order. */
  function Members(users: seq<User>, sec: Section): (r: seq<User>)
    ensures |r| <= |users|
  {
    if users == [] then []
    else (if InSection(users[0].role, sec) then [users[0]] else []) + Members(users[1..], sec)
  }

  /** A section keeps its users in list order. */
  lemma {:induction false} MembersKeepOrder(users: seq<User>, sec: Section)
    ensures IsSubsequence(Members(users, sec), users)
  {
    if users != [] {
      MembersKeepOrder(users[1..], sec);
      FilterStep(InSection(users[0].role, sec), users, Members(users[1..], sec));
    }
  }

  /** A section holds exactly the users whose role belongs there. */
  lemma {:induction false} MemberIff(users: seq<User>, sec: Section, u: User)
    ensures u in Members(users, sec) <==> u in users && InSection(u.role, sec)
  {
    if users != [] {
      MemberIff(users[1..], sec, u);
      assert u in users <==> u == users[0] || u in users[1..];
    }
  }

  /** Every user appears in exactly one section, as often as in the list. */
  lemma {:induction false} SectionsPartitionUsers(users: seq<User>)
    ensures multiset(users) == multiset(Members(users, Incoming)) + multiset(Members(users, Roster)) + multiset(Members(users, Blacklist))
  {
    if users != [] {
      var h, t := users[0], users[1..];
      SectionsPartitionUsers(t);
      assert users == [h] + t;
      var own := multiset(if InSection(h.role, Incoming) then [h] else [])
        + multiset(if InSection(h.role, Roster) then [h] else [])
        + multiset(if InSection(h.role, Blacklist) then [h] else []);
      assert own == multiset{h} by {
        match h.role {
          case PENDING =>
          case BOY =>
          case ADMIN =>
          case REJECTED =>
        }
      }
    }
  }

  /** The buttons: authorize/terminate a pending user, discharge a roster member,
      re-admit a blacklisted one. */
  datatype Action = Authorize(id: Id) | Terminate(id: Id) | Discharge(id: Id) | Readmit(id: Id)

  /** Whether the console shows the button for `a`: pending entries get both
      decisions, every roster member except an ADMIN gets discharge, every
      blacklisted user gets re-admit. */
  predicate Offered(users: seq<User>, a: Action) {
    match a
    case Authorize(id) => exists u :: u in Members(users, Incoming) && u.id == id
    case Terminate(id) => exists u :: u in Members(users, Incoming) && u.id == id
    case Discharge(id) => exists u :: u in Members(users, Roster) && u.role != ADMIN && u.id == id
    case Readmit(id) => exists u :: u in Members(users, Blacklist) && u.id == id
  }

  /** What a button calls: `onApprove` for authorize and re-admit, `onReject` for
      terminate and discharge. */
  function Perform(s: Snapshot, a: Action): (r: Step)
    ensures a.Authorize? || a.Readmit? ==> r == Approve(s, a.id)
    ensures a.Terminate? || a.Discharge? ==> r == Reject(s, a.id)
  {
    match a
    case Authorize(id) => Approve(s, id)
    case Readmit(id) => Approve(s, id)
    case Terminate(id) => Reject(s, id)
    case Discharge(id) => Reject(s, id)
  }

  /** A pending user is offered both decisions; authorizing moves them to the
      roster as a BOY, terminating moves them to the blacklist. */
  lemma PendingDecisions(s: Snapshot, u: User)
    requires u in Members(s.users, Incoming)
    ensures Offered(s.users, Authorize(u.id)) && Offered(s.users, Terminate(u.id))
    ensures u.(role := BOY) in Members(Perform(s, Authorize(u.id)).next.users, Roster)
    ensures u.(role := REJECTED) in Members(Perform(s, Terminate(u.id)).next.users, Blacklist)
  {
    MemberIff(s.users, Incoming, u);
    var i :| 0 <= i < |s.users| && s.users[i] == u;
    var approved := Perform(s, Authorize(u.id)).next.users;
    var rejected := Perform(s, Terminate(u.id)).next.users;
    assert approved[i] == u.(role := BOY);
    assert rejected[i] == u.(role := REJECTED);
    MemberIff(approved, Roster, u.(role := BOY));
    MemberIff(rejected, Blacklist, u.(role := REJECTED));
  }

  /** REJECTED is not terminal: a blacklisted user is offered re-admission, which
      puts them back on the roster as a BOY and off the blacklist. */
  lemma ReadmitReturnsToRoster(s: Snapshot, u: User)
    requires u in Members(s.users, Blacklist)
    ensures Offered(s.users, Readmit(u.id))
    ensures var after := Perform(s, Readmit(u.id)).next.users;
      && u.(role := BOY) in Members(after, Roster)
      && forall v :: v in Members(after, Blacklist) ==> v.id != u.id
  {
    MemberIff(s.users, Blacklist, u);
    var after := Perform(s, Readmit(u.id)).next.users;
    var i :| 0 <= i < |s.users| && s.users[i] == u;
    assert after[i] == u.(role := BOY);
    MemberIff(after, Roster, u.(role := BOY));
    forall v | v in Members(after, Blacklist) ensures v.id != u.id {
      MemberIff(after, Blacklist, v);
      var j :| 0 <= j < |after| && after[j] == v;
    }
  }

  /** With unique ids no ADMIN is ever offered a discharge, and a discharge leaves
      every ADMIN's role alone while blacklisting its target. */
  lemma DischargeSparesAdmins(s: Snapshot, id: Id)
    requires LedgerFacts.UniqueIds(s.users)
    ensures forall u :: u in s.users && u.role == ADMIN ==> !Offered(s.users, Discharge(u.id))
    ensures Offered(s.users, Discharge(id)) ==>
      var after := Perform(s, Discharge(id)).next.users;
      && (forall i :: 0 <= i < |s.users| && s.users[i].role == ADMIN ==> after[i] == s.users[i])
      && exists v :: v in Members(after, Blacklist) && v.id == id
  {
    forall u | u in s.users && u.role == ADMIN ensures !Offered(s.users, Discharge(u.id)) {
      if Offered(s.users, Discharge(u.id)) {
        var w :| w in Members(s.users, Roster) && w.role != ADMIN && w.id == u.id;
        MemberIff(s.users, Roster, w);
      }
    }
    if Offered(s.users, Discharge(id)) {
      var after := Perform(s, Discharge(id)).next.users;
      var w :| w in Members(s.users, Roster) && w.role != ADMIN && w.id == id;
      MemberIff(s.users, Roster, w);
      var j :| 0 <= j < |s.users| && s.users[j] == w;
      assert forall i :: 0 <= i < |s.users| && s.users[i].role == ADMIN ==> after[i] == s.users[i];
      MemberIff(after, Blacklist, after[j]);
    }
  }
}
