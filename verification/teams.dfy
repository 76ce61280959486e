/** The central teams of UsersService: each has one Submitter, stored as the sub-role `admin`. */
module Teams {
  import opened Basics

  type Id = nat

  datatype Team = MoHUA | PMU | DoE

  datatype Role = Of(team: Team) | OtherRole

  datatype Subrole = Admin | Reviewer | Viewer

  datatype User = User(role: Role, subrole: Subrole, email: string, isDeleted: bool, isXviFcDeleted: bool, verified: bool)

  type Users = map<Id, User>

  /** What the requester's token claims. */
  datatype Requester = Requester(id: Id, role: Role, subrole: Subrole)

  datatype Reply = Ok | BadRequest | Forbidden | NotFound | Undeliverable | AlreadyActive | XviFcRemoved | WriteFailed

  datatype Action = Invite | Restore

  function AdminsOf(users: Users, team: Team): set<Id> {
    set id | id in users && !users[id].isDeleted && users[id].role == Of(team) && users[id].subrole == Admin
  }

  predicate IsSubmitter(team: Team, r: Requester) { r.role == Of(team) && r.subrole == Admin }

  predicate ActiveWith(users: Users, id: Id, email: string) {
    id in users && users[id].email == email && !users[id].isDeleted && !users[id].isXviFcDeleted
  }

  predicate RemovedWith(users: Users, id: Id, email: string) {
    id in users && users[id].email == email && users[id].isDeleted && users[id].isXviFcDeleted
  }

  predicate EmailActive(users: Users, email: string) { exists id | id in users :: ActiveWith(users, id, email) }

  predicate EmailRemoved(users: Users, email: string) { exists id | id in users :: RemovedWith(users, id, email) }

  predicate EmailTaken(users: Users, email: string, id: Id) {
    exists other | other in users :: other != id && ActiveWith(users, other, email)
  }

  predicate IsMember(users: Users, team: Team,
      id: Id) { id in users && !users[id].isDeleted && users[id].role == Of(team) }

  /** A live member of the team who is not its Submitter. */
  predicate IsPlainMember(users: Users, team: Team, id: Id) { IsMember(users, team, id) && users[id].subrole != Admin }

  // ----- single writes

  datatype Write =
    | Insert(id: Id, user: User)
    | SetSubrole(id: Id, subrole: Subrole)
    | SetRemoved(id: Id)
    | SetRestored(id: Id, team: Team, editor: bool)
    | RemoveIfTaken(id: Id, email: string)           // the race guard after a restore

  function InviteSubrole(editor: bool): Subrole { if editor then Reviewer else Viewer }

  function Fresh(team: Team, email: string, editor: bool): User {
    User(Of(team), InviteSubrole(editor), email, false, false, false)
  }

  function Restored(u: User, team: Team, editor: bool): User {
    u.(role := Of(team), subrole := InviteSubrole(editor), isDeleted := false, isXviFcDeleted := false, verified := false)
  }

  function Removed(users: Users, id: Id): Users {
    if id in users then users[id := users[id].(isDeleted := true, isXviFcDeleted := true)] else users
  }

  /** Updates go by id and look at nothing else; ids of new users are new. */
  function Apply(users: Users, w: Write): Users {
    match w
    case Insert(id, u) => if id in users then users else users[id := u]
    case SetSubrole(id, s) => if id in users then users[id := users[id].(subrole := s)] else users
    case SetRemoved(id) => Removed(users, id)
    case SetRestored(id, team, editor) => if id in users then users[id := Restored(users[id], team, editor)] else users
    case RemoveIfTaken(id, email) => if EmailTaken(users, email, id) then Removed(users, id) else users
  }

  function ApplyAll(users: Users, plan: seq<Write>): Users {
    if plan == [] then users else Apply(ApplyAll(users, plan[..|plan| - 1]), plan[|plan| - 1])
  }

  /** The write takes the sub-role, the membership or the account away from `a`. */
  predicate TakesAway(users: Users, w: Write, a: Id) {
    match w
    case Insert(_, _) => false
    case SetSubrole(id, s) => id == a && s != Admin
    case SetRemoved(id) => id == a
    case SetRestored(id, _, _) => id == a
    case RemoveIfTaken(id, email) => id == a && EmailTaken(users, email, id)
  }

  /** A write leaves a team without a Submitter if and only if it takes the role away from the only one. */
  lemma WriteEmptiesExactlyWhen(users: Users, w: Write, t: Team)
    requires AdminsOf(users, t) != {}
    ensures AdminsOf(Apply(users, w), t) == {} <==> exists a :: AdminsOf(users, t) == {a} && TakesAway(users, w, a)
  {
    var users' := Apply(users, w);
    var target := match w case Insert(id, _) => id case SetSubrole(id, _) => id case SetRemoved(id) => id
                  case SetRestored(id, _, _) => id case RemoveIfTaken(id, _) => id;
    assert forall id :: id != target ==> (id in AdminsOf(users, t) <==> id in AdminsOf(users', t));
    if AdminsOf(users', t) == {} {
      assert AdminsOf(users, t) == {target};
    }
  }

  // ----- the requests

  /** A write that throws may have been applied all the same. */
  datatype WriteResult = Done | Threw(landed: bool)

  predicate Lands(w: WriteResult) { w.Done? || w.landed }

  /** `chosen` is the id of a new user, or of the removed user that is restored. */
  datatype Request =
    | InviteMember(email: string, deliverable: bool, editor: bool, action: Action, chosen: Id)
    | ChangeSubrole(target: Id, editor: bool)
    | TransferSubmitter(to: Id, promote: WriteResult, demote: WriteResult, rollback: WriteResult)
    | RemoveMember(target: Id)

  function If(b: bool, w: Write): seq<Write> { if b then [w] else [] }

  predicate Transferable(users: Users, team: Team, to: Id) { IsPlainMember(users, team, to) && users[to].verified }

  /** The writes of a request that land, as decided by its checks; none if it is refused. */
  function Plan(users: Users, team: Team, who: Requester, r: Request): seq<Write> {
    if !IsSubmitter(team, who) then []
    else match r
      case InviteMember(email, deliverable, editor, action, chosen) =>
        if !deliverable || EmailActive(users, email) || (action == Invite && EmailRemoved(users, email)) then []
        else if !EmailRemoved(users, email) then If(chosen !in users, Insert(chosen, Fresh(team, email, editor)))
        else if RemovedWith(users, chosen, email) then [SetRestored(chosen, team, editor), RemoveIfTaken(chosen, email)]
        else []
      case ChangeSubrole(target, editor) =>
        If(IsPlainMember(users, team, target), SetSubrole(target, InviteSubrole(editor)))
      case TransferSubmitter(to, promote, demote, rollback) =>
        if !Transferable(users, team, to) then []
        else If(Lands(promote), SetSubrole(to, Admin))
             + (if promote.Threw? then []
                else If(Lands(demote), SetSubrole(who.id, Reviewer))
                     + If(demote.Threw? && Lands(rollback), SetSubrole(to, users[to].subrole)))
      case RemoveMember(target) =>
        If(target != who.id && IsPlainMember(users, team, target), SetRemoved(target))
  }

  function After(users: Users, team: Team, who: Requester, r: Request): Users {
    ApplyAll(users, Plan(users, team, who, r))
  }

  lemma {:induction false} ApplyAllSteps(users: Users, plan: seq<Write>, w: Write)
    ensures ApplyAll(users, []) == users
    ensures ApplyAll(users, plan + [w]) == Apply(ApplyAll(users, plan), w)
  {
    assert (plan + [w])[..|plan|] == plan;
  }

  lemma {:induction false} ApplyTwo(users: Users, w1: Write, w2: Write)
    ensures ApplyAll(users, [w1]) == Apply(users, w1) && ApplyAll(users, [w1, w2]) == Apply(Apply(users, w1), w2)
    ensures [w1, w2][..1] == [w1] && [w1][..0] == []
  {
    ApplyAllSteps(users, [], w1);
    ApplyAllSteps(users, [w1], w2);
  }

  lemma {:induction false} RestoreIsNotTaken(users: Users, id: Id, team: Team, editor: bool, email: string)
    requires !EmailActive(users, email) && id in users
    ensures var restored := users[id := Restored(users[id], team, editor)];
            !EmailTaken(restored, email, id) && ApplyAll(users, [SetRestored(id, team, editor), RemoveIfTaken(id, email)]) == restored
  {
    var restored := users[id := Restored(users[id], team, editor)];
    assert forall other :: ActiveWith(restored, other, email) && other != id ==> ActiveWith(users, other, email);
    ApplyAllSteps(users, [], SetRestored(id, team, editor));
    ApplyAllSteps(users, [SetRestored(id, team, editor)], RemoveIfTaken(id, email));
  }

  class UserCollection {
    var users: Users

    constructor (users: Users)
      ensures this.users == users
    {
      this.users := users;
    }

    /** The race guard after a restore never fires when requests are served one by one. */
    method InviteTeamMember(team: Team, email: string, deliverable: bool, editor: bool, action: Action, who: Requester,
                            freshId: Id)
      returns (reply: Reply, chosen: Id)
      requires freshId !in users
      modifies this
      ensures users == After(old(users), team, who, InviteMember(email, deliverable, editor, action, chosen))
      ensures reply == Ok <==> Plan(old(users), team, who, InviteMember(email, deliverable, editor, action, chosen)) != []
      ensures reply == Forbidden <==> !(who.role == Of(team) && who.subrole == Admin)
      ensures reply == Undeliverable <==> reply != Forbidden && !deliverable
      ensures reply == AlreadyActive <==> reply != Forbidden && deliverable && EmailActive(old(users), email)
      ensures reply in {Ok, Forbidden, Undeliverable, AlreadyActive, XviFcRemoved}
    {
      chosen := freshId;
      if who.role != Of(team) || who.subrole != Admin { return Forbidden, chosen; }
      if !deliverable { return Undeliverable, chosen; }
      if EmailActive(users, email) { return AlreadyActive, chosen; }
      if action == Invite && EmailRemoved(users, email) { return XviFcRemoved, chosen; }
      if !EmailRemoved(users, email) {
        ApplyAllSteps(users, [], Insert(freshId, Fresh(team, email, editor)));
        users := users[freshId := Fresh(team, email, editor)];
        return Ok, chosen;
      }
      chosen :| chosen in users && RemovedWith(users, chosen, email);
      RestoreIsNotTaken(users, chosen, team, editor, email);
      users := users[chosen := Restored(users[chosen], team, editor)];
      var raceConflict := EmailTaken(users, email, chosen);
      users := if raceConflict then Removed(users, chosen) else users;
      reply := if raceConflict then AlreadyActive else Ok;
    }

    method UpdateTeamMemberSubrole(team: Team, target: Id, editor: bool, who: Requester) returns (reply: Reply)
      modifies this
      ensures users == After(old(users), team, who, ChangeSubrole(target, editor))
      ensures reply == Ok <==> Plan(old(users), team, who, ChangeSubrole(target, editor)) != []
      ensures reply == Forbidden <==> !(who.role == Of(team) && who.subrole == Admin)
      ensures reply == NotFound <==> reply != Forbidden && (target in old(users) ==> old(users)[target].isDeleted)
      ensures reply in {Ok, Forbidden, NotFound, BadRequest}
    {
      ApplyAllSteps(users, [], SetSubrole(target, InviteSubrole(editor)));
      if who.role != Of(team) || who.subrole != Admin { return Forbidden; }
      if target !in users || users[target].isDeleted { return NotFound; }
      if users[target].role != Of(team) { return BadRequest; }
      if users[target].subrole == Admin { return BadRequest; }
      users := users[target := users[target].(subrole := InviteSubrole(editor))];
      reply := Ok;
    }

    /** One `findByIdAndUpdate` of a sub-role, which may throw, and may have landed even so. */
    method UpdateSubrole(id: Id, s: Subrole, result: WriteResult, ghost done: seq<Write>, ghost users0: Users)
      returns (ghost done': seq<Write>)
      requires users == ApplyAll(users0, done)
      modifies this
      ensures done' == done + If(Lands(result), SetSubrole(id, s)) && users == ApplyAll(users0, done')
    {
      done' := done + If(Lands(result), SetSubrole(id, s));
      ApplyAllSteps(users0, done, SetSubrole(id, s));
      if Lands(result) {
        if id in users {
          users := users[id := users[id].(subrole := s)];
        }
      } else {
        assert done' == done;
      }
    }

    /** Promote, demote, and promote back if the demotion throws; `written` are the writes that landed, in order. */
    method TransferTeamSubmitter(team: Team, to: Id, who: Requester, promote: WriteResult, demote: WriteResult,
        rollback: WriteResult)
      returns (reply: Reply, ghost written: seq<Write>)
      modifies this
      ensures written == Plan(old(users), team, who, TransferSubmitter(to, promote, demote, rollback))
      ensures users == ApplyAll(old(users), written)
      ensures reply in {Ok, WriteFailed} <==> IsSubmitter(team, who) && Transferable(old(users), team, to)
      ensures reply == Ok ==> promote.Done? && demote.Done?
      ensures reply == WriteFailed ==> promote.Threw? || demote.Threw?
      ensures reply == Forbidden <==> !(who.role == Of(team) && who.subrole == Admin)
      ensures reply == NotFound <==> reply != Forbidden && (to in old(users) ==> old(users)[to].isDeleted)
      ensures reply in {Ok, WriteFailed, Forbidden, NotFound, BadRequest}
    {
      ghost var users0 := users;
      written := [];
      ApplyAllSteps(users, [], SetSubrole(to, Admin));
      if who.role != Of(team) || who.subrole != Admin { return Forbidden, written; }
      if to !in users || users[to].isDeleted { return NotFound, written; }
      var newOwner := users[to];
      if newOwner.role != Of(team) { return BadRequest, written; }
      if newOwner.subrole == Admin { return BadRequest, written; }
      if !newOwner.verified { return BadRequest, written; }
      written := UpdateSubrole(to, Admin, promote, written, users0);
      if promote.Threw? { return WriteFailed, written; }
      written := UpdateSubrole(who.id, Reviewer, demote, written, users0);
      if demote.Threw? {
        written := UpdateSubrole(to, newOwner.subrole, rollback, written, users0);
        return WriteFailed, written;
      }
      reply := Ok;
    }

    method SoftDeleteTeamMember(team: Team, target: Id, who: Requester) returns (reply: Reply)
      modifies this
      ensures users == After(old(users), team, who, RemoveMember(target))
      ensures reply == Ok <==> Plan(old(users), team, who, RemoveMember(target)) != []
      ensures reply == Forbidden <==> !(who.role == Of(team) && who.subrole == Admin)
      ensures reply == NotFound <==>
                reply != Forbidden && target != who.id && (target in old(users) ==> old(users)[target].isDeleted)
      ensures reply in {Ok, Forbidden, NotFound, BadRequest}
    {
      ApplyAllSteps(users, [], SetRemoved(target));
      if who.role != Of(team) || who.subrole != Admin { return Forbidden; }
      if target == who.id { return BadRequest; }
      if target !in users || users[target].isDeleted { return NotFound; }
      if users[target].role != Of(team) { return BadRequest; }
      if users[target].subrole == Admin { return BadRequest; }
      users := users[target := users[target].(isDeleted := true, isXviFcDeleted := true)];
      reply := Ok;
    }
  }

  // ----- what a request writes, field by field

  /** Who may ask, for a member other than the Submitter. */
  predicate Granted(users: Users, team: Team, who: Requester, target: Id) {
    && who.role == Of(team) && who.subrole == Admin
    && target in users && !users[target].isDeleted && users[target].role == Of(team) && users[target].subrole != Admin
  }

  /** An editor becomes a reviewer, anybody else a viewer; nothing else of the member changes, and nobody else. */
  lemma SubroleWrites(users: Users, team: Team, who: Requester, target: Id, editor: bool)
    ensures After(users, team, who, ChangeSubrole(target, editor)) ==
              if Granted(users, team, who, target)
              then users[target := users[target].(subrole := if editor then Reviewer else Viewer)] else users
  {
    ApplyAllSteps(users, [], SetSubrole(target, InviteSubrole(editor)));
  }

  lemma RemovalWrites(users: Users, team: Team, who: Requester, target: Id)
    ensures After(users, team, who, RemoveMember(target)) ==
              if Granted(users, team, who, target) && target != who.id
              then users[target := users[target].(isDeleted := true, isXviFcDeleted := true)] else users
  {
    ApplyAllSteps(users, [], SetRemoved(target));
  }

  /** Nobody who is not removed has this email, and somebody who is. */
  predicate Inactive(users: Users, email: string) {
    forall id | id in users :: users[id].email == email ==> users[id].isDeleted || users[id].isXviFcDeleted
  }

  predicate FullyRemoved(users: Users, id: Id, email: string) {
    id in users && users[id].email == email && users[id].isDeleted && users[id].isXviFcDeleted
  }

  /**
   An invitation creates a member, or restores a removed one if that was asked for, as a reviewer or viewer who has not
   verified the profile; it is refused to anybody but the Submitter, for an undeliverable address, one that is in use,
   or, unless a restore was asked for, one of a removed member.
   */
  lemma InvitationWrites(users: Users, team: Team, who: Requester, email: string, deliverable: bool, editor: bool,
                         action: Action, chosen: Id)
    ensures var known := exists id | id in users :: FullyRemoved(users, id, email);
            var goes := who.role == Of(team) && who.subrole == Admin && deliverable && Inactive(users, email)
                        && (known ==> action == Restore);
            var member := User(Of(team), if editor then Reviewer else Viewer, email, false, false, false);
            After(users, team, who, InviteMember(email, deliverable, editor, action, chosen)) ==
              if goes && (if known then FullyRemoved(users, chosen, email) else chosen !in users)
              then users[chosen := member] else users
  {
    ApplyAllSteps(users, [], Insert(chosen, Fresh(team, email, editor)));
    assert Inactive(users, email) <==> !EmailActive(users, email);
    if !EmailActive(users, email) && RemovedWith(users, chosen, email) {
      RestoreIsNotTaken(users, chosen, team, editor, email);
    }
  }

  lemma PlanOfTransfer(users: Users, team: Team, who: Requester, r: Request)
    requires r.TransferSubmitter? && Granted(users, team, who, r.to) && users[r.to].verified
    ensures var promote, demote, back := SetSubrole(r.to, Admin), SetSubrole(who.id, Reviewer), SetSubrole(r.to, users[r.to].subrole);
            Plan(users, team, who, r) ==
              if r.promote == Threw(false) then []
              else if r.promote == Threw(true) then [promote]
              else if r.demote == Done then [promote, demote]
              else if r.demote == Threw(true) then if r.rollback == Threw(false) then [promote, demote] else [promote, demote, back]
              else if r.rollback == Threw(false) then [promote] else [promote, back]
  {
  }

  lemma {:induction false} ApplyThree(users: Users, w1: Write, w2: Write, w3: Write)
    ensures ApplyAll(users, []) == users && ApplyAll(users, [w1]) == Apply(users, w1)
    ensures ApplyAll(users, [w1, w2]) == Apply(Apply(users, w1), w2)
    ensures ApplyAll(users, [w1, w2, w3]) == Apply(Apply(Apply(users, w1), w2), w3)
  {
    ApplyTwo(users, w1, w2);
    assert [w1, w2, w3] == [w1, w2] + [w3];
    ApplyAllSteps(users, [w1, w2], w3);
  }

  /** Only the sub-roles of `a` and `b` may differ. */
  predicate OnlySubroles(users: Users, next: Users, a: Id, asA: Subrole, b: Id, asB: Subrole) {
    next.Keys == users.Keys && forall id :: id in users ==>
      next[id] == users[id].(subrole := if id == b then asB else if id == a then asA else users[id].subrole)
  }

  /**
   A transfer changes two sub-roles at most: the new Submitter is promoted unless that write is lost or rolled back, the
   requester becomes a reviewer unless the promotion threw or the demotion was lost.
   */
  lemma TransferWrites(users: Users, team: Team, who: Requester, r: Request)
    requires r.TransferSubmitter? && who.id in users
    ensures var next := After(users, team, who, r);
            if !Granted(users, team, who, r.to) || !users[r.to].verified then next == users
            else
              var lost := r.promote == Threw(false);
              var rolledBack := r.promote.Done? && r.demote.Threw? && r.rollback != Threw(false);
              var demoted := r.promote.Done? && r.demote != Threw(false);
              r.to != who.id ==>
                OnlySubroles(users, next, r.to, if lost || rolledBack then users[r.to].subrole else Admin,
                             who.id, if demoted then Reviewer else users[who.id].subrole)
  {
    if Granted(users, team, who, r.to) && users[r.to].verified {
      PlanOfTransfer(users, team, who, r);
      var promote, demote := SetSubrole(r.to, Admin), SetSubrole(who.id, Reviewer);
      ApplyThree(users, promote, demote, SetSubrole(r.to, users[r.to].subrole));
      ApplyTwo(users, promote, SetSubrole(r.to, users[r.to].subrole));
    } else {
      assert Plan(users, team, who, r) == [];
    }
  }

  // ----- one request after the other

  predicate ClaimsMatch(users: Users, who: Requester) {
    who.id in users && !users[who.id].isDeleted && users[who.id].role == who.role && users[who.id].subrole == who.subrole
  }

  /** The demotion threw although it had landed, and the rollback demotes the new Submitter as well. */
  predicate LosesBoth(r: Request) {
    r.TransferSubmitter? && r.promote.Done? && r.demote == Threw(true) && Lands(r.rollback)
  }

  /** A transfer all of whose writes succeed, or whose failed write is undone exactly if it did not land. */
  predicate Settles(r: Request) {
    r.TransferSubmitter? ==>
      if r.promote.Threw? then !r.promote.landed
      else r.demote.Done? || r.demote.landed != Lands(r.rollback)
  }

  predicate Transfers(users: Users, team: Team, who: Requester, r: Request) {
    r.TransferSubmitter? && IsSubmitter(team, who) && Transferable(users, team, r.to)
  }

  lemma PromotionAdds(users: Users, team: Team, id: Id)
    requires IsMember(users, team, id)
    ensures AdminsOf(Apply(users, SetSubrole(id, Admin)), team) == AdminsOf(users, team) + {id}
    ensures IsMember(Apply(users, SetSubrole(id, Admin)), team, id)
  {
  }

  lemma DemotionSubtracts(users: Users, team: Team, id: Id, s: Subrole)
    requires s != Admin
    ensures AdminsOf(Apply(users, SetSubrole(id, s)), team) == AdminsOf(users, team) - {id}
  {
  }

  /** The Submitters after each write of a transfer that passed its checks. */
  function AdminsAfter(was: set<Id>, who: Requester, r: Request, i: nat): set<Id>
    requires r.TransferSubmitter?
  {
    if i == 0 then was
    else if i == 1 then was + {r.to}
    else if i == 2 then if Lands(r.demote) then was + {r.to} - {who.id} else was
    else was - {who.id}
  }

  lemma {:induction false} AdminsAlongTransfer(users: Users, team: Team, who: Requester, r: Request, i: nat)
    requires ClaimsMatch(users, who) && Transfers(users, team, who, r) && i <= |Plan(users, team, who, r)|
    ensures AdminsOf(ApplyAll(users, Plan(users, team, who, r)[..i]), team) == AdminsAfter(AdminsOf(users, team), who, r, i)
    ensures who.id in AdminsOf(users, team) && r.to !in AdminsOf(users, team)
    decreases i
  {
    var plan, was := Plan(users, team, who, r), AdminsOf(users, team);
    if i == 0 {
      assert plan[..0] == [];
    } else {
      AdminsAlongTransfer(users, team, who, r, i - 1);
      var before := ApplyAll(users, plan[..i - 1]);
      assert plan[..i][..i - 1] == plan[..i - 1];
      if i == 1 {
        assert plan[..0] == [] && plan[0] == SetSubrole(r.to, Admin);
        PromotionAdds(users, team, r.to);
      } else {
        DemotionSubtracts(before, team, plan[i - 1].id, plan[i - 1].subrole);
      }
    }
  }

  /**
   A transfer leaves a Submitter after each of its writes unless its demotion threw, landed all the same, was followed
   by a rollback that landed, and the requester was the only Submitter.
   */
  lemma {:induction false} TransferKeepsSubmitterExactlyWhen(users: Users, team: Team, who: Requester, r: Request)
    requires ClaimsMatch(users, who) && Transfers(users, team, who, r)
    ensures (forall i: nat :: i <= |Plan(users, team, who, r)| ==> AdminsOf(ApplyAll(users, Plan(users, team, who, r)[..i]), team) != {})
       <==> !(LosesBoth(r) && AdminsOf(users, team) == {who.id})
  {
    var plan, was := Plan(users, team, who, r), AdminsOf(users, team);
    forall i: nat | i <= |plan| ensures AdminsOf(ApplyAll(users, plan[..i]), team) == AdminsAfter(was, who, r, i) {
      AdminsAlongTransfer(users, team, who, r, i);
    }
    AdminsAlongTransfer(users, team, who, r, 0);
    assert r.to in was + {r.to} - {who.id};
    assert was - {who.id} == {} <==> was == {who.id} by {
      if was != {who.id} {
        var other :| other in was && other != who.id;
      }
    }
    assert |plan| == 3 <==> LosesBoth(r);
    if LosesBoth(r) && was == {who.id} {
      assert AdminsOf(ApplyAll(users, plan[..3]), team) == {};
    }
  }

  ghost predicate OneAdmin(users: Users, team: Team) { exists a :: AdminsOf(users, team) == {a} }

  /** Served from one Submitter, a transfer ends with exactly one if and only if it settles. */
  lemma TransferEndsWithOneExactlyWhen(users: Users, team: Team, who: Requester, r: Request)
    requires ClaimsMatch(users, who) && Transfers(users, team, who, r) && OneAdmin(users, team)
    ensures OneAdmin(After(users, team, who, r), team) <==> Settles(r)
  {
    var plan, was := Plan(users, team, who, r), AdminsOf(users, team);
    AdminsAlongTransfer(users, team, who, r, |plan|);
    assert plan[..|plan|] == plan;
    var end := AdminsOf(After(users, team, who, r), team);
    assert was == {who.id};
    if |plan| == 1 {
      assert r.to in end && who.id in end;
    } else if |plan| == 2 && Lands(r.demote) {
      assert end == {r.to};
    }
  }

  /** The write concerns a user who is not one of the team's Submitters and does not become one. */
  predicate Spares(users: Users, w: Write, t: Team) {
    match w
    case Insert(_, u) => u.subrole != Admin
    case SetSubrole(id, s) => id in users ==> users[id].role != Of(t) || (users[id].subrole != Admin && s != Admin)
    case SetRemoved(id) => id !in AdminsOf(users, t)
    case SetRestored(id, _, _) => id !in AdminsOf(users, t)
    case RemoveIfTaken(id, _) => id !in AdminsOf(users, t)
  }

  lemma SparingWriteKeepsAdmins(users: Users, w: Write, t: Team)
    requires Spares(users, w, t)
    ensures AdminsOf(Apply(users, w), t) == AdminsOf(users, t)
  {
  }

  lemma {:induction false} ForeignTransferKeepsAdmins(users: Users, team: Team, who: Requester, r: Request, t: Team,
      i: nat)
    requires ClaimsMatch(users, who) && t != team && r.TransferSubmitter? && i <= |Plan(users, team, who, r)|
    ensures AdminsOf(ApplyAll(users, Plan(users, team, who, r)[..i]), t) == AdminsOf(users, t)
    ensures forall id :: id in {r.to, who.id} && id in users ==>
              id in ApplyAll(users, Plan(users, team, who, r)[..i])
              && ApplyAll(users, Plan(users, team, who, r)[..i])[id].role == users[id].role
    decreases i
  {
    var plan := Plan(users, team, who, r);
    if i == 0 {
      assert plan[..0] == [];
    } else {
      ForeignTransferKeepsAdmins(users, team, who, r, t, i - 1);
      assert plan[..i][..i - 1] == plan[..i - 1];
      SparingWriteKeepsAdmins(ApplyAll(users, plan[..i - 1]), plan[i - 1], t);
    }
  }

  /** Requests other than transfers, and all requests to other teams, leave a team's Submitters alone. */
  lemma OthersKeepAdmins(users: Users, team: Team, who: Requester, r: Request, t: Team)
    requires ClaimsMatch(users, who) && (t != team || !r.TransferSubmitter?)
    ensures AdminsOf(After(users, team, who, r), t) == AdminsOf(users, t)
  {
    var plan := Plan(users, team, who, r);
    if r.TransferSubmitter? {
      ForeignTransferKeepsAdmins(users, team, who, r, t, |plan|);
      assert plan[..|plan|] == plan;
    } else if |plan| == 1 {
      ApplyTwo(users, plan[0], plan[0]);
      assert plan == [plan[0]];
      SparingWriteKeepsAdmins(users, plan[0], t);
    } else if |plan| == 2 {
      ApplyTwo(users, plan[0], plan[1]);
      assert plan == [plan[0], plan[1]];
      SparingWriteKeepsAdmins(users, plan[0], t);
      SparingWriteKeepsAdmins(Apply(users, plan[0]), plan[1], t);
    }
  }

  datatype Served = Served(team: Team, who: Requester, r: Request)

  function AfterRun(users: Users, run: seq<Served>): Users {
    if run == [] then users
    else var s := run[|run| - 1]; After(AfterRun(users, run[..|run| - 1]), s.team, s.who, s.r)
  }

  predicate AllClaimsMatch(users: Users, run: seq<Served>) {
    run == [] ||
    (AllClaimsMatch(users, run[..|run| - 1]) && ClaimsMatch(AfterRun(users, run[..|run| - 1]), run[|run| - 1].who))
  }

  /** As long as every transfer settles, every team has exactly one Submitter after each request. */
  lemma {:induction false} ExactlyOneSubmitter(users: Users, run: seq<Served>, t: Team)
    requires AllClaimsMatch(users, run) && OneAdmin(users, t)
    requires forall i :: 0 <= i < |run| ==> Settles(run[i].r)
    ensures OneAdmin(AfterRun(users, run), t)
  {
    if run != [] {
      ExactlyOneSubmitter(users, run[..|run| - 1], t);
      var s, before := run[|run| - 1], AfterRun(users, run[..|run| - 1]);
      if t == s.team && Transfers(before, s.team, s.who, s.r) {
        TransferEndsWithOneExactlyWhen(before, s.team, s.who, s.r);
      } else if t != s.team || !s.r.TransferSubmitter? {
        OthersKeepAdmins(before, s.team, s.who, s.r, t);
      }
    }
  }

  // ----- requests that overlap

  /** A request that passed its checks, with the writes it still has to do. */
  datatype Flight = Flight(team: Team, plan: seq<Write>)

  datatype World = World(users: Users, flying: map<nat, Flight>)

  /** A request starts with its checks; each of its writes is a step of its own; a member may verify their profile. */
  datatype Step = Start(pid: nat, team: Team, who: Requester, r: Request) | Perform(pid: nat) | Verify(id: Id)

  predicate Enabled(w: World, s: Step) {
    match s
    case Start(pid, _, who, _) => pid !in w.flying && ClaimsMatch(w.users, who)
    case Perform(pid) => pid in w.flying && w.flying[pid].plan != []
    case Verify(id) => id in w.users
  }

  /** A step that is not enabled does not happen. */
  function Next(w: World, s: Step): World {
    if !Enabled(w, s) then w
    else match s
      case Start(pid, team, who, r) => w.(flying := w.flying[pid := Flight(team, Plan(w.users, team, who, r))])
      case Perform(pid) =>
        var f := w.flying[pid];
        World(Apply(w.users, f.plan[0]), w.flying[pid := f.(plan := f.plan[1..])])
      case Verify(id) => w.(users := w.users[id := w.users[id].(verified := true)])
  }

  function AfterSteps(users: Users, steps: seq<Step>): World {
    if steps == [] then World(users, map[]) else Next(AfterSteps(users, steps[..|steps| - 1]), steps[|steps| - 1])
  }

  predicate RestoresUser(plan: seq<Write>, id: Id) { plan != [] && plan[0].SetRestored? && plan[0].id == id }

  predicate RestoresSame(a: seq<Write>, b: seq<Write>) {
    a != [] && b != [] && a[0].SetRestored? && b[0].SetRestored? && a[0].id == b[0].id
  }

  /** No request of the team is in flight, and none of another team about to restore the same user. */
  predicate IsAlone(w: World, team: Team, plan: seq<Write>) {
    forall pid | pid in w.flying && w.flying[pid].plan != [] ::
      w.flying[pid].team != team && !RestoresSame(w.flying[pid].plan, plan)
  }

  /** Every request is alone when it starts, and no transfer loses both its Submitters. */
  predicate Orderly(users: Users, steps: seq<Step>) {
    steps == [] ||
    (var w, s := AfterSteps(users, steps[..|steps| - 1]), steps[|steps| - 1];
     && Orderly(users, steps[..|steps| - 1])
     && (s.Start? && Enabled(w, s) ==> IsAlone(w, s.team, Plan(w.users, s.team, s.who, s.r)) && !LosesBoth(s.r)))
  }

  /** Somebody else than `id` is Submitter. */
  predicate OtherAdmin(users: Users, t: Team, id: Id) { AdminsOf(users, t) - {id} != {} }

  /** The writes still to come are about a live member of the team, a removed user or a new one, and leave a Submitter. */
  predicate PlanOk(users: Users, t: Team, plan: seq<Write>) {
    plan == [] ||
    match plan[0]
    case Insert(_, u) => |plan| == 1 && u.subrole != Admin
    case SetRemoved(id) => |plan| == 1 && IsMember(users, t, id) && OtherAdmin(users, t, id)
    case RemoveIfTaken(id, _) => |plan| == 1 && IsMember(users, t, id) && OtherAdmin(users, t, id)
    case SetRestored(id, team, _) =>
      |plan| == 2 && team == t && id in users && users[id].isDeleted && plan[1].RemoveIfTaken? && plan[1].id == id
    case SetSubrole(id, Admin) =>
      IsMember(users, t, id)
      && (|plan| == 1 || (|plan| == 2 && plan[1].SetSubrole? && plan[1].subrole != Admin && IsMember(users, t, plan[1].id)
                          && (plan[1].id != id || OtherAdmin(users, t, id))))
    case SetSubrole(id, _) => |plan| == 1 && IsMember(users, t, id) && OtherAdmin(users, t, id)
  }

  predicate WorldOk(w: World) {
    && (forall t :: AdminsOf(w.users, t) != {})
    && (forall pid :: pid in w.flying ==> PlanOk(w.users, w.flying[pid].team, w.flying[pid].plan))
    && (forall p, q :: p in w.flying && q in w.flying && p != q && w.flying[p].plan != [] && w.flying[q].plan != [] ==>
          w.flying[p].team != w.flying[q].team && !RestoresSame(w.flying[p].plan, w.flying[q].plan))
  }

  lemma StartIsOk(users: Users, team: Team, who: Requester, r: Request)
    requires ClaimsMatch(users, who) && !LosesBoth(r)
    ensures PlanOk(users, team, Plan(users, team, who, r))
  {
    var plan := Plan(users, team, who, r);
    if plan != [] {
      assert who.id in AdminsOf(users, team);
      assert plan[0].SetSubrole? && plan[0].id != who.id ==> who.id in AdminsOf(users, team) - {plan[0].id};
      assert plan[0].SetRemoved? ==> who.id in AdminsOf(users, team) - {plan[0].id};
    }
  }

  /** A team's next write keeps its own Submitter and the rest of its plan sound. */
  lemma OwnWriteIsOk(users: Users, t: Team, plan: seq<Write>)
    requires PlanOk(users, t, plan) && plan != [] && AdminsOf(users, t) != {}
    ensures AdminsOf(Apply(users, plan[0]), t) != {} && PlanOk(Apply(users, plan[0]), t, plan[1..])
  {
    var users', w := Apply(users, plan[0]), plan[0];
    match w
    case SetSubrole(id, s) =>
      if s == Admin {
        PromotionAdds(users, t, id);
        if |plan| == 2 { assert plan[1].id != id ==> id in AdminsOf(users', t) - {plan[1].id}; }
      } else {
        DemotionSubtracts(users, t, id, s);
      }
    case SetRestored(id, _, _) =>
      SparingWriteKeepsAdmins(users, w, t);
      assert id !in AdminsOf(users, t);
    case Insert(_, _) => SparingWriteKeepsAdmins(users, w, t);
    case SetRemoved(id) => assert AdminsOf(users', t) == AdminsOf(users, t) - {id};
    case RemoveIfTaken(id, _) =>
      var a :| a in AdminsOf(users, t) - {id};
      assert a in AdminsOf(users', t);
  }

  /** A write of one team touches neither the Submitters nor the plan of another. */
  lemma ForeignWriteIsOk(users: Users, t: Team, plan: seq<Write>, t': Team, plan': seq<Write>)
    requires PlanOk(users, t, plan) && plan != [] && t' != t && PlanOk(users, t', plan') && !RestoresSame(plan, plan')
    ensures AdminsOf(Apply(users, plan[0]), t') == AdminsOf(users, t') && PlanOk(Apply(users, plan[0]), t', plan')
  {
    var users' := Apply(users, plan[0]);
    ForeignWriteKeepsMembers(users, t, plan, t');
    if plan' != [] && plan'[0].SetRestored? {
      assert users'[plan'[0].id].isDeleted;
    }
  }

  lemma ForeignWriteKeepsMembers(users: Users, t: Team, plan: seq<Write>, t': Team)
    requires PlanOk(users, t, plan) && plan != [] && t' != t
    ensures AdminsOf(Apply(users, plan[0]), t') == AdminsOf(users, t')
    ensures forall id :: IsMember(users, t', id) ==> IsMember(Apply(users, plan[0]), t', id)
    ensures forall id :: id in users && users[id].isDeleted && !RestoresUser(plan, id) ==>
              id in Apply(users, plan[0]) && Apply(users, plan[0])[id].isDeleted
  {
    SparingWriteKeepsAdmins(users, plan[0], t');
  }

  lemma PerformKeepsWorldOk(w: World, pid: nat)
    requires WorldOk(w) && Enabled(w, Perform(pid))
    ensures WorldOk(Next(w, Perform(pid)))
  {
    var f, w' := w.flying[pid], Next(w, Perform(pid));
    OwnWriteIsOk(w.users, f.team, f.plan);
    forall t | t != f.team ensures AdminsOf(w'.users, t) != {} {
      ForeignWriteIsOk(w.users, f.team, f.plan, t, []);
    }
    forall p | p in w'.flying ensures PlanOk(w'.users, w'.flying[p].team, w'.flying[p].plan) {
      if p != pid && w.flying[p].plan != [] {
        ForeignWriteIsOk(w.users, f.team, f.plan, w.flying[p].team, w.flying[p].plan);
      }
    }
    assert |f.plan| <= 2;
  }

  lemma VerifyKeepsPlanOk(users: Users, id: Id, t: Team, plan: seq<Write>)
    requires id in users && PlanOk(users, t, plan)
    ensures var users' := users[id := users[id].(verified := true)];
            AdminsOf(users', t) == AdminsOf(users, t) && PlanOk(users', t, plan)
  {
  }

  lemma StepKeepsWorldOk(w: World, s: Step)
    requires WorldOk(w)
    requires s.Start? && Enabled(w, s) ==> IsAlone(w, s.team, Plan(w.users, s.team, s.who, s.r)) && !LosesBoth(s.r)
    ensures WorldOk(Next(w, s))
  {
    if Enabled(w, s) {
      match s
      case Start(_, team, who, r) => StartIsOk(w.users, team, who, r);
      case Perform(pid) => PerformKeepsWorldOk(w, pid);
      case Verify(id) =>
        forall t ensures AdminsOf(Next(w, s).users, t) == AdminsOf(w.users, t) { VerifyKeepsPlanOk(w.users, id, t, []); }
        forall pid | pid in w.flying ensures PlanOk(Next(w, s).users, w.flying[pid].team, w.flying[pid].plan) {
          VerifyKeepsPlanOk(w.users, id, w.flying[pid].team, w.flying[pid].plan);
        }
    }
  }

  /**
   If no request starts while another of its team, or another restore of the same user, is in flight, and no transfer
   loses both its Submitters, then after every single write every team has a Submitter, whatever else is in flight.
   */
  lemma {:induction false} OrderlyRunsKeepSubmitters(users: Users, steps: seq<Step>)
    requires (forall t :: AdminsOf(users, t) != {}) && Orderly(users, steps)
    ensures WorldOk(AfterSteps(users, steps))
    ensures forall t :: AdminsOf(AfterSteps(users, steps).users, t) != {}
  {
    if steps != [] {
      OrderlyRunsKeepSubmitters(users, steps[..|steps| - 1]);
      StepKeepsWorldOk(AfterSteps(users, steps[..|steps| - 1]), steps[|steps| - 1]);
    }
  }

  // ----- what goes wrong otherwise

  lemma {:induction false} NextStep(users: Users, steps: seq<Step>, s: Step)
    ensures AfterSteps(users, []) == World(users, map[])
    ensures AfterSteps(users, steps + [s]) == Next(AfterSteps(users, steps), s)
  {
    assert (steps + [s])[..|steps|] == steps;
  }

  lemma AfterPerform(w: World, pid: nat, team: Team, first: Write, rest: seq<Write>)
    requires pid in w.flying && w.flying[pid] == Flight(team, [first] + rest)
    ensures Next(w, Perform(pid)) == World(Apply(w.users, first), w.flying[pid := Flight(team, rest)])
  {
    assert ([first] + rest)[1..] == rest;
  }

  function Twice(pid: nat): seq<Step> { [Perform(pid), Perform(pid)] }

  lemma {:induction false} AfterTwo(w: World, users: Users, steps: seq<Step>, pid: nat, team: Team, first: Write,
      second: Write)
    requires AfterSteps(users, steps) == w && pid in w.flying && w.flying[pid] == Flight(team, [first, second])
    ensures AfterSteps(users, steps + Twice(pid))
         == World(Apply(Apply(w.users, first), second), w.flying[pid := Flight(team, [])])
  {
    NextStep(users, steps, Perform(pid));
    NextStep(users, steps + [Perform(pid)], Perform(pid));
    assert steps + Twice(pid) == steps + [Perform(pid)] + [Perform(pid)];
    assert [first, second] == [first] + [second] && [second] == [second] + [];
    AfterPerform(w, pid, team, first, [second]);
    AfterPerform(Next(w, Perform(pid)), pid, team, second, []);
    assert w.flying[pid := Flight(team, [second])][pid := Flight(team, [])] == w.flying[pid := Flight(team, [])];
  }

  /** Two requests that are both checked before either writes. */
  lemma {:induction false} AfterStarts(users: Users, team1: Team, who1: Requester, r1: Request, team2: Team,
      who2: Requester, r2: Request)
    requires ClaimsMatch(users, who1) && ClaimsMatch(users, who2)
    ensures AfterSteps(users, [Start(1, team1, who1, r1)] + [Start(2, team2, who2, r2)])
         == World(users, map[1 := Flight(team1, Plan(users, team1, who1, r1)), 2 := Flight(team2, Plan(users, team2, who2, r2))])
  {
    var s1, s2 := Start(1, team1, who1, r1), Start(2, team2, who2, r2);
    NextStep(users, [], s1);
    assert [] + [s1] == [s1];
    NextStep(users, [s1], s2);
  }

  function PlainTransfer(to: Id): Request { TransferSubmitter(to, Done, Done, Done) }

  lemma PlainTransferPlan(users: Users, team: Team, who: Requester, to: Id)
    requires IsSubmitter(team, who) && Transferable(users, team, to)
    ensures Plan(users, team, who, PlainTransfer(to)) == [SetSubrole(to, Admin), SetSubrole(who.id, Reviewer)]
  {
  }

  /** A removal served between the check of a transfer and its two writes. */
  function RemovalInBetween(team: Team, who: Requester, to: Id): seq<Step> {
    [Start(1, team, who, PlainTransfer(to))] + [Start(2, team, who, RemoveMember(to))] + [Perform(2)] + Twice(1)
  }

  lemma PromotingRemovedMember(users: Users, team: Team, a: Id, to: Id)
    requires AdminsOf(users, team) == {a} && IsMember(users, team, to) && to != a
    ensures AdminsOf(Apply(Apply(Removed(users, to), SetSubrole(to, Admin)), SetSubrole(a, Reviewer)), team) == {}
  {
    var users1 := Removed(users, to);
    var users2 := Apply(users1, SetSubrole(to, Admin));
    assert AdminsOf(users1, team) == {a};
    assert AdminsOf(users2, team) == {a};
    DemotionSubtracts(users2, team, a, Reviewer);
  }

  /**
   In every team, one transfer and one removal are enough to lose the Submitter: the writes of the transfer do not look
   at whether the member they promote is still there.
   */
  lemma {:induction false} RemovalInBetweenLosesSubmitter(users: Users, team: Team, who: Requester, to: Id)
    requires ClaimsMatch(users, who) && IsSubmitter(team, who) && AdminsOf(users, team) == {who.id}
    requires Transferable(users, team, to)
    ensures AdminsOf(AfterSteps(users, RemovalInBetween(team, who, to)).users, team) == {}
  {
    var s1, s2 := Start(1, team, who, PlainTransfer(to)), Start(2, team, who, RemoveMember(to));
    var promote, demote := SetSubrole(to, Admin), SetSubrole(who.id, Reviewer);
    PlainTransferPlan(users, team, who, to);
    AfterStarts(users, team, who, PlainTransfer(to), team, who, RemoveMember(to));
    var w2 := World(users, map[1 := Flight(team, [promote, demote]), 2 := Flight(team, [SetRemoved(to)])]);
    NextStep(users, [s1] + [s2], Perform(2));
    assert [SetRemoved(to)] == [SetRemoved(to)] + [];
    AfterPerform(w2, 2, team, SetRemoved(to), []);
    AfterTwo(Next(w2, Perform(2)), users, [s1] + [s2] + [Perform(2)], 1, team, promote, demote);
    PromotingRemovedMember(users, team, who.id, to);
  }

  function RestoreOf(x: Id, email: string): Request { InviteMember(email, true, true, Restore, x) }

  /** Team `b` checks the restore of a user; team `a` restores the same user, who then verifies. */
  function RestoreTwice(a: Team, whoA: Requester, b: Team, whoB: Requester, x: Id, email: string): seq<Step> {
    [Start(1, b, whoB, RestoreOf(x, email))] + [Start(2, a, whoA, RestoreOf(x, email))] + Twice(2) + [Verify(x)]
  }

  /** Thereupon team `a` transfers to that user, and only now team `b` writes. */
  function RestoreInBetween(a: Team, whoA: Requester, b: Team, whoB: Requester, x: Id, email: string): seq<Step> {
    RestoreTwice(a, whoA, b, whoB, x, email) + [Start(3, a, whoA, PlainTransfer(x))] + Twice(3) + [Perform(1)]
  }

  lemma RestorePlan(users: Users, team: Team, who: Requester, x: Id, email: string)
    requires IsSubmitter(team, who) && RemovedWith(users, x, email) && !EmailActive(users, email)
    ensures Plan(users, team, who, RestoreOf(x, email)) == [SetRestored(x, team, true), RemoveIfTaken(x, email)]
    ensures Apply(Apply(users, SetRestored(x, team, true)), RemoveIfTaken(x, email)) == users[x := Restored(users[x], team, true)]
  {
    RestoreIsNotTaken(users, x, team, true, email);
    ApplyTwo(users, SetRestored(x, team, true), RemoveIfTaken(x, email));
  }

  lemma {:induction false} AfterRestoreTwice(users: Users, a: Team, whoA: Requester, b: Team, whoB: Requester, x: Id,
      email: string)
    requires ClaimsMatch(users, whoA) && IsSubmitter(a, whoA) && ClaimsMatch(users, whoB) && IsSubmitter(b, whoB)
    requires RemovedWith(users, x, email) && !EmailActive(users, email)
    ensures AfterSteps(users, RestoreTwice(a, whoA, b, whoB, x, email)) ==
              World(users[x := Restored(users[x], a, true).(verified := true)],
                    map[1 := Flight(b, [SetRestored(x, b, true), RemoveIfTaken(x, email)]), 2 := Flight(a, [])])
  {
    var guard := RemoveIfTaken(x, email);
    RestorePlan(users, a, whoA, x, email);
    RestorePlan(users, b, whoB, x, email);
    AfterStarts(users, b, whoB, RestoreOf(x, email), a, whoA, RestoreOf(x, email));
    var starts := [Start(1, b, whoB, RestoreOf(x, email))] + [Start(2, a, whoA, RestoreOf(x, email))];
    var planA, planB := [SetRestored(x, a, true), guard], [SetRestored(x, b, true), guard];
    AfterTwo(World(users, map[1 := Flight(b, planB), 2 := Flight(a, planA)]), users, starts, 2, a, SetRestored(x, a, true), guard);
    NextStep(users, starts + Twice(2), Verify(x));
  }

  lemma RestoredIsTransferable(users: Users, team: Team, who: Requester, x: Id)
    requires ClaimsMatch(users, who) && IsSubmitter(team, who) && AdminsOf(users, team) == {who.id}
    requires x in users && users[x].isDeleted
    ensures var users' := users[x := Restored(users[x], team, true).(verified := true)];
            AdminsOf(users', team) == {who.id} && ClaimsMatch(users', who) && Transferable(users', team, x)
  {
    var users' := users[x := Restored(users[x], team, true).(verified := true)];
    assert forall id :: id in AdminsOf(users', team) <==> id in AdminsOf(users, team);
  }

  lemma LateRestoreTakesSubmitter(users: Users, a: Team, b: Team, who: Id, x: Id)
    requires AdminsOf(users, a) == {who} && IsMember(users, a, x) && x != who && b != a
    ensures AdminsOf(Apply(Apply(Apply(users, SetSubrole(x, Admin)), SetSubrole(who, Reviewer)), SetRestored(x, b, true)), a) == {}
  {
    var users2 := Apply(Apply(users, SetSubrole(x, Admin)), SetSubrole(who, Reviewer));
    PromotionAdds(users, a, x);
    DemotionSubtracts(Apply(users, SetSubrole(x, Admin)), a, who, Reviewer);
    assert AdminsOf(users2, a) == {x};
    assert forall id :: id in AdminsOf(Apply(users2, SetRestored(x, b, true)), a) ==> id in AdminsOf(users2, a) && id != x;
  }

  /** Two teams that restore the same user overlap: the later write takes the other team's new Submitter away. */
  lemma {:induction false} RestoreInBetweenLosesSubmitter(users: Users, a: Team, whoA: Requester, b: Team,
      whoB: Requester, x: Id, email: string)
    requires a != b && ClaimsMatch(users, whoA) && IsSubmitter(a, whoA) && AdminsOf(users, a) == {whoA.id}
    requires ClaimsMatch(users, whoB) && IsSubmitter(b, whoB)
    requires RemovedWith(users, x, email) && !EmailActive(users, email)
    ensures AdminsOf(AfterSteps(users, RestoreInBetween(a, whoA, b, whoB, x, email)).users, a) == {}
  {
    var s3, guard := Start(3, a, whoA, PlainTransfer(x)), RemoveIfTaken(x, email);
    var steps := RestoreTwice(a, whoA, b, whoB, x, email);
    AfterRestoreTwice(users, a, whoA, b, whoB, x, email);
    RestoredIsTransferable(users, a, whoA, x);
    var users5 := users[x := Restored(users[x], a, true).(verified := true)];
    PlainTransferPlan(users5, a, whoA, x);
    NextStep(users, steps, s3);
    var w6 := AfterSteps(users, steps + [s3]);
    AfterTwo(w6, users, steps + [s3], 3, a, SetSubrole(x, Admin), SetSubrole(whoA.id, Reviewer));
    NextStep(users, steps + [s3] + Twice(3), Perform(1));
    assert [SetRestored(x, b, true), guard] == [SetRestored(x, b, true)] + [guard];
    AfterPerform(AfterSteps(users, steps + [s3] + Twice(3)), 1, b, SetRestored(x, b, true), [guard]);
    LateRestoreTakesSubmitter(users5, a, b, whoA.id, x);
  }
}
