/**
 * The group controller of the HTTP server: groups and their membership rows, with the permission
 * decision each handler makes over a group's members before it writes to the tables.
 *
 * A group's membership rows are a map from user id to role (the rows are unique per (user, group)).
 * Every handler first looks the group up (404 when it is missing); the caller's role is the role of
 * the caller's row, absent when the caller has none.
 */
module Groups {
  import opened Common
  import opened Http

  type UserId = string
  type GroupId = string

  datatype Group = Group(name: string, description: string, ownerId: UserId)

  /** A group as the handlers return it, with its membership rows. */
  datatype GroupView = GroupView(id: GroupId, group: Group, members: map<UserId, string>)

  /** One membership row as `addMember` and `updateMemberRole` return it. */
  datatype MemberRow = MemberRow(userId: UserId, groupId: GroupId, role: string)

  /** `members.find(m => m.userId === u)?.role` */
  function RoleOf(members: map<UserId, string>, u: UserId): Option<string>
  {
    if u in members then Some(members[u]) else None
  }

  /** The roles that may edit a group and manage its members. */
  predicate CanManage(role: Option<string>)
  {
    role == Some(OWNER) || role == Some(ADMIN)
  }

  /** Every `OWNER` row of `before` is still there, still `OWNER`, in `after`. */
  ghost predicate OwnersKept(before: map<GroupId, map<UserId, string>>, after: map<GroupId, map<UserId, string>>)
  {
    forall g, u :: g in before && u in before[g] && before[g][u] == OWNER ==>
      g in after && u in after[g] && after[g][u] == OWNER
  }

  class GroupTable {
    var groups: map<GroupId, Group>
    var members: map<GroupId, map<UserId, string>>

    /** Every group has its rows, and its creator keeps an `OWNER` row for as long as it exists. */
    ghost predicate Valid()
      reads this
    {
      && groups.Keys == members.Keys
      && forall g :: g in groups ==> groups[g].ownerId in members[g] && members[g][groups[g].ownerId] == OWNER
    }

    constructor ()
      ensures Valid() && groups == map[] && members == map[]
    {
      groups := map[];
      members := map[];
    }

    /**
     * `createGroup`: the group and its creator's `OWNER` row are created together. The id comes from
     * the database; an id already in use fails the insert.
     */
    method CreateGroup(caller: UserId, name: string, description: string, newId: GroupId) returns (reply: Reply<GroupView>)
      requires Valid()
      modifies this
      ensures Valid()
      ensures OwnersKept(old(members), members)
      ensures newId in old(groups) ==> reply == ServerError() && groups == old(groups) && members == old(members)
      ensures newId !in old(groups) ==>
        && groups == old(groups)[newId := Group(name, description, caller)]
        && members == old(members)[newId := map[caller := OWNER]]
        && reply == Reply(201, Data(GroupView(newId, Group(name, description, caller), map[caller := OWNER])))
    {
      if newId in groups {
        return ServerError();
      }
      var group := Group(name, description, caller);
      groups := groups[newId := group];
      members := members[newId := map[caller := OWNER]];
      reply := Reply(201, Data(GroupView(newId, group, members[newId])));
    }

    /** `getGroup`: a missing group and a caller who is not a member both answer 404. */
    method GetGroup(caller: UserId, g: GroupId) returns (reply: Reply<GroupView>)
      requires Valid()
      ensures reply.status == 404 <==> g !in groups || caller !in members[g]
      ensures g !in groups ==> reply == Reply(404, Message("Group not found"))
      ensures g in groups && caller !in members[g] ==> reply == Reply(404, Message("You are not a member of this group"))
      ensures g in groups && caller in members[g] ==> reply == Reply(200, Data(GroupView(g, groups[g], members[g])))
    {
      if g !in groups {
        return Reply(404, Message("Group not found"));
      }
      var isMember := caller in members[g];
      if !isMember {
        return Reply(404, Message("You are not a member of this group"));
      }
      reply := Reply(200, Data(GroupView(g, groups[g], members[g])));
    }

    /** `updateGroup`: only an `OWNER` or `ADMIN` row may rename; only name and description change. */
    method UpdateGroup(caller: UserId, g: GroupId, name: string, description: string) returns (reply: Reply<(GroupId, Group)>)
      requires Valid()
      modifies this
      ensures Valid()
      ensures members == old(members)
      ensures g !in old(groups) ==> reply == Reply(404, Message("Group not found")) && groups == old(groups)
      ensures g in old(groups) && !CanManage(RoleOf(old(members)[g], caller)) ==>
        reply == Reply(403, Message("You do not have permission to update this group")) && groups == old(groups)
      ensures g in old(groups) && CanManage(RoleOf(old(members)[g], caller)) ==>
        && groups == old(groups)[g := old(groups)[g].(name := name, description := description)]
        && reply == Reply(200, Data((g, groups[g])))
    {
      if g !in groups {
        return Reply(404, Message("Group not found"));
      }
      var userRole := RoleOf(members[g], caller);
      if userRole != Some(OWNER) && userRole != Some(ADMIN) {
        return Reply(403, Message("You do not have permission to update this group"));
      }
      groups := groups[g := groups[g].(name := name, description := description)];
      reply := Reply(200, Data((g, groups[g])));
    }

    /** `deleteGroup`: only an `OWNER` row may delete; the rows and the group go together. */
    method DeleteGroup(caller: UserId, g: GroupId) returns (reply: Reply<()>)
      requires Valid()
      modifies this
      ensures Valid()
      ensures g !in old(groups) ==> reply == Reply(404, Message("Group not found")) && unchanged(this)
      ensures g in old(groups) && RoleOf(old(members)[g], caller) != Some(OWNER) ==>
        reply == Reply(403, Message("Only the group owner can delete the group")) && unchanged(this)
      ensures g in old(groups) && RoleOf(old(members)[g], caller) == Some(OWNER) ==>
        && reply == Reply(204, NoBody)
        && groups == old(groups) - {g}
        && members == old(members) - {g}
    {
      if g !in groups {
        return Reply(404, Message("Group not found"));
      }
      var userRole := RoleOf(members[g], caller);
      if userRole != Some(OWNER) {
        return Reply(403, Message("Only the group owner can delete the group"));
      }
      members := members - {g};
      groups := groups - {g};
      reply := Reply(204, NoBody);
    }

    /**
     * `addMember`: an `OWNER` or `ADMIN` adds a row whose role is always `MEMBER`; a target that
     * already has a row fails the unique (user, group) key.
     */
    method AddMember(caller: UserId, g: GroupId, target: UserId) returns (reply: Reply<MemberRow>)
      requires Valid()
      modifies this`members
      ensures Valid()
      ensures OwnersKept(old(members), members)
      ensures g !in old(groups) ==> reply == Reply(404, Message("Group not found")) && members == old(members)
      ensures g in old(groups) && !CanManage(RoleOf(old(members)[g], caller)) ==>
        reply == Reply(403, Message("You do not have permission to add members to this group")) && members == old(members)
      ensures g in old(groups) && CanManage(RoleOf(old(members)[g], caller)) && target in old(members)[g] ==>
        reply == ServerError() && members == old(members)
      ensures g in old(groups) && CanManage(RoleOf(old(members)[g], caller)) && target !in old(members)[g] ==>
        && members == old(members)[g := old(members)[g][target := MEMBER]]
        && reply == Reply(201, Data(MemberRow(target, g, MEMBER)))
    {
      if g !in groups {
        return Reply(404, Message("Group not found"));
      }
      var currentUserRole := RoleOf(members[g], caller);
      if currentUserRole != Some(OWNER) && currentUserRole != Some(ADMIN) {
        return Reply(403, Message("You do not have permission to add members to this group"));
      }
      if target in members[g] {
        return ServerError();
      }
      members := members[g := members[g][target := MEMBER]];
      reply := Reply(201, Data(MemberRow(target, g, MEMBER)));
    }

    /**
     * `removeMember`, in the source's order: a missing group, then a target without a row (404);
     * then a caller who is neither `OWNER`/`ADMIN` nor the target, then an `OWNER` target (403);
     * otherwise exactly the target's row is deleted.
     */
    method RemoveMember(caller: UserId, g: GroupId, target: UserId) returns (reply: Reply<()>)
      requires Valid()
      modifies this`members
      ensures Valid()
      ensures OwnersKept(old(members), members)
      ensures g !in old(groups) ==> reply == Reply(404, Message("Group not found")) && members == old(members)
      ensures g in old(groups) && target !in old(members)[g] ==>
        reply == Reply(404, Message("Member not found in the group")) && members == old(members)
      ensures g in old(groups) && target in old(members)[g] && !CanManage(RoleOf(old(members)[g], caller)) && caller != target ==>
        reply == Reply(403, Message("You do not have permission to remove this member")) && members == old(members)
      ensures g in old(groups) && target in old(members)[g] && (CanManage(RoleOf(old(members)[g], caller)) || caller == target)
              && old(members)[g][target] == OWNER ==>
        reply == Reply(403, Message(" The owner cannot be removed from the group")) && members == old(members)
      ensures g in old(groups) && target in old(members)[g] && (CanManage(RoleOf(old(members)[g], caller)) || caller == target)
              && old(members)[g][target] != OWNER ==>
        reply == Reply(204, NoBody) && members == old(members)[g := old(members)[g] - {target}]
    {
      if g !in groups {
        return Reply(404, Message("Group not found"));
      }
      var currentUserRole := RoleOf(members[g], caller);
      if target !in members[g] {
        return Reply(404, Message("Member not found in the group"));
      }
      if currentUserRole != Some(OWNER) && currentUserRole != Some(ADMIN) && caller != target {
        return Reply(403, Message("You do not have permission to remove this member"));
      }
      if members[g][target] == OWNER {
        return Reply(403, Message(" The owner cannot be removed from the group"));
      }
      members := members[g := members[g] - {target}];
      reply := Reply(204, NoBody);
    }

    /**
     * `updateMemberRole`: a missing group or target row answers 404; a caller who is not
     * `OWNER`/`ADMIN`, or an `OWNER` target, answers 403; otherwise the target's row takes the
     * requested role as given, whatever string it is.
     */
    method UpdateMemberRole(caller: UserId, g: GroupId, target: UserId, role: string) returns (reply: Reply<MemberRow>)
      requires Valid()
      modifies this`members
      ensures Valid()
      ensures OwnersKept(old(members), members)
      ensures g !in old(groups) ==> reply == Reply(404, Message("Group not found")) && members == old(members)
      ensures g in old(groups) && target !in old(members)[g] ==>
        reply == Reply(404, Message("Member not found in group")) && members == old(members)
      ensures g in old(groups) && target in old(members)[g] && !CanManage(RoleOf(old(members)[g], caller)) ==>
        reply == Reply(403, ErrorText("You do not have permission to update member roles")) && members == old(members)
      ensures g in old(groups) && target in old(members)[g] && CanManage(RoleOf(old(members)[g], caller))
              && old(members)[g][target] == OWNER ==>
        reply == Reply(403, ErrorText("The owner's role cannot be changed")) && members == old(members)
      ensures g in old(groups) && target in old(members)[g] && CanManage(RoleOf(old(members)[g], caller))
              && old(members)[g][target] != OWNER ==>
        reply == Reply(200, Data(MemberRow(target, g, role))) && members == old(members)[g := old(members)[g][target := role]]
    {
      if g !in groups {
        return Reply(404, Message("Group not found"));
      }
      var currentUserRole := RoleOf(members[g], caller);
      if target !in members[g] {
        return Reply(404, Message("Member not found in group"));
      }
      if currentUserRole != Some(OWNER) && currentUserRole != Some(ADMIN) {
        return Reply(403, ErrorText("You do not have permission to update member roles"));
      }
      if members[g][target] == OWNER {
        return Reply(403, ErrorText("The owner's role cannot be changed"));
      }
      members := members[g := members[g][target := role]];
      reply := Reply(200, Data(MemberRow(target, g, role)));
    }

    /** `getGroupMembers`: unlike `getGroup`, a caller who is not a member gets 403. */
    method GetGroupMembers(caller: UserId, g: GroupId) returns (reply: Reply<map<UserId, string>>)
      requires Valid()
      ensures g !in groups ==> reply == Reply(404, Message("Group not found"))
      ensures g in groups && caller !in members[g] ==> reply == Reply(403, Message("You are not member of this group"))
      ensures g in groups && caller in members[g] ==> reply == Reply(200, Data(members[g]))
    {
      if g !in groups {
        return Reply(404, Message("Group not found"));
      }
      if caller !in members[g] {
        return Reply(403, Message("You are not member of this group"));
      }
      reply := Reply(200, Data(members[g]));
    }
  }

  /**
   * The requested role is not checked, so an `OWNER` or `ADMIN` can make any other member an `OWNER`,
   * after which neither owner can be removed or re-roled.
   */
  method SecondOwnerScenario() returns (creatorRole: string, promotedRole: string, removal: int)
    ensures creatorRole == OWNER && promotedRole == OWNER
    ensures removal == 403
  {
    var t := new GroupTable();
    var _ := t.CreateGroup("alice", "club", "", "g1");
    var _ := t.AddMember("alice", "g1", "bob");
    var _ := t.UpdateMemberRole("alice", "g1", "bob", OWNER);
    var r := t.RemoveMember("alice", "g1", "bob");
    creatorRole := t.members["g1"]["alice"];
    promotedRole := t.members["g1"]["bob"];
    removal := r.status;
  }

  /** A caller without a row is told the group is missing by `getGroup` but forbidden by `getGroupMembers`. */
  method OutsiderReads() returns (outsiderRead: int, outsiderList: int)
    ensures outsiderRead == 404 && outsiderList == 403
  {
    var t := new GroupTable();
    var _ := t.CreateGroup("alice", "club", "", "g1");
    var v := t.GetGroup("erin", "g1");
    outsiderRead := v.status;
    var w := t.GetGroupMembers("erin", "g1");
    outsiderList := w.status;
  }
}
