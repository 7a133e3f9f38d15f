/**
 * The role table of the RBAC settings page (settings-rbac.js): a list of
 * roles, each with six permission flags, edited through `prompt`/`confirm`
 * dialogs whose answers are parameters here.
 */
module Rbac {

  import opened Common
  import opened JsTables

  /** The six permission switches of a role, in the order the edit dialog asks for them. */
  datatype Permissions = Permissions(mapping: bool, ctrl: bool, samp: bool, publish: bool, secrets: bool, dual: bool)

  const NoPermissions := Permissions(false, false, false, false, false, false)

  datatype Role = Role(id: Id, role: string, perms: Permissions)

  function SeedRoles(): seq<Role>
  {
    [ Role(Num(1), "Global Admin", Permissions(true, true, true, true, true, true)),
      Role(Num(2), "Regional Manager", Permissions(true, true, true, true, false, true)),
      Role(Num(3), "Site Operator", Permissions(true, true, false, false, false, true)),
      Role(Num(4), "Viewer", NoPermissions),
      Role(Num(5), "Security", Permissions(false, false, false, false, false, true)) ]
  }

  function Ids(roles: seq<Role>): (r: seq<Id>)
    ensures |r| == |roles| && forall i :: 0 <= i < |roles| ==> r[i] == roles[i].id
  {
    seq(|roles|, i requires 0 <= i < |roles| => roles[i].id)
  }

  /** The role `newRole` appends: the next id, the prompted name or 'Custom Role', and no permission. */
  function NewRoleRow(roles: seq<Role>, answer: Option<string>): (r: Role)
    ensures r.perms == NoPermissions
    ensures r.role == PromptOr(answer, "Custom Role")
  {
    Role(NextId(Ids(roles)), PromptOr(answer, "Custom Role"), NoPermissions)
  }

  /** While some role has a numeric id, the appended role's id differs from every existing one. */
  lemma NewRoleIdFresh(roles: seq<Role>, answer: Option<string>)
    requires exists i :: 0 <= i < |roles| && roles[i].id.Num?
    ensures NewRoleRow(roles, answer).id.Num?
    ensures forall i :: 0 <= i < |roles| ==> roles[i].id != NewRoleRow(roles, answer).id
  {
    var ids := Ids(roles);
    var k :| 0 <= k < |roles| && roles[k].id.Num?;
    assert ids[k].Num?;
    NextIdFresh(ids);
  }

  /** `editRole`: the first role with the id gets the new name and flags; an unknown id or a cancelled name changes nothing. */
  function EditedRoles(roles: seq<Role>, id: Id, name: Option<string>, perms: Permissions): (r: seq<Role>)
    ensures |r| == |roles|
    ensures name.None? ==> r == roles
    ensures (forall i :: 0 <= i < |roles| ==> roles[i].id != id) ==> r == roles
    ensures name.Some? ==> forall i :: 0 <= i < |roles| && roles[i].id == id && (forall j :: 0 <= j < i ==> roles[j].id != id) ==>
      r[i] == Role(id, name.value, perms) && forall j :: 0 <= j < |roles| && j != i ==> r[j] == roles[j]
  {
    match IndexWhere(roles, (x: Role) => x.id == id)
    case None => roles
    case Some(i) =>
      if name.None? then roles else roles[i := roles[i].(role := name.value, perms := perms)]
  }

  /** `roles.filter(r => r.id !== id)`. */
  function WithoutRole(roles: seq<Role>, id: Id): (r: seq<Role>)
    ensures forall i :: 0 <= i < |r| ==> r[i].id != id && r[i] in roles
    ensures forall i :: 0 <= i < |roles| && roles[i].id != id ==> roles[i] in r
  {
    Filter(roles, (x: Role) => x.id != id)
  }

  /** Deleting from two halves of the table keeps the survivors of the first half before those of the second. */
  lemma WithoutRoleKeepsOrder(a: seq<Role>, b: seq<Role>, id: Id)
    ensures WithoutRole(a + b, id) == WithoutRole(a, id) + WithoutRole(b, id)
  {
    FilterAppend(a, b, (x: Role) => x.id != id);
  }

  /** The seed roles carry the distinct ids 1..5. */
  lemma SeedIdsDistinct()
    ensures forall i, j :: 0 <= i < j < |SeedRoles()| ==> SeedRoles()[i].id != SeedRoles()[j].id
    ensures forall i :: 0 <= i < |SeedRoles()| ==> SeedRoles()[i].id == Num(i + 1)
  {
  }

  class RoleTable {
    var roles: seq<Role>

    constructor ()
      ensures roles == SeedRoles()
    {
      roles := SeedRoles();
    }

    /** `newRole`: the table grows by exactly one role at the end. */
    method NewRole(answer: Option<string>)
      modifies this
      ensures roles == old(roles) + [NewRoleRow(old(roles), answer)]
    {
      roles := roles + [NewRoleRow(roles, answer)];
    }

    /**
     * `editRole`: `name` is the rename prompt's answer (None when cancelled),
     * `perms` the six confirm answers, asked only after a name was given.
     */
    method EditRole(id: Id, name: Option<string>, perms: Permissions)
      modifies this
      ensures roles == EditedRoles(old(roles), id, name, perms)
    {
      var found := IndexWhere(roles, (x: Role) => x.id == id);
      if found.None? {
        return;
      }
      if name.Some? {
        var i := found.value;
        roles := roles[i := roles[i].(role := name.value, perms := perms)];
      }
    }

    /** `deleteRole`: the confirmation is asked only for an existing id; when given, every role with the id goes. */
    method DeleteRole(id: Id, confirmed: bool)
      modifies this
      ensures roles == if confirmed then WithoutRole(old(roles), id) else old(roles)
    {
      var found := IndexWhere(roles, (x: Role) => x.id == id);
      if found.None? {
        // nothing to remove: the filter would return the table unchanged
        FilterAllKept(roles, (x: Role) => x.id != id);
        return;
      }
      if !confirmed {
        return;
      }
      roles := WithoutRole(roles, id);
    }
  }
}
