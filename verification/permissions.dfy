/**
 * The client-side role table: a level per role, a permission list per role,
 * and the lookups and message built on them.
 */
module Permissions {
  import opened Results

  const Staff: string := "staff"
  const Manager: string := "manager"
  const Admin: string := "admin"

  const CreateProduct: string := "create_product"
  const UpdateProduct: string := "update_product"
  const DeleteProduct: string := "delete_product"
  const ViewProduct: string := "view_product"
  const CreateWarehouse: string := "create_warehouse"
  const UpdateWarehouse: string := "update_warehouse"
  const DeleteWarehouse: string := "delete_warehouse"
  const ViewWarehouse: string := "view_warehouse"
  const CreateReceipt: string := "create_receipt"
  const CreateDelivery: string := "create_delivery"
  const UpdateOperation: string := "update_operation"
  const DeleteOperation: string := "delete_operation"
  const ViewOperation: string := "view_operation"
  const ManageUsers: string := "manage_users"
  const ViewUsers: string := "view_users"

  /** Every permission, in declaration order (the admin's list). */
  const AllPermissions: seq<string> := [
    CreateProduct, UpdateProduct, DeleteProduct, ViewProduct,
    CreateWarehouse, UpdateWarehouse, DeleteWarehouse, ViewWarehouse,
    CreateReceipt, CreateDelivery, UpdateOperation, DeleteOperation, ViewOperation,
    ManageUsers, ViewUsers]

  const StaffPermissions: seq<string> := [
    ViewProduct, ViewWarehouse, ViewOperation, CreateReceipt, CreateDelivery]

  const ManagerPermissions: seq<string> := [
    ViewProduct, ViewWarehouse, ViewOperation, CreateReceipt, CreateDelivery,
    CreateProduct, UpdateProduct, CreateWarehouse, UpdateWarehouse, UpdateOperation, ViewUsers]

  /** The role hierarchy: a higher level means more permissions. */
  function RoleLevel(role: string): Option<nat> {
    if role == Staff then Some(1)
    else if role == Manager then Some(2)
    else if role == Admin then Some(3)
    else None
  }

  /** `ROLE_PERMISSIONS[role] || []`. */
  function RolePermissions(role: string): (r: seq<string>)
    ensures RoleLevel(role).None? ==> r == []
  {
    if role == Staff then StaffPermissions
    else if role == Manager then ManagerPermissions
    else if role == Admin then AllPermissions
    else []
  }

  /** `hasPermission`. */
  function HasPermission(role: string, permission: string): bool {
    permission in RolePermissions(role)
  }

  /** `canPerformAction`: a plain alias of `hasPermission`. */
  function CanPerformAction(role: string, action: string): bool {
    HasPermission(role, action)
  }

  /** `action.replace(/_/g, " ")`. */
  function SpaceUnderscores(action: string): (r: string)
    ensures |r| == |action|
    ensures forall i :: 0 <= i < |r| ==> r[i] == if action[i] == '_' then ' ' else action[i]
    ensures forall i :: 0 <= i < |r| ==> r[i] != '_'
  {
    seq(|action|, i requires 0 <= i < |action| => if action[i] == '_' then ' ' else action[i])
  }

  const DeniedPrefix: string := "Access denied: You don't have permission to "
  const DeniedSuffix: string := ". This action requires elevated privileges."

  /** `getPermissionErrorMessage`. */
  function PermissionErrorMessage(action: string): (msg: string)
    ensures |msg| == |DeniedPrefix| + |action| + |DeniedSuffix|
    ensures msg[..|DeniedPrefix|] == DeniedPrefix
    ensures msg[|msg| - |DeniedSuffix|..] == DeniedSuffix
    ensures msg[|DeniedPrefix|..|msg| - |DeniedSuffix|] == SpaceUnderscores(action)
  {
    var msg := DeniedPrefix + SpaceUnderscores(action) + DeniedSuffix;
    assert msg[|DeniedPrefix|..|msg| - |DeniedSuffix|] == SpaceUnderscores(action);
    msg
  }

  /** A permission that removes something. */
  predicate IsDeletion(permission: string) {
    |permission| >= 7 && permission[..7] == "delete_"
  }

  // ---------------------------------------------------------------------------
  // Properties of the table
  // ---------------------------------------------------------------------------

  /** A role outside the table holds no permission. */
  lemma UnknownRoleHasNothing(role: string, permission: string)
    requires RoleLevel(role).None?
    ensures !HasPermission(role, permission)
  {
  }

  /** The admin holds exactly the declared permissions. */
  lemma AdminHoldsAll(permission: string)
    ensures HasPermission(Admin, permission) <==> permission in AllPermissions
  {
  }

  /** Every role's permissions are declared ones. */
  lemma OnlyDeclaredPermissions(role: string, permission: string)
    ensures HasPermission(role, permission) ==> permission in AllPermissions
  {
  }

  /** Permission sets grow with the hierarchy: staff within manager within admin. */
  lemma HierarchyMonotone(lower: string, higher: string, permission: string)
    requires RoleLevel(lower).Some? && RoleLevel(higher).Some?
    requires RoleLevel(lower).value <= RoleLevel(higher).value
    requires HasPermission(lower, permission)
    ensures HasPermission(higher, permission)
  {
  }

  /** Staff may not create, update or delete products. */
  lemma StaffCannotEditProducts()
    ensures !HasPermission(Staff, CreateProduct)
    ensures !HasPermission(Staff, UpdateProduct)
    ensures !HasPermission(Staff, DeleteProduct)
  {
  }

  /** Below admin no role may delete anything or manage users. */
  lemma NoDeletionBelowAdmin(role: string, permission: string)
    requires role == Staff || role == Manager
    requires HasPermission(role, permission)
    ensures !IsDeletion(permission) && permission != ManageUsers
  {
    assert forall i :: 0 <= i < |ManagerPermissions| ==> ManagerPermissions[i][0] != 'd';
    assert permission in ManagerPermissions;
    assert permission[0] != 'd';
    assert |permission| >= 7 ==> permission[..7][0] == permission[0];
  }

  /** The three declared deletion permissions are the only ones. */
  lemma DeletionPermissions(permission: string)
    requires permission in AllPermissions
    ensures IsDeletion(permission) <==> permission in {DeleteProduct, DeleteWarehouse, DeleteOperation}
  {
    assert DeleteProduct[..7] == "delete_";
    assert DeleteWarehouse[..7] == "delete_";
    assert DeleteOperation[..7] == "delete_";
    assert forall i :: 0 <= i < |AllPermissions| ==>
      AllPermissions[i] in {DeleteProduct, DeleteWarehouse, DeleteOperation} || AllPermissions[i][0] != 'd';
    assert |permission| >= 7 ==> permission[..7][0] == permission[0];
  }

  /** Asking through either entry point gives the same answer. */
  lemma CanPerformActionAgrees(role: string, action: string)
    ensures CanPerformAction(role, action) == HasPermission(role, action)
  {
  }
}
