/** The admin settings page: the role badge and the list of permissions shown to the user. */
module Settings {
  import Seqs
  import opened Schema
  import opened Auth
  import AdminSidebar

  /** `getRoleBadge`: the highest role held, in the order super admin, city manager, salon
      manager, staff; customer when no admin flag is set. */
  function RoleBadge(f: Flags): (caption: string)
    ensures caption == "Customer" <==> !IsAdmin(f)
    ensures caption in ["Super Admin", "City Manager", "Salon Manager", "Staff", "Customer"]
  {
    if f.isSuperAdmin then "Super Admin"
    else if f.isCityManager then "City Manager"
    else if f.isSalonManager then "Salon Manager"
    else if f.isStaff then "Staff"
    else "Customer"
  }

  /** The badge names the highest role: it is that of the single highest role held. */
  lemma BadgeIsHighestRole(f: Flags)
    ensures f.isSuperAdmin ==> RoleBadge(f) == RoleBadge(OnlyRole(SuperAdmin))
    ensures !f.isSuperAdmin && f.isCityManager ==> RoleBadge(f) == RoleBadge(OnlyRole(CityManager))
    ensures !f.isSuperAdmin && !f.isCityManager && f.isSalonManager ==> RoleBadge(f) == RoleBadge(OnlyRole(SalonManager))
  {
  }

  /** The permission lines. */
  datatype Permission = ViewBookings | ManageStaff | UpdateServices | ManageSalons | ManageCities | AssignRoles

  /** The permission list: bookings always; staff and services for the three manager roles;
      salons for super admins and city managers; cities and role assignment for super admins. */
  function Permissions(f: Flags): (ps: seq<Permission>)
    ensures |ps| >= 1 && ps[0] == ViewBookings
    ensures ManageStaff in ps <==> f.isSuperAdmin || f.isCityManager || f.isSalonManager
    ensures ManageSalons in ps <==> f.isSuperAdmin || f.isCityManager
    ensures AssignRoles in ps <==> f.isSuperAdmin
    ensures Seqs.NoDuplicates(ps)
  {
    [ViewBookings]
    + (if f.isSuperAdmin || f.isCityManager || f.isSalonManager then [ManageStaff, UpdateServices] else [])
    + (if f.isSuperAdmin || f.isCityManager then [ManageSalons] else [])
    + (if f.isSuperAdmin then [ManageCities, AssignRoles] else [])
  }

  /** More flags never take a permission away; in particular the single-role lists are nested:
      staff within salon manager within city manager within super admin. */
  lemma PermissionsMonotone(f: Flags, g: Flags)
    requires FlagsLe(f, g)
    ensures forall p :: p in Permissions(f) ==> p in Permissions(g)
  {
  }

  lemma PermissionsNested()
    ensures forall p :: p in Permissions(OnlyRole(Staff)) ==> p in Permissions(OnlyRole(SalonManager))
    ensures forall p :: p in Permissions(OnlyRole(SalonManager)) ==> p in Permissions(OnlyRole(CityManager))
    ensures forall p :: p in Permissions(OnlyRole(CityManager)) ==> p in Permissions(OnlyRole(SuperAdmin))
    ensures Permissions(OnlyRole(Staff)) == Permissions(OnlyRole(Customer)) == [ViewBookings]
  {
  }

  /** The page and the sidebar agree: staff and services can be managed exactly when their menu
      items are shown, and salons likewise. */
  lemma PermissionsMatchSidebar(f: Flags)
    ensures ManageStaff in Permissions(f) <==> AdminSidebar.HasAccess(AdminSidebar.ManagementItems[0].audience, f)
    ensures UpdateServices in Permissions(f) <==> AdminSidebar.HasAccess(AdminSidebar.ManagementItems[1].audience, f)
    ensures ManageSalons in Permissions(f) <==> AdminSidebar.HasAccess(AdminSidebar.ManagementItems[2].audience, f)
    ensures ManageCities in Permissions(f) <==> AdminSidebar.HasAccess(AdminSidebar.ManagementItems[4].audience, f)
  {
  }
}
