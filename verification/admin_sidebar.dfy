/** The admin sidebar: which menu items a user sees, by the role lists attached to each item. */
module AdminSidebar {
  import Seqs
  import opened Schema
  import opened Auth

  /** An entry of an item's role list: `"all"` or a role name. */
  datatype Audience = Everyone | RoleOf(role: AppRole)

  /** The admin pages the sidebar links to. */
  datatype Page = Dashboard | Bookings | StaffPage | ServicesPage | SalonsPage | OffersPage | CitiesPage | UserRolesPage

  datatype MenuItem = MenuItem(page: Page, url: string, audience: seq<Audience>)

  const MainMenuItems := [
    MenuItem(Dashboard, "/admin", [Everyone]),
    MenuItem(Bookings, "/admin/bookings", [Everyone])
  ]

  const Managers := [RoleOf(SuperAdmin), RoleOf(CityManager), RoleOf(SalonManager)]

  const ManagementItems := [
    MenuItem(StaffPage, "/admin/staff", Managers),
    MenuItem(ServicesPage, "/admin/services", Managers),
    MenuItem(SalonsPage, "/admin/salons", [RoleOf(SuperAdmin), RoleOf(CityManager)]),
    MenuItem(OffersPage, "/admin/offers", [RoleOf(SuperAdmin)]),
    MenuItem(CitiesPage, "/admin/cities", [RoleOf(SuperAdmin)]),
    MenuItem(UserRolesPage, "/admin/roles", [RoleOf(SuperAdmin)])
  ]

  /** `hasAccess`: `"all"` admits everyone; each role entry admits that role and every role above
      it (super admin, city manager, salon manager, staff); a customer entry admits nobody. */
  predicate HasAccess(audience: seq<Audience>, f: Flags) {
    if Everyone in audience then true
    else if RoleOf(SuperAdmin) in audience && f.isSuperAdmin then true
    else if RoleOf(CityManager) in audience && (f.isSuperAdmin || f.isCityManager) then true
    else if RoleOf(SalonManager) in audience && (f.isSuperAdmin || f.isCityManager || f.isSalonManager) then true
    else if RoleOf(Staff) in audience && IsAdmin(f) then true
    else false
  }

  /** The hierarchy, one role entry at a time. */
  lemma SingleEntryAccess(f: Flags)
    ensures HasAccess([Everyone], f)
    ensures HasAccess([RoleOf(SuperAdmin)], f) <==> f.isSuperAdmin
    ensures HasAccess([RoleOf(CityManager)], f) <==> f.isSuperAdmin || f.isCityManager
    ensures HasAccess([RoleOf(SalonManager)], f) <==> f.isSuperAdmin || f.isCityManager || f.isSalonManager
    ensures HasAccess([RoleOf(Staff)], f) <==> IsAdmin(f)
    ensures !HasAccess([RoleOf(Customer)], f)
    ensures !HasAccess([], f)
  {
  }

  /** Access is monotone: more flags, and more entries in the role list, never remove access. */
  lemma AccessMonotone(audience: seq<Audience>, more: seq<Audience>, f: Flags, g: Flags)
    requires FlagsLe(f, g)
    requires forall a :: a in audience ==> a in more
    requires HasAccess(audience, f)
    ensures HasAccess(more, g)
  {
  }

  /** `filteredManagementItems`. */
  function VisibleManagementItems(f: Flags): (items: seq<MenuItem>)
    ensures Seqs.IsSubsequence(items, ManagementItems)
  {
    Seqs.Filter((item: MenuItem) => HasAccess(item.audience, f), ManagementItems)
  }

  function Pages(items: seq<MenuItem>): (pages: seq<Page>)
    ensures |pages| == |items| && forall i :: 0 <= i < |items| ==> pages[i] == items[i].page
  {
    seq(|items|, i requires 0 <= i < |items| => items[i].page)
  }

  /** Salon managers see Staff and Services, in that order. */
  lemma SalonManagerSees()
    ensures Pages(VisibleManagementItems(OnlyRole(SalonManager))) == [StaffPage, ServicesPage]
  {
    var f := OnlyRole(SalonManager);
    Seqs.FilterPrefix((item: MenuItem) => HasAccess(item.audience, f), ManagementItems, 2);
  }

  /** City managers also see Salons. */
  lemma CityManagerSees()
    ensures Pages(VisibleManagementItems(OnlyRole(CityManager))) == [StaffPage, ServicesPage, SalonsPage]
  {
    var f := OnlyRole(CityManager);
    Seqs.FilterPrefix((item: MenuItem) => HasAccess(item.audience, f), ManagementItems, 3);
  }

  /** Super admins see all six items. */
  lemma SuperAdminSeesAll()
    ensures VisibleManagementItems(OnlyRole(SuperAdmin)) == ManagementItems
  {
    var f := OnlyRole(SuperAdmin);
    Seqs.FilterPrefix((item: MenuItem) => HasAccess(item.audience, f), ManagementItems, 6);
  }

  /** Staff members and customers see no management item. */
  lemma StaffSeesNone(r: AppRole)
    requires r == Staff || r == Customer
    ensures VisibleManagementItems(OnlyRole(r)) == []
  {
    var f := OnlyRole(r);
    Seqs.FilterPrefix((item: MenuItem) => HasAccess(item.audience, f), ManagementItems, 0);
  }

  /** Dashboard and Bookings are shown to everyone. */
  lemma MainMenuForEveryone(f: Flags)
    ensures forall i :: 0 <= i < |MainMenuItems| ==> HasAccess(MainMenuItems[i].audience, f)
  {
  }
}
