/** The authentication context: the signed-in user's role records, the role flags derived from
    them, the salon and city an admin manages, and how sign-out and auth events reset the state. */
module Auth {
  import opened Wrappers
  import opened Schema

  /** A `user_roles` row: a role, optionally tied to a salon or a city. */
  datatype UserRole = UserRole(id: string, userId: string, role: AppRole, salonId: Option<string>, cityId: Option<string>)

  /** A session, reduced to the id of its user. */
  datatype Session = Session(userId: string)

  /** A `profiles` row, reduced to the fields the model uses. */
  datatype Profile = Profile(userId: string, fullName: Option<string>)

  /** `hasRole`: some role record carries the role. */
  predicate HasRole(roles: seq<UserRole>, r: AppRole) {
    exists i :: 0 <= i < |roles| && roles[i].role == r
  }

  /** The four admin flags the context publishes. */
  datatype Flags = Flags(isSuperAdmin: bool, isCityManager: bool, isSalonManager: bool, isStaff: bool)

  function FlagsOf(roles: seq<UserRole>): Flags {
    Flags(HasRole(roles, SuperAdmin), HasRole(roles, CityManager), HasRole(roles, SalonManager), HasRole(roles, Staff))
  }

  /** The flags of a user holding exactly one role. */
  function OnlyRole(r: AppRole): (f: Flags)
    ensures f == FlagsOf([UserRole("", "", r, None, None)])
  {
    var rec := [UserRole("", "", r, None, None)];
    assert rec[0].role == r;
    Flags(r == SuperAdmin, r == CityManager, r == SalonManager, r == Staff)
  }

  /** Flag-wise implication: `g` has every flag `f` has. */
  predicate FlagsLe(f: Flags, g: Flags) {
    (f.isSuperAdmin ==> g.isSuperAdmin) && (f.isCityManager ==> g.isCityManager)
    && (f.isSalonManager ==> g.isSalonManager) && (f.isStaff ==> g.isStaff)
  }

  /** `isAdmin`: any of the four flags. */
  predicate IsAdmin(f: Flags) {
    f.isSuperAdmin || f.isCityManager || f.isSalonManager || f.isStaff
  }

  /** A user is an admin exactly when one of their role records is not the customer role; with
      only customer records, or none, they are not. */
  lemma IsAdminIff(roles: seq<UserRole>)
    ensures IsAdmin(FlagsOf(roles)) <==> exists i :: 0 <= i < |roles| && roles[i].role != Customer
  {
    if exists i :: 0 <= i < |roles| && roles[i].role != Customer {
      var i :| 0 <= i < |roles| && roles[i].role != Customer;
      assert HasRole(roles, roles[i].role);
    }
  }

  /** A truthy id: present and non-empty. */
  predicate IsSet(id: Option<string>) {
    id.Some? && id.value != ""
  }

  /** `find(r => r.x)?.x || null` over a list of optional ids: the first set id, else null. */
  function FirstSet(ids: seq<Option<string>>): (r: Option<string>)
    ensures r.None? <==> forall i :: 0 <= i < |ids| ==> !IsSet(ids[i])
    ensures r.Some? ==> exists i :: 0 <= i < |ids| && ids[i] == r && IsSet(r)
                          && forall j :: 0 <= j < i ==> !IsSet(ids[j])
    decreases |ids|
  {
    if ids == [] then None
    else if IsSet(ids[0]) then ids[0]
    else
      var r := FirstSet(ids[1..]);
      assert forall i :: 0 <= i < |ids| - 1 ==> ids[1..][i] == ids[i + 1];
      assert r.Some? ==> exists i :: 0 <= i < |ids| && ids[i] == r && IsSet(r)
                                    && forall j :: 0 <= j < i ==> !IsSet(ids[j]) by {
        if r.Some? {
          var i :| 0 <= i < |ids[1..]| && ids[1..][i] == r && IsSet(r) && forall j :: 0 <= j < i ==> !IsSet(ids[1..][j]);
          assert ids[i + 1] == r && forall j :: 0 <= j < i + 1 ==> !IsSet(ids[j]);
        }
      }
      r
  }

  /** `getManagedSalonId`: the salon of the first role record that names one. */
  function ManagedSalonId(roles: seq<UserRole>): Option<string> {
    FirstSet(seq(|roles|, i requires 0 <= i < |roles| => roles[i].salonId))
  }

  /** `getManagedCityId`: the city of the first role record that names one. */
  function ManagedCityId(roles: seq<UserRole>): Option<string> {
    FirstSet(seq(|roles|, i requires 0 <= i < |roles| => roles[i].cityId))
  }

  /** The managed salon is the one of the earliest role record that names a salon, and there is
      none exactly when no record names one. */
  lemma ManagedSalonIsFirst(roles: seq<UserRole>)
    ensures ManagedSalonId(roles).None? <==> forall i :: 0 <= i < |roles| ==> !IsSet(roles[i].salonId)
    ensures ManagedSalonId(roles).Some? ==>
              exists i :: 0 <= i < |roles| && roles[i].salonId == ManagedSalonId(roles)
                          && forall j :: 0 <= j < i ==> !IsSet(roles[j].salonId)
  {
    var ids := seq(|roles|, i requires 0 <= i < |roles| => roles[i].salonId);
    assert forall i :: 0 <= i < |roles| ==> ids[i] == roles[i].salonId;
  }

  /** The same for the managed city. */
  lemma ManagedCityIsFirst(roles: seq<UserRole>)
    ensures ManagedCityId(roles).None? <==> forall i :: 0 <= i < |roles| ==> !IsSet(roles[i].cityId)
    ensures ManagedCityId(roles).Some? ==>
              exists i :: 0 <= i < |roles| && roles[i].cityId == ManagedCityId(roles)
                          && forall j :: 0 <= j < i ==> !IsSet(roles[j].cityId)
  {
    var ids := seq(|roles|, i requires 0 <= i < |roles| => roles[i].cityId);
    assert forall i :: 0 <= i < |roles| ==> ids[i] == roles[i].cityId;
  }

  /** With no role records every flag is off and nothing is managed. */
  lemma NoRolesNoPrivileges()
    ensures FlagsOf([]) == Flags(false, false, false, false) && !IsAdmin(FlagsOf([]))
    ensures ManagedSalonId([]) == None && ManagedCityId([]) == None
  {
  }

  /** `AuthProvider`'s state. */
  class AuthState {
    var user: Option<string>
    var session: Option<Session>
    var profile: Option<Profile>
    var roles: seq<UserRole>
    var isLoading: bool

    /** Nobody signed in, loading until the first session is known. */
    constructor ()
      ensures user == None && session == None && profile == None && roles == [] && isLoading
    {
      user := None;
      session := None;
      profile := None;
      roles := [];
      isLoading := true;
    }

    function Flags(): Flags
      reads this
    {
      FlagsOf(roles)
    }

    /** An auth event: with a signed-in session the user data is (re)fetched and loading starts;
        without one the profile and roles are dropped and loading ends. */
    method OnAuthStateChange(s: Option<Session>)
      modifies this
      ensures session == s && user == (if s.Some? then Some(s.value.userId) else None)
      ensures s.Some? ==> isLoading && profile == old(profile) && roles == old(roles)
      ensures s.None? ==> !isLoading && profile == None && roles == []
    {
      session := s;
      user := if s.Some? then Some(s.value.userId) else None;
      if s.Some? {
        isLoading := true;
      } else {
        profile := None;
        roles := [];
        isLoading := false;
      }
    }

    /** The initial session lookup: like an auth event, but it neither raises the loading flag
        nor clears profile and roles. */
    method OnInitialSession(s: Option<Session>)
      modifies this
      ensures session == s && user == (if s.Some? then Some(s.value.userId) else None)
      ensures profile == old(profile) && roles == old(roles)
      ensures isLoading == (s.Some? && old(isLoading))
    {
      session := s;
      user := if s.Some? then Some(s.value.userId) else None;
      if s.None? {
        isLoading := false;
      }
    }

    /** `fetchUserData` completes: the profile as found, the role rows or none, loading ends. */
    method OnUserData(p: Option<Profile>, rows: Option<seq<UserRole>>)
      modifies this
      ensures profile == p && roles == rows.GetOr([]) && !isLoading
      ensures user == old(user) && session == old(session)
    {
      profile := p;
      roles := rows.GetOr([]);
      isLoading := false;
    }

    /** `signOut`: user, session and profile become null and the roles empty. */
    method SignOut()
      modifies this
      ensures user == None && session == None && profile == None && roles == []
      ensures isLoading == old(isLoading)
      ensures !IsAdmin(Flags()) && ManagedSalonId(roles) == None && ManagedCityId(roles) == None
    {
      user := None;
      session := None;
      profile := None;
      roles := [];
      NoRolesNoPrivileges();
    }
  }
}
