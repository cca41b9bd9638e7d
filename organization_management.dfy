/**
 * Organization and membership management (internal/app/services/organization_management.go):
 * role normalisation, the default organization name of a new user, the choice of the active
 * organization, the manage check, and the member, enable and delete operations with their
 * last-owner and last-organization protections.
 *
 * The store is an in-memory value: the organizations in listing order and each membership's
 * stored role. An operation returns the store after its writes together with its error, so
 * what it leaves untouched is explicit. Store failures other than a missing row are not
 * modelled.
 */
module OrgManagement {
  import opened Wrappers
  import opened GoStrings

  // ---------------------------------------------------------------------------
  // Roles

  const RoleOwner: String := "owner"
  const RoleAdmin: String := "admin"
  const RoleMember: String := "member"

  /** normalizeRole: the trimmed, lower-cased role when it is owner, admin or member, else "". */
  function NormalizeRole(role: String): (r: String)
    ensures r in {RoleOwner, RoleAdmin, RoleMember, ""}
    ensures r != "" <==> Fold(role) in {RoleOwner, RoleAdmin, RoleMember}
    ensures r != "" ==> r == Fold(role)
  {
    var key := Fold(role);
    if key == RoleOwner || key == RoleAdmin || key == RoleMember then key else ""
  }

  /** A normalised role normalises to itself. */
  lemma NormalizeRoleIdempotent(role: String)
    ensures NormalizeRole(NormalizeRole(role)) == NormalizeRole(role)
  {
    var r := NormalizeRole(role);
    if r != "" {
      FoldIdempotent(role);
    } else {
      EmptyFold();
    }
  }

  lemma EmptyFold()
    ensures Fold("") == ""
  {
  }

  /** A stored role that counts as owner: EqualFold(TrimSpace(role), "owner"). */
  predicate IsOwnerRole(role: String)
  {
    Fold(role) == RoleOwner
  }

  /** The three normalised roles, and only "owner" among them counts as owner. */
  lemma NormalizedRolesOwnership()
    ensures IsOwnerRole(RoleOwner)
    ensures !IsOwnerRole(RoleAdmin) && !IsOwnerRole(RoleMember)
  {
    RoleFolds();
  }

  lemma RoleFolds()
    ensures Fold(RoleOwner) == RoleOwner && Fold(RoleAdmin) == RoleAdmin && Fold(RoleMember) == RoleMember
  {
    OwnerFolds();
    AdminFolds();
    MemberFolds();
  }

  lemma OwnerFolds()
    ensures Fold(RoleOwner) == RoleOwner
  {
    FoldOfWord(RoleOwner);
  }

  lemma AdminFolds()
    ensures Fold(RoleAdmin) == RoleAdmin
  {
    FoldOfWord(RoleAdmin);
  }

  lemma MemberFolds()
    ensures Fold(RoleMember) == RoleMember
  {
    FoldOfWord(RoleMember);
  }

  // ---------------------------------------------------------------------------
  // userScopedDefaultOrgName

  predicate SlugChar(c: char)
  {
    ('a' <= c <= 'z') || ('0' <= c <= '9')
  }

  /**
   * The builder loop of userScopedDefaultOrgName from a given prevDash flag: letters and digits
   * are kept, and each run of other characters becomes one '-' (none when a dash was just written).
   */
  function Collapse(s: String, prevDash: bool): String
    decreases |s|
  {
    if s == [] then []
    else if SlugChar(s[0]) then [s[0]] + Collapse(s[1..], false)
    else if prevDash then Collapse(s[1..], true)
    else ['-'] + Collapse(s[1..], true)
  }

  /** Only letters, digits and dashes, and never two dashes in a row. */
  predicate Collapsed(s: String)
  {
    (forall i :: 0 <= i < |s| ==> SlugChar(s[i]) || s[i] == '-')
    && (forall i :: 0 <= i < |s| - 1 ==> !(s[i] == '-' && s[i + 1] == '-'))
  }

  /** A well-formed slug: lower-case letters, digits and single dashes, none at either end. */
  predicate IsSlug(s: String)
  {
    Collapsed(s) && TrimmedBy(s, {'-'})
  }

  /** The collapsed text only holds slug characters and dashes, never two dashes in a row, and none first after a dash. */
  lemma {:induction false} CollapseShape(s: String, prevDash: bool)
    ensures Collapsed(Collapse(s, prevDash))
    ensures prevDash && Collapse(s, prevDash) != [] ==> Collapse(s, prevDash)[0] != '-'
    decreases |s|
  {
    if s != [] {
      if SlugChar(s[0]) {
        CollapseShape(s[1..], false);
        PrependShape(s[0], Collapse(s[1..], false));
      } else if prevDash {
        CollapseShape(s[1..], true);
      } else {
        CollapseShape(s[1..], true);
        PrependShape('-', Collapse(s[1..], true));
      }
    }
  }

  /** Putting a character before a dash-collapsed text keeps it collapsed, unless two dashes meet. */
  lemma PrependShape(x: char, c: String)
    requires SlugChar(x) || x == '-'
    requires Collapsed(c)
    requires x == '-' && c != [] ==> c[0] != '-'
    ensures Collapsed([x] + c)
  {
    var d := [x] + c;
    assert forall i :: 1 <= i < |d| ==> d[i] == c[i - 1];
  }

  /** Trimming the dashes off a collapsed text leaves a slug. */
  lemma TrimmedCollapseIsSlug(s: String)
    ensures IsSlug(TrimSet(Collapse(s, false), {'-'}))
  {
    CollapseShape(s, false);
    TrimDashesIsSlug(Collapse(s, false));
  }

  lemma TrimDashesIsSlug(c: String)
    requires Collapsed(c)
    ensures IsSlug(TrimSet(c, {'-'}))
  {
    var l := TrimLeftSet(c, {'-'});
    var k := |c| - |l|;
    assert forall i :: 0 <= i < |l| ==> l[i] == c[k + i];
    TrimRightDashesIsSlug(l);
  }

  lemma TrimRightDashesIsSlug(l: String)
    requires Collapsed(l)
    requires l == [] || l[0] != '-'
    ensures IsSlug(TrimRightSet(l, {'-'}))
  {
    var t := TrimRightSet(l, {'-'});
    assert forall i :: 0 <= i < |t| ==> t[i] == l[i];
  }

  /** A slug collapses to itself: the slug of a slug is that slug. */
  lemma {:induction false} CollapseOfSlug(s: String, prevDash: bool)
    requires Collapsed(s)
    requires prevDash && s != [] ==> s[0] != '-'
    ensures Collapse(s, prevDash) == s
    decreases |s|
  {
    if s != [] {
      assert s == [s[0]] + s[1..];
      CollapseOfSlug(s[1..], !SlugChar(s[0]));
    }
  }

  /** The builder loop, as the source writes it, with its prevDash flag. */
  method CollapseRuns(s: String) returns (out: String)
    ensures out == Collapse(s, false)
  {
    out := [];
    var prevDash := false;
    var i := 0;
    while i < |s|
      invariant 0 <= i <= |s|
      invariant out + Collapse(s[i..], prevDash) == Collapse(s, false)
    {
      assert s[i..] == [s[i]] + s[i + 1..];
      if SlugChar(s[i]) {
        out := out + [s[i]];
        prevDash := false;
      } else if !prevDash {
        out := out + ['-'];
        prevDash := true;
      }
      i := i + 1;
    }
  }

  /** A user's profile. */
  datatype User = User(id: int, email: String, name: String, nickname: String)

  function UserFallbackName(userId: int): String
  {
    "user-" + IntToString(userId)
  }

  /** The base of the name: the first non-blank of the nickname, the email's local part, the name, "user-<id>". */
  function DefaultOrgBase(user: User, userId: int): (r: String)
    ensures r != []
  {
    var nick := TrimSpace(user.nickname);
    if nick != [] then nick
    else
      var local := Split(TrimSpace(user.email), '@')[0];
      if local != [] then local
      else
        var name := TrimSpace(user.name);
        if name != [] then name else UserFallbackName(userId)
  }

  /** The slug userScopedDefaultOrgName computes before adding "-org". */
  function DefaultOrgSlug(user: User, userId: int): String
  {
    var clean := TrimSet(Collapse(ToLower(DefaultOrgBase(user, userId)), false), {'-'});
    if clean == [] then UserFallbackName(userId) else clean
  }

  /** userScopedDefaultOrgName, with its builder loop. */
  method UserScopedDefaultOrgName(user: User, userId: int) returns (name: String)
    ensures name == DefaultOrgSlug(user, userId) + "-org"
  {
    var base := DefaultOrgBase(user, userId);
    var built := CollapseRuns(ToLower(base));
    var clean := TrimSet(built, {'-'});
    if clean == [] {
      clean := UserFallbackName(userId);
    }
    name := clean + "-org";
  }

  /**
   * The name always ends in "-org"; before that stands a well-formed slug of the chosen base,
   * or "user-<id>" when the base has no letter or digit.
   */
  lemma DefaultOrgNameShape(user: User, userId: int)
    ensures var slug := DefaultOrgSlug(user, userId);
            slug != [] && (IsSlug(slug) || slug == UserFallbackName(userId))
  {
    TrimmedCollapseIsSlug(ToLower(DefaultOrgBase(user, userId)));
  }

  /** A nickname that already is a slug is used as it is. */
  lemma DefaultOrgSlugOfSlugNickname(user: User, userId: int)
    requires user.nickname != [] && IsSlug(user.nickname)
    ensures DefaultOrgSlug(user, userId) == user.nickname
  {
    var n := user.nickname;
    SlugIsTrimmedLower(n);
    BaseIsNickname(user, userId);
    CollapseOfSlug(n, false);
    assert TrimSet(n, {'-'}) == n;
  }

  lemma SlugIsTrimmedLower(n: String)
    requires n != [] && IsSlug(n)
    ensures TrimSpace(n) == n && ToLower(n) == n
  {
    assert SlugChar(n[0]) && SlugChar(n[|n| - 1]);
    assert TrimmedBy(n, Spaces);
    assert IsLower(n);
    ToLowerIsLower(n);
  }

  lemma BaseIsNickname(user: User, userId: int)
    requires TrimSpace(user.nickname) != []
    ensures DefaultOrgBase(user, userId) == TrimSpace(user.nickname)
  {
  }

  // ---------------------------------------------------------------------------
  // The store

  datatype Organization = Organization(id: int, name: String, enabled: bool)

  /** The organizations in the order ListOrganizations returns them, and each (organization, user) membership's stored role. */
  datatype OrgStore = OrgStore(orgs: seq<Organization>, roles: map<(int, int), String>)

  /** Organization ids are unique, as the table's primary key makes them. */
  predicate ValidStore(store: OrgStore)
  {
    forall i, j :: 0 <= i < j < |store.orgs| ==> store.orgs[i].id != store.orgs[j].id
  }

  /** The errors the service returns. */
  datatype OrgError =
    | OrganizationAccessDenied
    | OrganizationAdminRequired
    | OrganizationMembershipRequired
    | CannotRemoveLastOwner
    | CannotDeleteLastOrganization
    | OrganizationNotFound

  /** GetOrganizationByID: the organization with that id, or no row. */
  function OrganizationById(orgs: seq<Organization>, id: int): (r: Option<Organization>)
    ensures r.Some? ==> r.value in orgs && r.value.id == id
    ensures r.None? ==> forall k :: 0 <= k < |orgs| ==> orgs[k].id != id
  {
    if orgs == [] then None
    else if orgs[0].id == id then Some(orgs[0])
    else OrganizationById(orgs[1..], id)
  }

  /** ListOrganizationsByUser: the organizations the user is a member of, in listing order. */
  function OrganizationsOfUser(store: OrgStore, orgs: seq<Organization>, userId: int): (r: seq<Organization>)
    ensures forall k :: 0 <= k < |r| ==> r[k] in orgs && (r[k].id, userId) in store.roles
  {
    if orgs == [] then []
    else
      var rest := OrganizationsOfUser(store, orgs[1..], userId);
      if (orgs[0].id, userId) in store.roles then [orgs[0]] + rest else rest
  }

  /** The first enabled organization of a list. */
  function FirstEnabled(orgs: seq<Organization>): (r: Option<Organization>)
    ensures r.Some? ==> r.value in orgs && r.value.enabled
    ensures r.None? ==> forall k :: 0 <= k < |orgs| ==> !orgs[k].enabled
  {
    if orgs == [] then None
    else if orgs[0].enabled then Some(orgs[0])
    else FirstEnabled(orgs[1..])
  }

  /** The users whose stored role in the organization counts as owner (CountOrganizationOwners). */
  function Owners(store: OrgStore, orgId: int): set<int>
  {
    set key | key in store.roles && key.0 == orgId && IsOwnerRole(store.roles[key]) :: key.1
  }

  /** The number of enabled organizations, as SetOrganizationEnabled's loop counts them. */
  function EnabledCount(orgs: seq<Organization>): (n: nat)
    ensures n <= |orgs|
  {
    if orgs == [] then 0 else (if orgs[0].enabled then 1 else 0) + EnabledCount(orgs[1..])
  }

  // ---------------------------------------------------------------------------
  // GetActiveOrDefaultOrganizationForUser and CanManageOrganization

  /**
   * GetActiveOrDefaultOrganizationForUser: a non-positive user is denied; the active
   * organization is kept when it exists, is enabled and the user is a member of it; otherwise
   * the user's first enabled organization; otherwise membership is required.
   */
  function GetActiveOrDefaultOrganizationForUser(store: OrgStore, userId: int, activeId: int): (r: Result<Organization, OrgError>)
    ensures userId <= 0 ==> r == Err(OrganizationAccessDenied)
    ensures r.Ok? ==> r.value in store.orgs && r.value.enabled && (r.value.id, userId) in store.roles
    ensures r.Err? ==> r.error in {OrganizationAccessDenied, OrganizationMembershipRequired}
  {
    if userId <= 0 then Err(OrganizationAccessDenied)
    else
      var active := if activeId > 0 then OrganizationById(store.orgs, activeId) else None;
      if active.Some? && active.value.enabled && (activeId, userId) in store.roles then Ok(active.value)
      else
        match FirstEnabled(OrganizationsOfUser(store, store.orgs, userId))
        case Some(org) => Ok(org)
        case None => Err(OrganizationMembershipRequired)
  }

  /** The organization is enabled and the user is one of its members. */
  predicate UsableBy(store: OrgStore, org: Organization, userId: int)
  {
    org.enabled && (org.id, userId) in store.roles
  }

  /**
   * A usable active organization wins; without one, the choice is the first organization in
   * listing order that is enabled and has the user as a member: no earlier one qualifies.
   */
  lemma ActiveOrganizationPreferred(store: OrgStore, userId: int, activeId: int)
    requires userId > 0 && activeId > 0
    ensures var active := OrganizationById(store.orgs, activeId);
            var r := GetActiveOrDefaultOrganizationForUser(store, userId, activeId);
            (active.Some? && UsableBy(store, active.value, userId) ==> r == Ok(active.value))
            && (!(active.Some? && UsableBy(store, active.value, userId)) && r.Ok? ==>
                  exists i :: 0 <= i < |store.orgs| && store.orgs[i] == r.value && UsableBy(store, store.orgs[i], userId)
                              && forall j :: 0 <= j < i ==> !UsableBy(store, store.orgs[j], userId))
  {
    var active := OrganizationById(store.orgs, activeId);
    if !(active.Some? && UsableBy(store, active.value, userId)) {
      var first := FirstEnabled(OrganizationsOfUser(store, store.orgs, userId));
      if first.Some? {
        FirstUsable(store, store.orgs, userId, first.value);
      }
    }
  }

  /** The first enabled organization of the user's list is the first usable one of the whole list. */
  lemma {:induction false} FirstUsable(store: OrgStore, orgs: seq<Organization>, userId: int, org: Organization)
    requires FirstEnabled(OrganizationsOfUser(store, orgs, userId)) == Some(org)
    ensures exists i :: 0 <= i < |orgs| && orgs[i] == org && UsableBy(store, orgs[i], userId)
                        && forall j :: 0 <= j < i ==> !UsableBy(store, orgs[j], userId)
  {
    if UsableBy(store, orgs[0], userId) {
      var rest := OrganizationsOfUser(store, orgs[1..], userId);
      assert OrganizationsOfUser(store, orgs, userId) == [orgs[0]] + rest;
      assert orgs[0] == org;
    } else {
      SkipUnusable(store, orgs, userId);
      FirstUsable(store, orgs[1..], userId, org);
      var i :| 0 <= i < |orgs[1..]| && orgs[1..][i] == org && UsableBy(store, orgs[1..][i], userId)
                && forall j :: 0 <= j < i ==> !UsableBy(store, orgs[1..][j], userId);
      ShiftUsable(store, orgs, userId, i);
    }
  }

  /** An organization the user cannot use does not change the first enabled membership. */
  lemma SkipUnusable(store: OrgStore, orgs: seq<Organization>, userId: int)
    requires orgs != [] && !UsableBy(store, orgs[0], userId)
    ensures FirstEnabled(OrganizationsOfUser(store, orgs, userId)) == FirstEnabled(OrganizationsOfUser(store, orgs[1..], userId))
  {
    var rest := OrganizationsOfUser(store, orgs[1..], userId);
    if (orgs[0].id, userId) in store.roles {
      assert ([orgs[0]] + rest)[1..] == rest;
    }
  }

  /** The first usable index of the tail, moved one place on, is the first usable index of the whole. */
  lemma ShiftUsable(store: OrgStore, orgs: seq<Organization>, userId: int, i: int)
    requires orgs != [] && !UsableBy(store, orgs[0], userId)
    requires 0 <= i < |orgs| - 1 && UsableBy(store, orgs[1..][i], userId)
    requires forall j :: 0 <= j < i ==> !UsableBy(store, orgs[1..][j], userId)
    ensures orgs[i + 1] == orgs[1..][i] && UsableBy(store, orgs[i + 1], userId)
    ensures forall j :: 0 <= j < i + 1 ==> !UsableBy(store, orgs[j], userId)
  {
    forall j | 0 <= j < i + 1 ensures !UsableBy(store, orgs[j], userId) {
      if j > 0 {
        assert orgs[j] == orgs[1..][j - 1];
      }
    }
  }

  /** The membership error means the user has no enabled organization at all. */
  lemma MembershipRequiredMeansNoneEnabled(store: OrgStore, userId: int, activeId: int, k: int)
    requires GetActiveOrDefaultOrganizationForUser(store, userId, activeId) == Err(OrganizationMembershipRequired)
    requires 0 <= k < |store.orgs| && (store.orgs[k].id, userId) in store.roles
    ensures !store.orgs[k].enabled
  {
    OrganizationsOfUserComplete(store, store.orgs, userId, k);
  }

  /** Every organization the user belongs to is listed for the user. */
  lemma {:induction false} OrganizationsOfUserComplete(store: OrgStore, orgs: seq<Organization>, userId: int, k: int)
    requires 0 <= k < |orgs| && (orgs[k].id, userId) in store.roles
    ensures orgs[k] in OrganizationsOfUser(store, orgs, userId)
  {
    if k > 0 {
      OrganizationsOfUserComplete(store, orgs[1..], userId, k - 1);
    }
  }

  /** CanManageOrganization: true for a stored owner or admin role; no membership is false, not an error. */
  function CanManageOrganization(store: OrgStore, orgId: int, userId: int): (r: bool)
    ensures r ==> (orgId, userId) in store.roles
    ensures r <==> (orgId, userId) in store.roles && Fold(store.roles[(orgId, userId)]) in {RoleOwner, RoleAdmin}
  {
    (orgId, userId) in store.roles && (Fold(store.roles[(orgId, userId)]) == RoleOwner || Fold(store.roles[(orgId, userId)]) == RoleAdmin)
  }

  /** Owners and admins may manage; a plain member may not. */
  lemma CanManageByRole(store: OrgStore, orgId: int, userId: int)
    requires (orgId, userId) in store.roles
    ensures store.roles[(orgId, userId)] == RoleOwner ==> CanManageOrganization(store, orgId, userId)
    ensures store.roles[(orgId, userId)] == RoleAdmin ==> CanManageOrganization(store, orgId, userId)
    ensures store.roles[(orgId, userId)] == RoleMember ==> !CanManageOrganization(store, orgId, userId)
  {
    var role := store.roles[(orgId, userId)];
    if role == RoleOwner {
      FoldOfWord(RoleOwner);
    } else if role == RoleAdmin {
      FoldOfWord(RoleAdmin);
    } else if role == RoleMember {
      FoldOfWord(RoleMember);
    }
  }

  // ---------------------------------------------------------------------------
  // UpdateMemberRole and RemoveMember

  /**
   * UpdateMemberRole: an invalid role is refused; demoting a current owner who is the only one
   * is refused; otherwise the normalised role is stored. Setting "owner" is never refused.
   */
  function UpdateMemberRole(store: OrgStore, orgId: int, userId: int, role: String): (r: (OrgStore, Option<OrgError>))
    ensures NormalizeRole(role) == "" ==> r == (store, Some(OrganizationAdminRequired))
    ensures NormalizeRole(role) == RoleOwner ==> r == (store.(roles := store.roles[(orgId, userId) := RoleOwner]), None)
    ensures r.1.None? ==> r.0 == store.(roles := store.roles[(orgId, userId) := NormalizeRole(role)])
    ensures r.1.Some? ==> r.0 == store
    ensures r.1 == Some(CannotRemoveLastOwner) <==>
              NormalizeRole(role) in {RoleAdmin, RoleMember} && (orgId, userId) in store.roles
              && IsOwnerRole(store.roles[(orgId, userId)]) && |Owners(store, orgId)| <= 1
  {
    var normalized := NormalizeRole(role);
    if normalized == "" then (store, Some(OrganizationAdminRequired))
    else if normalized != RoleOwner && (orgId, userId) in store.roles && IsOwnerRole(store.roles[(orgId, userId)])
            && |Owners(store, orgId)| <= 1 then
      (store, Some(CannotRemoveLastOwner))
    else (store.(roles := store.roles[(orgId, userId) := normalized]), None)
  }

  /**
   * RemoveMember: a non-member is a no-op without error; the only owner is refused; any other
   * member's row is deleted.
   */
  function RemoveMember(store: OrgStore, orgId: int, userId: int): (r: (OrgStore, Option<OrgError>))
    ensures (orgId, userId) !in store.roles ==> r == (store, None)
    ensures r.1.Some? ==> r == (store, Some(CannotRemoveLastOwner))
    ensures r.1 == Some(CannotRemoveLastOwner) <==>
              (orgId, userId) in store.roles && IsOwnerRole(store.roles[(orgId, userId)]) && |Owners(store, orgId)| <= 1
    ensures r.1.None? ==> r.0 == store.(roles := store.roles - {(orgId, userId)})
  {
    if (orgId, userId) !in store.roles then (store, None)
    else if IsOwnerRole(store.roles[(orgId, userId)]) && |Owners(store, orgId)| <= 1 then (store, Some(CannotRemoveLastOwner))
    else (store.(roles := store.roles - {(orgId, userId)}), None)
  }

  /** Removing one user from the owners of an organization that has at least two leaves at least one. */
  lemma OwnersAfterLosing(store: OrgStore, store': OrgStore, orgId: int, userId: int)
    requires Owners(store', orgId) == Owners(store, orgId) - {userId}
    requires |Owners(store, orgId)| >= 2 || userId !in Owners(store, orgId)
    ensures |Owners(store', orgId)| >= 1 || |Owners(store, orgId)| == 0
  {
    RemoveOneCard(Owners(store, orgId), userId);
  }

  /** Taking one element out of a set shrinks it by one exactly when the element was there. */
  lemma RemoveOneCard(s: set<int>, x: int)
    ensures |s - {x}| == if x in s then |s| - 1 else |s|
  {
    if x !in s {
      assert s - {x} == s;
    }
  }

  /** Changing one membership changes the owner set of its organization only at that user. */
  lemma OwnersAfterWrite(store: OrgStore, orgId: int, userId: int, role: String)
    ensures Owners(store.(roles := store.roles[(orgId, userId) := role]), orgId)
            == (if IsOwnerRole(role) then Owners(store, orgId) + {userId} else Owners(store, orgId) - {userId})
  {
    var s' := store.(roles := store.roles[(orgId, userId) := role]);
    var want := if IsOwnerRole(role) then Owners(store, orgId) + {userId} else Owners(store, orgId) - {userId};
    var after := Owners(s', orgId);
    forall u ensures u in after <==> u in want {
      OwnersMember(s', orgId, u);
      OwnersMember(store, orgId, u);
    }
    SameMembers(after, want);
  }

  lemma SameMembers(a: set<int>, b: set<int>)
    requires forall u :: u in a <==> u in b
    ensures a == b
  {
    forall u ensures u in a <==> u in b {
    }
  }

  /** A user is an owner of an organization exactly when the role stored for the pair folds to "owner". */
  lemma OwnersMember(store: OrgStore, orgId: int, u: int)
    ensures u in Owners(store, orgId) <==> (orgId, u) in store.roles && IsOwnerRole(store.roles[(orgId, u)])
  {
    if u in Owners(store, orgId) {
      var key :| key in store.roles && key.0 == orgId && IsOwnerRole(store.roles[key]) && key.1 == u;
      assert key == (orgId, u);
    }
  }

  lemma OwnersAfterDelete(store: OrgStore, orgId: int, userId: int)
    ensures Owners(store.(roles := store.roles - {(orgId, userId)}), orgId) == Owners(store, orgId) - {userId}
  {
    var s' := store.(roles := store.roles - {(orgId, userId)});
    forall u | u in Owners(store, orgId) - {userId} ensures u in Owners(s', orgId) {
      assert (orgId, u) in s'.roles;
    }
  }

  /** An organization that has an owner keeps one through any role change. */
  lemma UpdateMemberRoleKeepsAnOwner(store: OrgStore, orgId: int, userId: int, role: String)
    requires |Owners(store, orgId)| >= 1
    ensures |Owners(UpdateMemberRole(store, orgId, userId, role).0, orgId)| >= 1
  {
    var r := UpdateMemberRole(store, orgId, userId, role);
    var normalized := NormalizeRole(role);
    if r.1.None? {
      assert r.0 == store.(roles := store.roles[(orgId, userId) := normalized]);
      if normalized == RoleOwner {
        PromoteKeepsOwner(store, orgId, userId);
      } else {
        assert normalized in {RoleAdmin, RoleMember};
        DemoteKeepsOwner(store, orgId, userId, normalized);
      }
    }
  }

  lemma PromoteKeepsOwner(store: OrgStore, orgId: int, userId: int)
    ensures |Owners(store.(roles := store.roles[(orgId, userId) := RoleOwner]), orgId)| >= 1
  {
    NormalizedRolesOwnership();
    OwnersAfterWrite(store, orgId, userId, RoleOwner);
  }

  lemma DemoteKeepsOwner(store: OrgStore, orgId: int, userId: int, role: String)
    requires role in {RoleAdmin, RoleMember}
    requires |Owners(store, orgId)| >= 1
    requires (orgId, userId) in store.roles && IsOwnerRole(store.roles[(orgId, userId)]) ==> |Owners(store, orgId)| >= 2
    ensures |Owners(store.(roles := store.roles[(orgId, userId) := role]), orgId)| >= 1
  {
    NormalizedRolesOwnership();
    var s' := store.(roles := store.roles[(orgId, userId) := role]);
    OwnersAfterWrite(store, orgId, userId, role);
    assert userId in Owners(store, orgId) ==> (orgId, userId) in store.roles && IsOwnerRole(store.roles[(orgId, userId)]);
    OwnersAfterLosing(store, s', orgId, userId);
  }

  /** An organization that has an owner keeps one through any member removal. */
  lemma RemoveMemberKeepsAnOwner(store: OrgStore, orgId: int, userId: int)
    requires |Owners(store, orgId)| >= 1
    ensures |Owners(RemoveMember(store, orgId, userId).0, orgId)| >= 1
  {
    var r := RemoveMember(store, orgId, userId);
    if r.1.None? && (orgId, userId) in store.roles {
      OwnersAfterDelete(store, orgId, userId);
      assert userId in Owners(store, orgId) ==> (orgId, userId) in store.roles && IsOwnerRole(store.roles[(orgId, userId)]);
      OwnersAfterLosing(store, r.0, orgId, userId);
    }
  }

  // ---------------------------------------------------------------------------
  // SetOrganizationEnabled and DeleteOrganization

  /** The enabled flag of one organization set, the others untouched (UpdateOrganizationEnabled). */
  function WithEnabled(orgs: seq<Organization>, id: int, enabled: bool): (r: seq<Organization>)
    ensures |r| == |orgs|
    ensures forall k :: 0 <= k < |orgs| ==> r[k] == (if orgs[k].id == id then orgs[k].(enabled := enabled) else orgs[k])
  {
    seq(|orgs|, k requires 0 <= k < |orgs| => if orgs[k].id == id then orgs[k].(enabled := enabled) else orgs[k])
  }

  /** The enabledCount loop. */
  method CountEnabled(orgs: seq<Organization>) returns (count: nat)
    ensures count == EnabledCount(orgs)
  {
    count := 0;
    var i := |orgs|;
    while i > 0
      invariant 0 <= i <= |orgs|
      invariant count == EnabledCount(orgs[i..])
    {
      i := i - 1;
      assert orgs[i..][1..] == orgs[i + 1..];
      if orgs[i].enabled {
        count := count + 1;
      }
    }
  }

  /**
   * SetOrganizationEnabled: a non-positive id is a no-op; disabling an unknown organization, or
   * the enabled one when at most one organization is enabled, is silently skipped; anything
   * else is written.
   */
  method SetOrganizationEnabled(store: OrgStore, orgId: int, enabled: bool) returns (store': OrgStore)
    ensures orgId <= 0 ==> store' == store
    ensures enabled && orgId > 0 ==> store' == store.(orgs := WithEnabled(store.orgs, orgId, true))
    ensures !enabled && orgId > 0 ==>
              var org := OrganizationById(store.orgs, orgId);
              store' == if org.None? || (org.value.enabled && EnabledCount(store.orgs) <= 1) then store
                        else store.(orgs := WithEnabled(store.orgs, orgId, false))
  {
    if orgId <= 0 {
      return store;
    }
    if !enabled {
      var enabledCount := CountEnabled(store.orgs);
      var org := OrganizationById(store.orgs, orgId);
      if org.None? {
        return store;
      }
      if org.value.enabled && enabledCount <= 1 {
        return store;
      }
    }
    store' := store.(orgs := WithEnabled(store.orgs, orgId, enabled));
  }

  /** Disabling one organization lowers the count of enabled ones by at most one. */
  lemma {:induction false} DisableCount(orgs: seq<Organization>, id: int)
    requires forall i, j :: 0 <= i < j < |orgs| ==> orgs[i].id != orgs[j].id
    ensures EnabledCount(WithEnabled(orgs, id, false)) + 1 >= EnabledCount(orgs)
    ensures OrganizationById(orgs, id).Some? && !OrganizationById(orgs, id).value.enabled ==>
              EnabledCount(WithEnabled(orgs, id, false)) == EnabledCount(orgs)
  {
    if orgs != [] {
      DisableCount(orgs[1..], id);
      assert WithEnabled(orgs, id, false)[1..] == WithEnabled(orgs[1..], id, false);
      if orgs[0].id == id {
        NotInRest(orgs, id);
        WithEnabledAbsent(orgs[1..], id);
      }
    }
  }

  lemma NotInRest(orgs: seq<Organization>, id: int)
    requires orgs != [] && orgs[0].id == id
    requires forall i, j :: 0 <= i < j < |orgs| ==> orgs[i].id != orgs[j].id
    ensures forall k :: 0 <= k < |orgs[1..]| ==> orgs[1..][k].id != id
  {
    forall k | 0 <= k < |orgs[1..]| ensures orgs[1..][k].id != id {
      assert orgs[1..][k] == orgs[k + 1];
    }
  }

  lemma WithEnabledAbsent(orgs: seq<Organization>, id: int)
    requires forall k :: 0 <= k < |orgs| ==> orgs[k].id != id
    ensures WithEnabled(orgs, id, false) == orgs
  {
  }

  /** The organization found by id is enabled, and counted, when its flag says so. */
  lemma {:induction false} FoundEnabledCounted(orgs: seq<Organization>, id: int)
    requires OrganizationById(orgs, id).Some? && OrganizationById(orgs, id).value.enabled
    ensures EnabledCount(orgs) >= 1
  {
    if orgs[0].id != id {
      FoundEnabledCounted(orgs[1..], id);
    }
  }

  /** While some organization is enabled, SetOrganizationEnabled never leaves none enabled. */
  lemma SetOrganizationEnabledKeepsOneEnabled(store: OrgStore, store': OrgStore, orgId: int)
    requires ValidStore(store) && EnabledCount(store.orgs) >= 1
    requires orgId > 0
    requires var org := OrganizationById(store.orgs, orgId);
             store' == if org.None? || (org.value.enabled && EnabledCount(store.orgs) <= 1) then store
                       else store.(orgs := WithEnabled(store.orgs, orgId, false))
    ensures EnabledCount(store'.orgs) >= 1
  {
    var org := OrganizationById(store.orgs, orgId);
    if store' != store {
      DisableCount(store.orgs, orgId);
    }
  }

  /**
   * DeleteOrganization: a non-positive id is a no-op; with at most one organization the delete is
   * refused; otherwise the store removes the organization together with its memberships (the
   * cascade of the store's DeleteOrganization), and every other membership keeps its role.
   */
  function DeleteOrganization(store: OrgStore, orgId: int): (r: (OrgStore, Option<OrgError>))
    ensures orgId <= 0 ==> r == (store, None)
    ensures orgId > 0 && |store.orgs| <= 1 ==> r == (store, Some(CannotDeleteLastOrganization))
    ensures orgId > 0 && |store.orgs| > 1 ==> r.1 == None
    ensures r.1.None? && orgId > 0 ==> forall key :: key in r.0.roles <==> key in store.roles && key.0 != orgId
    ensures r.1.None? && orgId > 0 ==> forall key :: key in r.0.roles ==> r.0.roles[key] == store.roles[key]
    ensures r.1.None? && orgId > 0 ==> forall k :: 0 <= k < |r.0.orgs| ==> r.0.orgs[k] in store.orgs && r.0.orgs[k].id != orgId
    ensures r.1.None? && orgId > 0 ==> forall k :: 0 <= k < |store.orgs| ==> store.orgs[k].id == orgId || store.orgs[k] in r.0.orgs
  {
    if orgId <= 0 then (store, None)
    else if |store.orgs| <= 1 then (store, Some(CannotDeleteLastOrganization))
    else (OrgStore(Without(store.orgs, orgId), map key | key in store.roles && key.0 != orgId :: store.roles[key]), None)
  }

  /** After a delete nobody can manage the deleted organization, and it has no owner left. */
  lemma DeletedOrganizationUnmanaged(store: OrgStore, orgId: int, userId: int)
    requires orgId > 0 && |store.orgs| > 1
    ensures !CanManageOrganization(DeleteOrganization(store, orgId).0, orgId, userId)
    ensures Owners(DeleteOrganization(store, orgId).0, orgId) == {}
  {
    var s' := DeleteOrganization(store, orgId).0;
    assert (orgId, userId) !in s'.roles;
    forall u ensures u !in Owners(s', orgId) {
      OwnersMember(s', orgId, u);
    }
  }

  /** The organizations without the one deleted. */
  function Without(orgs: seq<Organization>, id: int): (r: seq<Organization>)
    ensures forall k :: 0 <= k < |r| ==> r[k] in orgs && r[k].id != id
    ensures forall k :: 0 <= k < |orgs| ==> orgs[k].id == id || orgs[k] in r
  {
    if orgs == [] then []
    else if orgs[0].id == id then Without(orgs[1..], id)
    else [orgs[0]] + Without(orgs[1..], id)
  }

  /** Deleting keeps the order of what remains: it distributes over concatenation. */
  lemma {:induction false} WithoutConcat(a: seq<Organization>, b: seq<Organization>, id: int)
    ensures Without(a + b, id) == Without(a, id) + Without(b, id)
  {
    if a == [] {
      assert a + b == b;
    } else {
      var ab := a + b;
      assert ab[0] == a[0] && ab[1..] == a[1..] + b;
      WithoutConcat(a[1..], b, id);
      if a[0].id == id {
        assert Without(ab, id) == Without(a[1..] + b, id);
        assert Without(a, id) == Without(a[1..], id);
      } else {
        assert Without(ab, id) == [a[0]] + Without(a[1..] + b, id);
        assert Without(a, id) == [a[0]] + Without(a[1..], id);
        ConsAssoc(a[0], Without(a[1..], id), Without(b, id));
      }
    }
  }

  lemma ConsAssoc<T>(x: T, p: seq<T>, q: seq<T>)
    ensures [x] + (p + q) == ([x] + p) + q
  {
  }

  /** With unique ids, deleting removes at most one organization. */
  lemma {:induction false} WithoutLength(orgs: seq<Organization>, id: int)
    requires forall i, j :: 0 <= i < j < |orgs| ==> orgs[i].id != orgs[j].id
    ensures |Without(orgs, id)| + 1 >= |orgs|
  {
    if orgs != [] {
      WithoutLength(orgs[1..], id);
      if orgs[0].id == id {
        NotInRest(orgs, id);
        WithoutAbsent(orgs[1..], id);
      }
    }
  }

  lemma {:induction false} WithoutAbsent(orgs: seq<Organization>, id: int)
    requires forall k :: 0 <= k < |orgs| ==> orgs[k].id != id
    ensures Without(orgs, id) == orgs
  {
    if orgs != [] {
      WithoutAbsent(orgs[1..], id);
      assert orgs == [orgs[0]] + orgs[1..];
    }
  }

  /** DeleteOrganization never removes the last organization. */
  lemma DeleteOrganizationKeepsOne(store: OrgStore, orgId: int)
    requires ValidStore(store) && |store.orgs| >= 1
    ensures |DeleteOrganization(store, orgId).0.orgs| >= 1
  {
    if orgId > 0 && |store.orgs| > 1 {
      WithoutLength(store.orgs, orgId);
    }
  }
}
