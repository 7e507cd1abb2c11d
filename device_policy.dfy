/**
 An in-memory device-administration policy store: the state behind the test
 double of Android's DevicePolicyManager.

 Every query is total and answers a default (false, the empty bundle, the empty
 list) for anything never written. Policy calls take the calling admin as their
 first argument, as the platform API does; the store does not consult it.
 */
module DevicePolicy {
  import opened AccountTypes

  /** An admin receiver, identified as the platform does by package and class name. */
  datatype Component = Component(packageName: string, className: string)

  datatype Option<T> = None | Some(value: T)

  /** A restrictions bundle with string values; the empty map is the empty bundle. */
  type Bundle = map<string, string>

  const EmptyBundle: Bundle := map[]

  /** Bundle.getString(key, default): the value stored under `key`, else `default`. */
  function GetString(b: Bundle, key: string, default: string): (r: string)
    ensures key in b ==> r == b[key]
    ensures key !in b ==> r == default
  {
    if key in b then b[key] else default
  }

  class DevicePolicyStore {
    var deviceOwner: Option<Component>
    var profileOwner: Option<Component>
    /** Admins activated explicitly or by becoming an owner; an admin is never deactivated. */
    var activeAdmins: set<Component>
    /** Packages currently hidden. */
    var hiddenPackages: set<string>
    /** Packages hidden at some point; never shrinks. */
    var everHiddenPackages: set<string>
    var uninstallBlockedPackages: set<string>
    var applicationRestrictions: map<string, Bundle>
    /** The current user's restrictions, read as Bundle.getBoolean (absent means false). */
    var userRestrictions: map<string, bool>
    var disabledAccountTypes: seq<string>
    var enabledSystemApps: set<string>

    /**
     Both owners are active admins; a hidden package has been hidden; no account
     type is listed twice.
     */
    ghost predicate Valid()
      reads this
    {
      && (deviceOwner.Some? ==> deviceOwner.value in activeAdmins)
      && (profileOwner.Some? ==> profileOwner.value in activeAdmins)
      && hiddenPackages <= everHiddenPackages
      && NoDuplicates(disabledAccountTypes)
    }

    /** A fresh store: no owner, no admin, nothing hidden, blocked, restricted or disabled. */
    constructor ()
      ensures Valid()
      ensures deviceOwner == None && profileOwner == None && activeAdmins == {}
      ensures hiddenPackages == {} && everHiddenPackages == {}
      ensures uninstallBlockedPackages == {} && enabledSystemApps == {}
      ensures applicationRestrictions == map[] && userRestrictions == map[]
      ensures disabledAccountTypes == []
    {
      deviceOwner := None;
      profileOwner := None;
      activeAdmins := {};
      hiddenPackages := {};
      everHiddenPackages := {};
      uninstallBlockedPackages := {};
      applicationRestrictions := map[];
      userRestrictions := map[];
      disabledAccountTypes := [];
      enabledSystemApps := {};
    }

    // ---------------------------------------------------------------- owners and admins

    /** True when `c` holds the device-owner or the profile-owner slot. */
    predicate IsOwner(c: Component)
      reads this
    {
      deviceOwner == Some(c) || profileOwner == Some(c)
    }

    /** isAdminActive: in a valid store every owner is active. */
    predicate IsAdminActive(admin: Component)
      reads this
      requires Valid()
      ensures IsOwner(admin) ==> IsAdminActive(admin)
    {
      admin in activeAdmins
    }

    /** isDeviceOwnerApp: only the device-owner slot is consulted. */
    predicate IsDeviceOwnerApp(packageName: string)
      reads this
      requires Valid()
      ensures IsDeviceOwnerApp(packageName) ==>
                deviceOwner.Some? && deviceOwner.value.packageName == packageName && IsAdminActive(deviceOwner.value)
    {
      deviceOwner.Some? && deviceOwner.value.packageName == packageName
    }

    /** isProfileOwnerApp: only the profile-owner slot is consulted. */
    predicate IsProfileOwnerApp(packageName: string)
      reads this
      requires Valid()
      ensures IsProfileOwnerApp(packageName) ==>
                profileOwner.Some? && profileOwner.value.packageName == packageName && IsAdminActive(profileOwner.value)
    {
      profileOwner.Some? && profileOwner.value.packageName == packageName
    }

    /** getActiveAdmins: every active admin, owners included. */
    function GetActiveAdmins(): (r: set<Component>)
      reads this
      requires Valid()
      ensures forall c :: c in r <==> IsAdminActive(c)
      ensures deviceOwner.Some? ==> deviceOwner.value in r
      ensures profileOwner.Some? ==> profileOwner.value in r
    {
      activeAdmins
    }

    method SetDeviceOwner(admin: Component)
      requires Valid()
      modifies this`deviceOwner, this`activeAdmins
      ensures Valid()
      ensures deviceOwner == Some(admin)
      ensures activeAdmins == old(activeAdmins) + {admin}
      ensures IsDeviceOwnerApp(admin.packageName) && IsAdminActive(admin)
      ensures forall p :: IsDeviceOwnerApp(p) <==> p == admin.packageName
      ensures forall p :: IsProfileOwnerApp(p) == old(IsProfileOwnerApp(p))
      ensures forall c :: old(IsAdminActive(c)) ==> IsAdminActive(c)
    {
      deviceOwner := Some(admin);
      activeAdmins := activeAdmins + {admin};
    }

    method SetProfileOwner(admin: Component)
      requires Valid()
      modifies this`profileOwner, this`activeAdmins
      ensures Valid()
      ensures profileOwner == Some(admin)
      ensures activeAdmins == old(activeAdmins) + {admin}
      ensures IsProfileOwnerApp(admin.packageName) && IsAdminActive(admin)
      ensures forall p :: IsProfileOwnerApp(p) <==> p == admin.packageName
      ensures forall p :: IsDeviceOwnerApp(p) == old(IsDeviceOwnerApp(p))
      ensures forall c :: old(IsAdminActive(c)) ==> IsAdminActive(c)
    {
      profileOwner := Some(admin);
      activeAdmins := activeAdmins + {admin};
    }

    method SetActiveAdmin(admin: Component)
      requires Valid()
      modifies this`activeAdmins
      ensures Valid()
      ensures activeAdmins == old(activeAdmins) + {admin}
      ensures IsAdminActive(admin)
      ensures forall c :: c != admin ==> IsAdminActive(c) == old(IsAdminActive(c))
    {
      activeAdmins := activeAdmins + {admin};
    }

    // ---------------------------------------------------------------- user restrictions

    /** The current user's restriction `key`, false unless added and not cleared since. */
    predicate GetUserRestriction(key: string)
      reads this
      ensures userRestrictions == map[] ==> !GetUserRestriction(key)
    {
      key in userRestrictions && userRestrictions[key]
    }

    method AddUserRestriction(admin: Component, key: string)
      requires Valid()
      modifies this`userRestrictions
      ensures Valid()
      ensures userRestrictions == old(userRestrictions)[key := true]
      ensures GetUserRestriction(key)
      ensures forall k :: k != key ==> GetUserRestriction(k) == old(GetUserRestriction(k))
    {
      userRestrictions := userRestrictions[key := true];
    }

    method ClearUserRestriction(admin: Component, key: string)
      requires Valid()
      modifies this`userRestrictions
      ensures Valid()
      ensures userRestrictions == old(userRestrictions)[key := false]
      ensures !GetUserRestriction(key)
      ensures forall k :: k != key ==> GetUserRestriction(k) == old(GetUserRestriction(k))
    {
      userRestrictions := userRestrictions[key := false];
    }

    // ---------------------------------------------------------------- hiding packages

    /** isApplicationHidden: the last value written, false if never written. */
    predicate IsApplicationHidden(admin: Component, packageName: string)
      reads this
      requires Valid()
      ensures IsApplicationHidden(admin, packageName) ==> WasPackageEverHidden(packageName)
    {
      packageName in hiddenPackages
    }

    /** wasPackageEverHidden: whether any write ever hid the package. */
    predicate WasPackageEverHidden(packageName: string)
      reads this
      ensures everHiddenPackages == {} ==> !WasPackageEverHidden(packageName)
    {
      packageName in everHiddenPackages
    }

    method SetApplicationHidden(admin: Component, packageName: string, hidden: bool)
      requires Valid()
      modifies this`hiddenPackages, this`everHiddenPackages
      ensures Valid()
      ensures hiddenPackages == if hidden then old(hiddenPackages) + {packageName}
                                else old(hiddenPackages) - {packageName}
      ensures everHiddenPackages == if hidden then old(everHiddenPackages) + {packageName}
                                    else old(everHiddenPackages)
      ensures IsApplicationHidden(admin, packageName) == hidden
      ensures WasPackageEverHidden(packageName) == (hidden || old(WasPackageEverHidden(packageName)))
      ensures forall p :: old(WasPackageEverHidden(p)) ==> WasPackageEverHidden(p)
      ensures forall p :: p != packageName ==> IsApplicationHidden(admin, p) == old(IsApplicationHidden(admin, p))
    {
      if hidden {
        hiddenPackages := hiddenPackages + {packageName};
        everHiddenPackages := everHiddenPackages + {packageName};
      } else {
        hiddenPackages := hiddenPackages - {packageName};
      }
    }

    // ---------------------------------------------------------------- system apps

    /** wasSystemAppEnabled: whether enableSystemApp was ever called for the package. */
    predicate WasSystemAppEnabled(packageName: string)
      reads this
      ensures enabledSystemApps == {} ==> !WasSystemAppEnabled(packageName)
    {
      packageName in enabledSystemApps
    }

    method EnableSystemApp(admin: Component, packageName: string)
      requires Valid()
      modifies this`enabledSystemApps
      ensures Valid()
      ensures enabledSystemApps == old(enabledSystemApps) + {packageName}
      ensures WasSystemAppEnabled(packageName)
      ensures forall p :: old(WasSystemAppEnabled(p)) ==> WasSystemAppEnabled(p)
    {
      enabledSystemApps := enabledSystemApps + {packageName};
    }

    // ---------------------------------------------------------------- uninstall blocking

    /** isUninstallBlocked: the last value written, false if never written. */
    predicate IsUninstallBlocked(admin: Component, packageName: string)
      reads this
      ensures uninstallBlockedPackages == {} ==> !IsUninstallBlocked(admin, packageName)
    {
      packageName in uninstallBlockedPackages
    }

    method SetUninstallBlocked(admin: Component, packageName: string, uninstallBlocked: bool)
      requires Valid()
      modifies this`uninstallBlockedPackages
      ensures Valid()
      ensures uninstallBlockedPackages == if uninstallBlocked then old(uninstallBlockedPackages) + {packageName}
                                          else old(uninstallBlockedPackages) - {packageName}
      ensures IsUninstallBlocked(admin, packageName) == uninstallBlocked
      ensures forall p :: p != packageName ==> IsUninstallBlocked(admin, p) == old(IsUninstallBlocked(admin, p))
    {
      if uninstallBlocked {
        uninstallBlockedPackages := uninstallBlockedPackages + {packageName};
      } else {
        uninstallBlockedPackages := uninstallBlockedPackages - {packageName};
      }
    }

    // ---------------------------------------------------------------- application restrictions

    /** getApplicationRestrictions: the bundle last set for the package, else the empty bundle. */
    function GetApplicationRestrictions(admin: Component, packageName: string): (r: Bundle)
      reads this
      ensures packageName !in applicationRestrictions ==> r == EmptyBundle
      ensures packageName in applicationRestrictions ==> r == applicationRestrictions[packageName]
    {
      if packageName in applicationRestrictions then applicationRestrictions[packageName] else EmptyBundle
    }

    method SetApplicationRestrictions(admin: Component, packageName: string, settings: Bundle)
      requires Valid()
      modifies this`applicationRestrictions
      ensures Valid()
      ensures applicationRestrictions == old(applicationRestrictions)[packageName := settings]
      ensures GetApplicationRestrictions(admin, packageName) == settings
      ensures forall key, default :: key in settings ==>
                GetString(GetApplicationRestrictions(admin, packageName), key, default) == settings[key]
      ensures forall p :: p != packageName ==>
                GetApplicationRestrictions(admin, p) == old(GetApplicationRestrictions(admin, p))
    {
      applicationRestrictions := applicationRestrictions[packageName := settings];
    }

    // ---------------------------------------------------------------- account management

    /**
     getAccountTypesWithManagementDisabled: each disabled type once. A newly disabled
     type goes to the end; a type re-enabled and then disabled again moves to the end.
     */
    function GetAccountTypesWithManagementDisabled(): (r: seq<string>)
      reads this
      requires Valid()
      ensures NoDuplicates(r)
    {
      disabledAccountTypes
    }

    method SetAccountManagementDisabled(admin: Component, accountType: string, disabled: bool)
      requires Valid()
      modifies this`disabledAccountTypes
      ensures Valid()
      ensures disabledAccountTypes == if disabled then Insert(old(disabledAccountTypes), accountType)
                                      else Remove(old(disabledAccountTypes), accountType)
      ensures accountType in GetAccountTypesWithManagementDisabled() <==> disabled
      ensures forall t :: t != accountType ==>
                (t in GetAccountTypesWithManagementDisabled() <==> t in old(GetAccountTypesWithManagementDisabled()))
      ensures disabled && accountType !in old(disabledAccountTypes) ==>
                disabledAccountTypes == old(disabledAccountTypes) + [accountType]
    {
      disabledAccountTypes := if disabled then Insert(disabledAccountTypes, accountType)
                              else Remove(disabledAccountTypes, accountType);
    }
  }
}
