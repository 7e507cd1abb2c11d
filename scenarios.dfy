/**
 Call sequences on the device policy store and what the queries answer
 afterwards. Each `ShouldX` method starts, as each unit test of the shadow does,
 from a freshly created store, but for an arbitrary admin component, package,
 key or account type instead of one fixed example. The `...Any` methods state the
 same round trips from an arbitrary valid store.
 */
module PolicyScenarios {
  import opened AccountTypes
  import opened DevicePolicy

  // ---------------------------------------------------------------- owners

  method IsDeviceOwnerAppShouldReturnFalseForNonDeviceOwnerApp(admin: Component) returns (isDeviceOwner: bool)
    ensures !isDeviceOwner
  {
    var store := new DevicePolicyStore();
    isDeviceOwner := store.IsDeviceOwnerApp(admin.packageName);
  }

  method IsDeviceOwnerShouldReturnFalseForProfileOwner(admin: Component) returns (isDeviceOwner: bool)
    ensures !isDeviceOwner
  {
    var store := new DevicePolicyStore();
    store.SetProfileOwner(admin);
    isDeviceOwner := store.IsDeviceOwnerApp(admin.packageName);
  }

  method IsDeviceOwnerShouldReturnTrueForDeviceOwner(admin: Component) returns (isDeviceOwner: bool)
    ensures isDeviceOwner
  {
    var store := new DevicePolicyStore();
    store.SetDeviceOwner(admin);
    isDeviceOwner := store.IsDeviceOwnerApp(admin.packageName);
  }

  method IsProfileOwnerAppShouldReturnFalseForNonProfileOwnerApp(admin: Component) returns (isProfileOwner: bool)
    ensures !isProfileOwner
  {
    var store := new DevicePolicyStore();
    isProfileOwner := store.IsProfileOwnerApp(admin.packageName);
  }

  method IsProfileOwnerShouldReturnFalseForDeviceOwner(admin: Component) returns (isProfileOwner: bool)
    ensures !isProfileOwner
  {
    var store := new DevicePolicyStore();
    store.SetDeviceOwner(admin);
    isProfileOwner := store.IsProfileOwnerApp(admin.packageName);
  }

  method IsProfileOwnerShouldReturnTrueForProfileOwner(admin: Component) returns (isProfileOwner: bool)
    ensures isProfileOwner
  {
    var store := new DevicePolicyStore();
    store.SetProfileOwner(admin);
    isProfileOwner := store.IsProfileOwnerApp(admin.packageName);
  }

  // ---------------------------------------------------------------- active admins

  method IsAdminActiveShouldReturnFalseForNonAdminDevice(admin: Component) returns (active: bool)
    ensures !active
  {
    var store := new DevicePolicyStore();
    active := store.IsAdminActive(admin);
  }

  method IsAdminActiveShouldReturnTrueForAnyDeviceAdminDevice(admin: Component) returns (active: bool)
    ensures active
  {
    var store := new DevicePolicyStore();
    store.SetActiveAdmin(admin);
    active := store.IsAdminActive(admin);
  }

  method GetActiveAdminsShouldReturnDeviceOwner(admin: Component) returns (admins: set<Component>)
    ensures admin in admins
  {
    var store := new DevicePolicyStore();
    store.SetDeviceOwner(admin);
    admins := store.GetActiveAdmins();
  }

  method GetActiveAdminsShouldReturnProfileOwner(admin: Component) returns (admins: set<Component>)
    ensures admin in admins
  {
    var store := new DevicePolicyStore();
    store.SetProfileOwner(admin);
    admins := store.GetActiveAdmins();
  }

  /** An owner that is replaced by another stays an active admin. */
  method ReplacedDeviceOwnerStaysActive(first: Component, second: Component) returns (active: bool)
    ensures active
  {
    var store := new DevicePolicyStore();
    store.SetDeviceOwner(first);
    store.SetDeviceOwner(second);
    active := store.IsAdminActive(first);
  }

  // ---------------------------------------------------------------- user restrictions

  method AddUserRestrictionShouldWorkAsIntendedForDeviceOwner(admin: Component, key: string)
    returns (restricted: bool)
    ensures restricted
  {
    var store := new DevicePolicyStore();
    store.SetDeviceOwner(admin);
    store.AddUserRestriction(admin, key);
    restricted := store.GetUserRestriction(key);
  }

  method AddUserRestrictionShouldWorkAsIntendedForProfileOwner(admin: Component, key: string)
    returns (restricted: bool)
    ensures restricted
  {
    var store := new DevicePolicyStore();
    store.SetProfileOwner(admin);
    store.AddUserRestriction(admin, key);
    restricted := store.GetUserRestriction(key);
  }

  method ClearUserRestrictionShouldWorkAsIntendedForActiveAdmins(admin: Component, key: string)
    returns (restricted: bool)
    ensures !restricted
  {
    var store := new DevicePolicyStore();
    store.SetDeviceOwner(admin);
    store.AddUserRestriction(admin, key);
    store.ClearUserRestriction(admin, key);
    restricted := store.GetUserRestriction(key);
  }

  // ---------------------------------------------------------------- hidden packages

  method IsApplicationHiddenShouldReturnFalseForAppsByDefault(admin: Component, app: string)
    returns (hidden: bool)
    ensures !hidden
  {
    var store := new DevicePolicyStore();
    store.SetDeviceOwner(admin);
    hidden := store.IsApplicationHidden(admin, app);
  }

  method IsApplicationHiddenShouldReturnTrueForHiddenApps(admin: Component, app: string)
    returns (hidden: bool)
    ensures hidden
  {
    var store := new DevicePolicyStore();
    store.SetDeviceOwner(admin);
    store.SetApplicationHidden(admin, app, true);
    hidden := store.IsApplicationHidden(admin, app);
  }

  method IsApplicationHiddenShouldReturnFalseForNonHiddenApps(admin: Component, app: string)
    returns (hidden: bool)
    ensures !hidden
  {
    var store := new DevicePolicyStore();
    store.SetDeviceOwner(admin);
    store.SetApplicationHidden(admin, app, false);
    hidden := store.IsApplicationHidden(admin, app);
  }

  method SetApplicationHiddenShouldBeAbleToUnhideHiddenApps(admin: Component, app: string)
    returns (hidden: bool)
    ensures !hidden
  {
    var store := new DevicePolicyStore();
    store.SetDeviceOwner(admin);
    store.SetApplicationHidden(admin, app, true);
    store.SetApplicationHidden(admin, app, false);
    hidden := store.IsApplicationHidden(admin, app);
  }

  method WasPackageEverHiddenShouldReturnFalseForPackageNeverHidden(admin: Component, app: string)
    returns (everHidden: bool)
    ensures !everHidden
  {
    var store := new DevicePolicyStore();
    store.SetDeviceOwner(admin);
    everHidden := store.WasPackageEverHidden(app);
  }

  method WasPackageEverHiddenShouldReturnTrueForPackageWhichIsHidden(admin: Component, app: string)
    returns (everHidden: bool)
    ensures everHidden
  {
    var store := new DevicePolicyStore();
    store.SetDeviceOwner(admin);
    store.SetApplicationHidden(admin, app, true);
    everHidden := store.WasPackageEverHidden(app);
  }

  method WasPackageEverHiddenShouldReturnTrueForPackageWhichWasHidden(admin: Component, app: string)
    returns (everHidden: bool)
    ensures everHidden
  {
    var store := new DevicePolicyStore();
    store.SetDeviceOwner(admin);
    store.SetApplicationHidden(admin, app, true);
    store.SetApplicationHidden(admin, app, false);
    everHidden := store.WasPackageEverHidden(app);
  }

  /** From any store: hiding then unhiding leaves the package visible but latched as ever hidden. */
  method HideThenUnhideAny(store: DevicePolicyStore, admin: Component, app: string)
    requires store.Valid()
    modifies store`hiddenPackages, store`everHiddenPackages
    ensures store.Valid()
    ensures store.hiddenPackages == old(store.hiddenPackages) - {app}
    ensures store.everHiddenPackages == old(store.everHiddenPackages) + {app}
    ensures !store.IsApplicationHidden(admin, app) && store.WasPackageEverHidden(app)
    ensures forall p :: old(store.WasPackageEverHidden(p)) ==> store.WasPackageEverHidden(p)
    ensures forall p :: p != app ==> store.IsApplicationHidden(admin, p) == old(store.IsApplicationHidden(admin, p))
  {
    store.SetApplicationHidden(admin, app, true);
    store.SetApplicationHidden(admin, app, false);
  }

  // ---------------------------------------------------------------- system apps and uninstall blocking

  method EnableSystemAppShouldWorkForActiveAdmins(admin: Component, app: string)
    returns (enabled: bool)
    ensures enabled
  {
    var store := new DevicePolicyStore();
    store.SetDeviceOwner(admin);
    store.EnableSystemApp(admin, app);
    enabled := store.WasSystemAppEnabled(app);
  }

  method IsUninstallBlockedShouldReturnFalseForAppsNeverBeingBlocked(admin: Component, app: string)
    returns (blocked: bool)
    ensures !blocked
  {
    var store := new DevicePolicyStore();
    store.SetDeviceOwner(admin);
    blocked := store.IsUninstallBlocked(admin, app);
  }

  method IsUninstallBlockedShouldReturnTrueForAppsBeingBlocked(admin: Component, app: string)
    returns (blocked: bool)
    ensures blocked
  {
    var store := new DevicePolicyStore();
    store.SetDeviceOwner(admin);
    store.SetUninstallBlocked(admin, app, true);
    blocked := store.IsUninstallBlocked(admin, app);
  }

  method IsUninstallBlockedShouldReturnFalseForAppsBeingUnblocked(admin: Component, app: string)
    returns (blocked: bool)
    ensures !blocked
  {
    var store := new DevicePolicyStore();
    store.SetDeviceOwner(admin);
    store.SetUninstallBlocked(admin, app, true);
    store.SetUninstallBlocked(admin, app, false);
    blocked := store.IsUninstallBlocked(admin, app);
  }

  // ---------------------------------------------------------------- application restrictions

  method SetApplicationRestrictionsShouldWorkAsIntendedForDeviceOwner(admin: Component, app: string)
    returns (value: string)
    ensures value == "value"
  {
    var store := new DevicePolicyStore();
    store.SetDeviceOwner(admin);
    store.SetApplicationRestrictions(admin, app, map["key" := "value"]);
    var actual := store.GetApplicationRestrictions(admin, app);
    value := GetString(actual, "key", "default value");
  }

  method SetApplicationRestrictionsShouldWorkAsIntendedForProfileOwner(admin: Component, app: string)
    returns (value: string)
    ensures value == "value"
  {
    var store := new DevicePolicyStore();
    store.SetProfileOwner(admin);
    store.SetApplicationRestrictions(admin, app, map["key" := "value"]);
    var actual := store.GetApplicationRestrictions(admin, app);
    value := GetString(actual, "key", "default value");
  }

  method GetApplicationRestrictionsShouldReturnEmptyBundleIfAppHasNone(admin: Component, app: string)
    returns (restrictions: Bundle)
    ensures restrictions == EmptyBundle
  {
    var store := new DevicePolicyStore();
    store.SetDeviceOwner(admin);
    restrictions := store.GetApplicationRestrictions(admin, app);
  }

  // ---------------------------------------------------------------- account management

  method GetAccountTypesWithManagementDisabledShouldReturnNothingWhenNoAccountIsDisabled()
    returns (accountTypes: seq<string>)
    ensures accountTypes == []
  {
    var store := new DevicePolicyStore();
    accountTypes := store.GetAccountTypesWithManagementDisabled();
  }

  method GetAccountTypesWithManagementDisabledShouldReturnDisabledAccountTypesIfAny(
    admin: Component, accountType: string)
    returns (accountTypes: seq<string>)
    ensures accountTypes == [accountType]
  {
    var store := new DevicePolicyStore();
    store.SetDeviceOwner(admin);
    store.SetAccountManagementDisabled(admin, accountType, true);
    accountTypes := store.GetAccountTypesWithManagementDisabled();
  }

  method GetAccountTypesWithManagementDisabledShouldNotReturnReenabledAccountTypesIfAny(
    admin: Component, accountType: string)
    returns (accountTypes: seq<string>)
    ensures accountTypes == []
  {
    var store := new DevicePolicyStore();
    store.SetDeviceOwner(admin);
    store.SetAccountManagementDisabled(admin, accountType, true);
    store.SetAccountManagementDisabled(admin, accountType, false);
    accountTypes := store.GetAccountTypesWithManagementDisabled();
  }

  /** From any store: disabling a type that was not disabled and re-enabling it restores the list. */
  method DisableThenReenableAny(store: DevicePolicyStore, admin: Component, accountType: string)
    requires store.Valid()
    requires accountType !in store.GetAccountTypesWithManagementDisabled()
    modifies store`disabledAccountTypes
    ensures store.Valid()
    ensures store.GetAccountTypesWithManagementDisabled() == old(store.GetAccountTypesWithManagementDisabled())
  {
    store.SetAccountManagementDisabled(admin, accountType, true);
    store.SetAccountManagementDisabled(admin, accountType, false);
    RemoveUndoesInsert(old(store.disabledAccountTypes), accountType);
  }
}
