# Device policy store

A model of the in-memory device-administration policy store behind
Robolectric's test double of Android's `DevicePolicyManager`, as its unit tests
pin it down. The store holds:

- an optional device owner and an optional profile owner (each a `Component`,
  a package name and class name pair);
- the set of active admins: those activated explicitly and every component
  ever made an owner;
- the packages currently hidden, and the packages ever hidden (a one-way latch);
- the packages blocked from being uninstalled;
- one restrictions bundle per package (string values; the empty map is the
  empty bundle);
- the current user's restrictions, a key to flag map;
- the account types with management disabled, a duplicate-free list;
- the system apps that have been enabled.

Every query is total and answers a default for anything never written: false,
the empty bundle or the empty list. Setting a device or profile owner also
activates it as an admin, so an owner is active without a `setActiveAdmin` call,
and an owner that is later replaced stays active. Writes to the hidden, blocked
and restriction state are last-write-wins. A newly disabled account type goes to
the end of the list; a type re-enabled and then disabled again moves to the end.

Files:

- `account_types.dfy` (module `AccountTypes`): the disabled-account-types list,
  with `Insert` (disable) and `Remove` (re-enable) and the proof that re-enabling
  undoes disabling.
- `device_policy.dfy` (module `DevicePolicy`): the `DevicePolicyStore` class.
  Its fields are the state above. Each setter changes only the fields named in
  its `modifies` clause, keeps the invariant `Valid()` and states the new state
  and what the queries answer afterwards. `Valid()` says that both owners are
  active admins, that a hidden package has been hidden and that no account type
  is listed twice. The queries are functions over the fields.
- `scenarios.dfy` (module `PolicyScenarios`): one method per unit test. Each
  creates a store, makes the test's calls and returns what the test queries; its
  `ensures` is the test's assertion. The methods are stated for any admin
  component, package, key or account type rather than the test's fixed values.
  Two `...Any` methods state the hide/unhide and disable/re-enable round trips
  from an arbitrary valid store.

The two uninstall-blocking tests at lines 342 and 357 have swapped names. The
first asserts that a blocked app is blocked and the second that an unblocked app
is not. The scenario methods are named after what the tests assert. The test at
line 433 spells "Disabled" as "Dislabed"; its scenario method uses the correct
spelling.

## Model

| member | source | states |
|---|---|---|
| AccountTypes.Insert | robolectric/src/test/java/org/robolectric/shadows/ShadowDevicePolicyManagerTest.java:442-457 | disabling adds exactly the type to the listed types, keeps the list duplicate-free, and appends a new type at the end of the old list |
| AccountTypes.Remove | robolectric/src/test/java/org/robolectric/shadows/ShadowDevicePolicyManagerTest.java:459-474 | re-enabling removes exactly the type from the listed types, keeps the list duplicate-free and never lengthens it |
| AccountTypes.RemoveUndoesInsert | robolectric/src/test/java/org/robolectric/shadows/ShadowDevicePolicyManagerTest.java:459-474 | disabling a type that was not disabled and then re-enabling it gives back the previous list exactly |
| DevicePolicy.DevicePolicyStore.constructor | robolectric/src/test/java/org/robolectric/shadows/ShadowDevicePolicyManagerTest.java:29-40 | a fresh store has no owner, no active admin, nothing hidden, blocked, restricted, enabled or disabled, and satisfies the invariant |
| DevicePolicy.DevicePolicyStore.GetActiveAdmins | robolectric/src/test/java/org/robolectric/shadows/ShadowDevicePolicyManagerTest.java:130-150 | in a valid store the active admins are exactly the components for which isAdminActive holds, and they include the device owner and the profile owner |
| DevicePolicy.DevicePolicyStore.SetDeviceOwner | robolectric/src/test/java/org/robolectric/shadows/ShadowDevicePolicyManagerTest.java:65-98 | afterwards isDeviceOwnerApp holds for the owner's package and for no other package, the owner is added to the active admins, no admin is deactivated, and isProfileOwnerApp answers as before for every package |
| DevicePolicy.DevicePolicyStore.SetProfileOwner | robolectric/src/test/java/org/robolectric/shadows/ShadowDevicePolicyManagerTest.java:53-63 | afterwards isProfileOwnerApp holds for the owner's package and for no other package, the owner is added to the active admins, no admin is deactivated, and isDeviceOwnerApp answers as before for every package |
| DevicePolicy.GetString | robolectric/src/test/java/org/robolectric/shadows/ShadowDevicePolicyManagerTest.java:388-390 | getString yields the value stored under the key whatever the default, and the default when the key is absent |
| DevicePolicy.DevicePolicyStore.IsAdminActive | robolectric/src/test/java/org/robolectric/shadows/ShadowDevicePolicyManagerTest.java:112-128 | in a valid store both the device owner and the profile owner are active admins |
| DevicePolicy.DevicePolicyStore.IsDeviceOwnerApp | robolectric/src/test/java/org/robolectric/shadows/ShadowDevicePolicyManagerTest.java:42-75 | in a valid store, isDeviceOwnerApp holds only when the device-owner slot is set to a component of that package, and that component is an active admin |
| DevicePolicy.DevicePolicyStore.IsProfileOwnerApp | robolectric/src/test/java/org/robolectric/shadows/ShadowDevicePolicyManagerTest.java:77-110 | in a valid store, isProfileOwnerApp holds only when the profile-owner slot is set to a component of that package, and that component is an active admin |
| DevicePolicy.DevicePolicyStore.GetUserRestriction | robolectric/src/test/java/org/robolectric/shadows/ShadowDevicePolicyManagerTest.java:152-202 | with no restriction ever written, every restriction reads false |
| DevicePolicy.DevicePolicyStore.WasPackageEverHidden | robolectric/src/test/java/org/robolectric/shadows/ShadowDevicePolicyManagerTest.java:265-277 | with no package ever hidden, wasPackageEverHidden is false for every package |
| DevicePolicy.DevicePolicyStore.WasSystemAppEnabled | robolectric/src/test/java/org/robolectric/shadows/ShadowDevicePolicyManagerTest.java:310-324 | with no system app ever enabled, wasSystemAppEnabled is false for every package |
| DevicePolicy.DevicePolicyStore.IsUninstallBlocked | robolectric/src/test/java/org/robolectric/shadows/ShadowDevicePolicyManagerTest.java:326-338 | with no package blocked, isUninstallBlocked is false for every package |
| DevicePolicy.DevicePolicyStore.GetApplicationRestrictions | robolectric/src/test/java/org/robolectric/shadows/ShadowDevicePolicyManagerTest.java:371-429 | a package with no restrictions set gets the empty bundle; otherwise the bundle last set for it |
| PolicyScenarios.ReplacedDeviceOwnerStaysActive | robolectric/src/test/java/org/robolectric/shadows/ShadowDevicePolicyManagerTest.java:130-139 | a device owner replaced by another device owner is still an active admin |
| DevicePolicy.DevicePolicyStore.SetActiveAdmin | robolectric/src/test/java/org/robolectric/shadows/ShadowDevicePolicyManagerTest.java:120-128 | afterwards the admin is active and every other component's activity is unchanged |
| DevicePolicy.DevicePolicyStore.AddUserRestriction | robolectric/src/test/java/org/robolectric/shadows/ShadowDevicePolicyManagerTest.java:152-184 | afterwards the restriction reads true and every other restriction reads as before |
| DevicePolicy.DevicePolicyStore.ClearUserRestriction | robolectric/src/test/java/org/robolectric/shadows/ShadowDevicePolicyManagerTest.java:186-202 | afterwards the restriction reads false and every other restriction reads as before |
| DevicePolicy.DevicePolicyStore.IsApplicationHidden | robolectric/src/test/java/org/robolectric/shadows/ShadowDevicePolicyManagerTest.java:204-216 | in a valid store a package that is hidden was ever hidden |
| DevicePolicy.DevicePolicyStore.SetApplicationHidden | robolectric/src/test/java/org/robolectric/shadows/ShadowDevicePolicyManagerTest.java:218-308 | afterwards isApplicationHidden is the value written (last write wins), the ever-hidden latch is set if the write hides and is never cleared for any package, and other packages' hidden state is unchanged |
| DevicePolicy.DevicePolicyStore.EnableSystemApp | robolectric/src/test/java/org/robolectric/shadows/ShadowDevicePolicyManagerTest.java:310-324 | afterwards wasSystemAppEnabled holds for the package, and it stays true for every package for which it held before |
| DevicePolicy.DevicePolicyStore.SetUninstallBlocked | robolectric/src/test/java/org/robolectric/shadows/ShadowDevicePolicyManagerTest.java:340-369 | afterwards isUninstallBlocked is the value written (last write wins) and other packages are unchanged |
| DevicePolicy.DevicePolicyStore.SetApplicationRestrictions | robolectric/src/test/java/org/robolectric/shadows/ShadowDevicePolicyManagerTest.java:371-413 | afterwards getApplicationRestrictions returns the bundle written, and getString then yields the written value for each of its keys whatever the default; other packages are unchanged |
| DevicePolicy.DevicePolicyStore.GetAccountTypesWithManagementDisabled | robolectric/src/test/java/org/robolectric/shadows/ShadowDevicePolicyManagerTest.java:431-457 | in a valid store no account type is listed twice |
| DevicePolicy.DevicePolicyStore.SetAccountManagementDisabled | robolectric/src/test/java/org/robolectric/shadows/ShadowDevicePolicyManagerTest.java:442-474 | afterwards the type is listed exactly when the write disables it, every other type is listed as before, and a newly disabled type is appended to the old list |
| PolicyScenarios.IsDeviceOwnerAppShouldReturnFalseForNonDeviceOwnerApp | robolectric/src/test/java/org/robolectric/shadows/ShadowDevicePolicyManagerTest.java:42-51 | on a fresh store isDeviceOwnerApp is false for any package |
| PolicyScenarios.IsDeviceOwnerShouldReturnFalseForProfileOwner | robolectric/src/test/java/org/robolectric/shadows/ShadowDevicePolicyManagerTest.java:53-63 | after setProfileOwner(c), isDeviceOwnerApp(c's package) is false |
| PolicyScenarios.IsDeviceOwnerShouldReturnTrueForDeviceOwner | robolectric/src/test/java/org/robolectric/shadows/ShadowDevicePolicyManagerTest.java:65-75 | after setDeviceOwner(c), isDeviceOwnerApp(c's package) is true |
| PolicyScenarios.IsProfileOwnerAppShouldReturnFalseForNonProfileOwnerApp | robolectric/src/test/java/org/robolectric/shadows/ShadowDevicePolicyManagerTest.java:77-86 | on a fresh store isProfileOwnerApp is false for any package |
| PolicyScenarios.IsProfileOwnerShouldReturnFalseForDeviceOwner | robolectric/src/test/java/org/robolectric/shadows/ShadowDevicePolicyManagerTest.java:88-98 | after setDeviceOwner(c), isProfileOwnerApp(c's package) is false |
| PolicyScenarios.IsProfileOwnerShouldReturnTrueForProfileOwner | robolectric/src/test/java/org/robolectric/shadows/ShadowDevicePolicyManagerTest.java:100-110 | after setProfileOwner(c), isProfileOwnerApp(c's package) is true |
| PolicyScenarios.IsAdminActiveShouldReturnFalseForNonAdminDevice | robolectric/src/test/java/org/robolectric/shadows/ShadowDevicePolicyManagerTest.java:112-118 | on a fresh store no component is an active admin |
| PolicyScenarios.IsAdminActiveShouldReturnTrueForAnyDeviceAdminDevice | robolectric/src/test/java/org/robolectric/shadows/ShadowDevicePolicyManagerTest.java:120-128 | after setActiveAdmin(c), c is an active admin |
| PolicyScenarios.GetActiveAdminsShouldReturnDeviceOwner | robolectric/src/test/java/org/robolectric/shadows/ShadowDevicePolicyManagerTest.java:130-139 | after setDeviceOwner(c) alone, getActiveAdmins contains c |
| PolicyScenarios.GetActiveAdminsShouldReturnProfileOwner | robolectric/src/test/java/org/robolectric/shadows/ShadowDevicePolicyManagerTest.java:141-150 | after setProfileOwner(c) alone, getActiveAdmins contains c |
| PolicyScenarios.AddUserRestrictionShouldWorkAsIntendedForDeviceOwner | robolectric/src/test/java/org/robolectric/shadows/ShadowDevicePolicyManagerTest.java:152-167 | a device owner adding restriction k makes k read true |
| PolicyScenarios.AddUserRestrictionShouldWorkAsIntendedForProfileOwner | robolectric/src/test/java/org/robolectric/shadows/ShadowDevicePolicyManagerTest.java:169-184 | a profile owner adding restriction k makes k read true |
| PolicyScenarios.ClearUserRestrictionShouldWorkAsIntendedForActiveAdmins | robolectric/src/test/java/org/robolectric/shadows/ShadowDevicePolicyManagerTest.java:186-202 | adding then clearing restriction k makes k read false |
| PolicyScenarios.IsApplicationHiddenShouldReturnFalseForAppsByDefault | robolectric/src/test/java/org/robolectric/shadows/ShadowDevicePolicyManagerTest.java:204-216 | a package never written is not hidden |
| PolicyScenarios.IsApplicationHiddenShouldReturnTrueForHiddenApps | robolectric/src/test/java/org/robolectric/shadows/ShadowDevicePolicyManagerTest.java:218-231 | a package set hidden reads hidden |
| PolicyScenarios.IsApplicationHiddenShouldReturnFalseForNonHiddenApps | robolectric/src/test/java/org/robolectric/shadows/ShadowDevicePolicyManagerTest.java:233-246 | a package set not hidden reads not hidden |
| PolicyScenarios.SetApplicationHiddenShouldBeAbleToUnhideHiddenApps | robolectric/src/test/java/org/robolectric/shadows/ShadowDevicePolicyManagerTest.java:248-263 | hiding then unhiding a package makes it read not hidden |
| PolicyScenarios.WasPackageEverHiddenShouldReturnFalseForPackageNeverHidden | robolectric/src/test/java/org/robolectric/shadows/ShadowDevicePolicyManagerTest.java:265-277 | a package never hidden was never hidden |
| PolicyScenarios.WasPackageEverHiddenShouldReturnTrueForPackageWhichIsHidden | robolectric/src/test/java/org/robolectric/shadows/ShadowDevicePolicyManagerTest.java:279-292 | a hidden package was ever hidden |
| PolicyScenarios.WasPackageEverHiddenShouldReturnTrueForPackageWhichWasHidden | robolectric/src/test/java/org/robolectric/shadows/ShadowDevicePolicyManagerTest.java:294-308 | a package hidden then unhidden still was ever hidden |
| PolicyScenarios.HideThenUnhideAny | robolectric/src/test/java/org/robolectric/shadows/ShadowDevicePolicyManagerTest.java:248-308 | from any valid store, hiding then unhiding removes the package from the hidden set and adds it to the ever-hidden set; every other package and every other field is unchanged |
| PolicyScenarios.EnableSystemAppShouldWorkForActiveAdmins | robolectric/src/test/java/org/robolectric/shadows/ShadowDevicePolicyManagerTest.java:310-324 | after enableSystemApp(p), wasSystemAppEnabled(p) is true |
| PolicyScenarios.IsUninstallBlockedShouldReturnFalseForAppsNeverBeingBlocked | robolectric/src/test/java/org/robolectric/shadows/ShadowDevicePolicyManagerTest.java:326-338 | a package never written is not uninstall-blocked |
| PolicyScenarios.IsUninstallBlockedShouldReturnTrueForAppsBeingBlocked | robolectric/src/test/java/org/robolectric/shadows/ShadowDevicePolicyManagerTest.java:340-353 | a package set blocked reads blocked |
| PolicyScenarios.IsUninstallBlockedShouldReturnFalseForAppsBeingUnblocked | robolectric/src/test/java/org/robolectric/shadows/ShadowDevicePolicyManagerTest.java:355-369 | a package blocked then unblocked reads not blocked |
| PolicyScenarios.SetApplicationRestrictionsShouldWorkAsIntendedForDeviceOwner | robolectric/src/test/java/org/robolectric/shadows/ShadowDevicePolicyManagerTest.java:371-391 | after a device owner sets {"key": "value"} for a package, getString("key", "default value") on its restrictions is "value" |
| PolicyScenarios.SetApplicationRestrictionsShouldWorkAsIntendedForProfileOwner | robolectric/src/test/java/org/robolectric/shadows/ShadowDevicePolicyManagerTest.java:393-413 | the same round trip for a profile owner |
| PolicyScenarios.GetApplicationRestrictionsShouldReturnEmptyBundleIfAppHasNone | robolectric/src/test/java/org/robolectric/shadows/ShadowDevicePolicyManagerTest.java:415-429 | a package with no restrictions gets the empty bundle |
| PolicyScenarios.GetAccountTypesWithManagementDisabledShouldReturnNothingWhenNoAccountIsDisabled | robolectric/src/test/java/org/robolectric/shadows/ShadowDevicePolicyManagerTest.java:431-440 | on a fresh store no account type is disabled |
| PolicyScenarios.GetAccountTypesWithManagementDisabledShouldReturnDisabledAccountTypesIfAny | robolectric/src/test/java/org/robolectric/shadows/ShadowDevicePolicyManagerTest.java:442-457 | disabling type t once yields exactly [t] |
| PolicyScenarios.GetAccountTypesWithManagementDisabledShouldNotReturnReenabledAccountTypesIfAny | robolectric/src/test/java/org/robolectric/shadows/ShadowDevicePolicyManagerTest.java:459-474 | disabling then re-enabling type t yields the empty list |
| PolicyScenarios.DisableThenReenableAny | robolectric/src/test/java/org/robolectric/shadows/ShadowDevicePolicyManagerTest.java:459-474 | from any valid store in which t is not disabled, disabling then re-enabling t gives back the previous list exactly, and no other field changes |

## Left out

- The code of the test double itself is not part of this model. The behaviour asserted by the unit tests is modelled as asserted. Where the tests are silent, the model makes these choices: setting an owner adds it to the active admins for good; a re-enabled account type is removed from the list; a type disabled again after that goes to the end of the list.
- Permission checks: every policy call takes the calling admin, and the store ignores it. The tests only ever call with the device or profile owner, so they show no failure path for other callers.
- Test harness: the JUnit runner, the system-service lookup in the test setup and `shadowOf` are not modelled.
- SDK gating: the `@Config(minSdk = ...)` annotations only choose the platform versions a test runs on.
- `UserManager` and its user-restrictions bundle are a separate service. The current user's restrictions are a key-to-flag map inside the store, read with `getBoolean`'s default of false.
- `Bundle`: typed values and the identity of `Bundle.EMPTY` are not modelled. A bundle is a string-to-string map, and the empty map stands for the empty bundle.
- GetActiveAdmins: returns a set, not the platform's list, because the tests check membership only and nothing about order or repetition.
