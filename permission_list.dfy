/**
 * The Puppet function `mysql::get_permission_list`: from a permission type and
 * a user role, the hash of MySQL privilege-table columns (`Select_priv`, ...)
 * to the flag `'Y'` or `'N'` that role should have.
 */
module PermissionList {
  import opened Wrappers
  import opened OrderedHash

  /** The columns present in both `mysql.user` and `mysql.db`, in hash order. */
  const BasicPrivileges: seq<string> := [
    "Select_priv", "Insert_priv", "Update_priv", "Delete_priv", "Create_priv",
    "Drop_priv", "Grant_priv", "References_priv", "Index_priv", "Alter_priv",
    "Create_tmp_table_priv", "Lock_tables_priv", "Create_view_priv",
    "Show_view_priv", "Create_routine_priv", "Alter_routine_priv",
    "Execute_priv", "Event_priv", "Trigger_priv"]

  /** The columns only `mysql.user` has, in hash order. */
  const GlobalPrivileges: seq<string> := [
    "Reload_priv", "Shutdown_priv", "Process_priv", "File_priv", "Show_db_priv",
    "Super_priv", "Repl_slave_priv", "Repl_client_priv", "Create_user_priv",
    "Create_tablespace_priv"]

  /** The roles that grant a fixed set of columns on top of the default. */
  const OverrideRoles: set<string> := {"read_only", "read_write", "read_write_extended", "slave"}

  /** Every role the function accepts. */
  const KnownRoles: set<string> := OverrideRoles + {"none", "full"}

  /** Why the function fails. */
  datatype PermissionError =
    | GlobalOnlyRole   // `slave` asked for with permission type `database_specific`
    | InvalidRole      // a role outside the six named ones

  /** A hash literal giving every name in `names` the same flag. */
  function AllSetTo(names: seq<string>, flag: string): Hash
  {
    seq(|names|, i requires 0 <= i < |names| => (names[i], flag))
  }

  /** `default_permissions`: every column `'N'`; type `global` adds the global-only columns. */
  function DefaultPermissions(permissionType: string): Hash
  {
    var basic := AllSetTo(BasicPrivileges, "N");
    if permissionType == "global" then Merge(basic, AllSetTo(GlobalPrivileges, "N"))
    else basic
  }

  /** The keys of a role's override hash, in the order of its literal. */
  function OverrideNames(userRole: string): seq<string>
  {
    if userRole == "read_only" then ["Select_priv"]
    else if userRole == "read_write" then
      ["Select_priv", "Insert_priv", "Update_priv", "Delete_priv", "Create_priv",
       "Drop_priv", "Index_priv", "Alter_priv"]
    else if userRole == "read_write_extended" then
      ["Select_priv", "Insert_priv", "Update_priv", "Delete_priv", "Create_priv",
       "Drop_priv", "Index_priv", "Alter_priv", "Create_tmp_table_priv",
       "Lock_tables_priv", "Execute_priv", "Create_view_priv", "Show_view_priv",
       "Create_routine_priv", "Alter_routine_priv", "Event_priv", "Trigger_priv"]
    else if userRole == "slave" then ["Repl_slave_priv"]
    else []
  }

  /** The block `{|key, value| 'Y'}` that role `full` updates the defaults with. */
  function AnswerYes(key: string, stored: string, given: string): string
  {
    "Y"
  }

  /** `role_specific_permissions`. */
  function RoleSpecificPermissions(permissionType: string, userRole: string): Result<Hash, PermissionError>
  {
    if userRole in OverrideRoles then
      if userRole == "slave" && permissionType == "database_specific" then Failure(GlobalOnlyRole)
      else Success(Merge(DefaultPermissions(permissionType), AllSetTo(OverrideNames(userRole), "Y")))
    else if userRole == "none" then Success(DefaultPermissions(permissionType))
    else if userRole == "full" then
      var defaults := DefaultPermissions(permissionType);
      Success(MergeWith(defaults, defaults, AnswerYes))
    else Failure(InvalidRole)
  }

  // ---------------------------------------------------------------------------
  // Reference definitions: what a role means, stated without hashes or merges.

  /** The columns a permission type covers, in order. */
  function PrivilegeNames(permissionType: string): seq<string>
  {
    BasicPrivileges + if permissionType == "global" then GlobalPrivileges else []
  }

  /** The columns a role grants under a permission type. */
  function Granted(permissionType: string, userRole: string): set<string>
  {
    if userRole == "full" then set n | n in PrivilegeNames(permissionType)
    else set n | n in OverrideNames(userRole)
  }

  /** Each name in order, flagged `'Y'` exactly when it is granted. */
  function Flagged(names: seq<string>, granted: set<string>): Hash
  {
    seq(|names|, i requires 0 <= i < |names| => (names[i], if names[i] in granted then "Y" else "N"))
  }

  /** No name occurs twice. */
  predicate Distinct(names: seq<string>)
  {
    forall i, j :: 0 <= i < j < |names| ==> names[i] != names[j]
  }

  /** Every flag is `'Y'` or `'N'`. */
  predicate FlagsOnly(h: Hash)
  {
    forall i :: 0 <= i < |h| ==> h[i].1 == "Y" || h[i].1 == "N"
  }

  // ---------------------------------------------------------------------------
  // Lemmas

  lemma AllSetToKeys(names: seq<string>, flag: string)
    ensures Keys(AllSetTo(names, flag)) == names
  {
  }

  /** No column name occurs twice; any two differ in length, first or eighth letter. */
  lemma AllPrivilegesDistinct()
    ensures Distinct(BasicPrivileges + GlobalPrivileges)
  {
    var names := BasicPrivileges + GlobalPrivileges;
    forall i, j | 0 <= i < j < |names| ensures names[i] != names[j] {
      assert (|names[i]|, names[i][0], names[i][7]) != (|names[j]|, names[j][0], names[j][7]);
    }
  }

  lemma {:induction false} PrivilegeNamesDistinct(permissionType: string)
    ensures Distinct(PrivilegeNames(permissionType))
  {
    AllPrivilegesDistinct();
    var names := PrivilegeNames(permissionType);
    forall i, j | 0 <= i < j < |names| ensures names[i] != names[j] {
      assert names[i] == (BasicPrivileges + GlobalPrivileges)[i];
      assert names[j] == (BasicPrivileges + GlobalPrivileges)[j];
    }
  }

  /**
   * `default_permissions` gives 19 columns, or 29 for type `global` (the 19
   * followed by the 10 global-only ones), every one `'N'`.
   */
  lemma {:induction false} DefaultPermissionsShape(permissionType: string)
    ensures DefaultPermissions(permissionType) == Flagged(PrivilegeNames(permissionType), {})
    ensures Keys(DefaultPermissions(permissionType)) == PrivilegeNames(permissionType)
    ensures |DefaultPermissions(permissionType)| == if permissionType == "global" then 29 else 19
    ensures DistinctKeys(DefaultPermissions(permissionType))
  {
    var basic := AllSetTo(BasicPrivileges, "N");
    var global := AllSetTo(GlobalPrivileges, "N");
    PrivilegeNamesDistinct(permissionType);
    if permissionType == "global" {
      forall k | k in Keys(global) ensures k !in Keys(basic) {
        AllSetToKeys(BasicPrivileges, "N");
        AllSetToKeys(GlobalPrivileges, "N");
      }
      MergeDisjoint(basic, global, TakeGiven);
      assert DefaultPermissions(permissionType) == basic + global;
    }
    assert DefaultPermissions(permissionType) == Flagged(PrivilegeNames(permissionType), {});
  }

  lemma {:induction false} LookupAllSetTo(names: seq<string>, flag: string, k: string)
    ensures Lookup(AllSetTo(names, flag), k) == if k in names then Some(flag) else None
  {
    if names != [] {
      assert AllSetTo(names, flag)[1..] == AllSetTo(names[1..], flag);
      LookupAllSetTo(names[1..], flag, k);
    }
  }

  /** Every name a role's override hash sets is a column of the permission type. */
  lemma OverridesAreColumns(permissionType: string, userRole: string)
    requires userRole != "slave" || permissionType == "global"
    ensures forall n :: n in OverrideNames(userRole) ==> n in PrivilegeNames(permissionType)
  {
  }

  lemma FlaggedNone(names: seq<string>)
    ensures Flagged(names, {}) == AllSetTo(names, "N")
  {
  }

  /**
   * Merging `'Y'` for some of the columns into all-`'N'` columns flags exactly
   * those columns and leaves the column order alone.
   */
  lemma {:induction false} MergeGrants(names: seq<string>, granted: seq<string>)
    requires Distinct(names) && Distinct(granted)
    requires forall n :: n in granted ==> n in names
    ensures Merge(AllSetTo(names, "N"), AllSetTo(granted, "Y")) == Flagged(names, set n | n in granted)
  {
    var defaults, overrides := AllSetTo(names, "N"), AllSetTo(granted, "Y");
    AllSetToKeys(names, "N");
    AllSetToKeys(granted, "Y");
    MergeOverlap(defaults, overrides, TakeGiven);
    var r := Merge(defaults, overrides);
    forall i | 0 <= i < |names|
      ensures r[i] == Flagged(names, set n | n in granted)[i]
    {
      LookupAllSetTo(granted, "Y", names[i]);
    }
  }

  /** Updating all-`'N'` columns with themselves under the `full` block flags every column. */
  lemma {:induction false} UpdateAllYes(names: seq<string>)
    requires Distinct(names)
    ensures MergeWith(AllSetTo(names, "N"), AllSetTo(names, "N"), AnswerYes) == Flagged(names, set n | n in names)
  {
    var defaults := AllSetTo(names, "N");
    AllSetToKeys(names, "N");
    MergeOverlap(defaults, defaults, AnswerYes);
    var r := MergeWith(defaults, defaults, AnswerYes);
    forall i | 0 <= i < |names|
      ensures r[i] == Flagged(names, set n | n in names)[i]
    {
      LookupAt(defaults, i);
    }
  }

  lemma OverrideNamesDistinct(userRole: string)
    ensures Distinct(OverrideNames(userRole))
  {
  }

  /** An override role, where allowed, flags exactly its override columns. */
  lemma OverrideRoleMeaning(permissionType: string, userRole: string)
    requires userRole in OverrideRoles
    requires userRole != "slave" || permissionType == "global"
    ensures RoleSpecificPermissions(permissionType, userRole)
      == Success(Flagged(PrivilegeNames(permissionType), Granted(permissionType, userRole)))
  {
    DefaultPermissionsShape(permissionType);
    FlaggedNone(PrivilegeNames(permissionType));
    PrivilegeNamesDistinct(permissionType);
    OverrideNamesDistinct(userRole);
    OverridesAreColumns(permissionType, userRole);
    MergeGrants(PrivilegeNames(permissionType), OverrideNames(userRole));
  }

  /** `slave` with a type that is neither declared one adds its column after the basic ones. */
  lemma SlaveOnOtherTypeMeaning(permissionType: string)
    requires permissionType != "global" && permissionType != "database_specific"
    ensures RoleSpecificPermissions(permissionType, "slave")
      == Success(Flagged(BasicPrivileges, {}) + [("Repl_slave_priv", "Y")])
  {
    var defaults := DefaultPermissions(permissionType);
    var overrides := AllSetTo(["Repl_slave_priv"], "Y");
    DefaultPermissionsShape(permissionType);
    AllSetToKeys(["Repl_slave_priv"], "Y");
    assert "Repl_slave_priv" !in BasicPrivileges;
    MergeDisjoint(defaults, overrides, TakeGiven);
    assert overrides == [("Repl_slave_priv", "Y")];
    assert PrivilegeNames(permissionType) == BasicPrivileges;
    assert "slave" in OverrideRoles && OverrideNames("slave") == ["Repl_slave_priv"];
  }

  /** `full` flags every column of the type. */
  lemma FullMeaning(permissionType: string)
    ensures RoleSpecificPermissions(permissionType, "full")
      == Success(Flagged(PrivilegeNames(permissionType), Granted(permissionType, "full")))
  {
    DefaultPermissionsShape(permissionType);
    FlaggedNone(PrivilegeNames(permissionType));
    PrivilegeNamesDistinct(permissionType);
    UpdateAllYes(PrivilegeNames(permissionType));
    assert "full" !in OverrideRoles;
  }

  /**
   * What `role_specific_permissions` returns, for every permission type and
   * role: the two failures, and otherwise the default columns in their order
   * with exactly the role's columns flagged `'Y'` (`none`: no column, `full`:
   * every column). `slave` with a type other than the two the function is
   * declared for appends its one column to the basic ones.
   */
  lemma RoleSpecificPermissionsMeaning(permissionType: string, userRole: string)
    ensures userRole !in KnownRoles ==>
      RoleSpecificPermissions(permissionType, userRole) == Failure(InvalidRole)
    ensures userRole == "slave" && permissionType == "database_specific" ==>
      RoleSpecificPermissions(permissionType, userRole) == Failure(GlobalOnlyRole)
    ensures userRole in KnownRoles && (userRole != "slave" || permissionType == "global") ==>
      RoleSpecificPermissions(permissionType, userRole)
        == Success(Flagged(PrivilegeNames(permissionType), Granted(permissionType, userRole)))
    ensures userRole == "slave" && permissionType != "global" && permissionType != "database_specific" ==>
      RoleSpecificPermissions(permissionType, userRole)
        == Success(Flagged(BasicPrivileges, {}) + [("Repl_slave_priv", "Y")])
  {
    if userRole == "slave" && permissionType != "global" && permissionType != "database_specific" {
      SlaveOnOtherTypeMeaning(permissionType);
    } else if userRole in OverrideRoles && (userRole != "slave" || permissionType == "global") {
      OverrideRoleMeaning(permissionType, userRole);
    } else if userRole == "full" {
      FullMeaning(permissionType);
    } else if userRole == "none" {
      DefaultPermissionsShape(permissionType);
      assert Granted(permissionType, userRole) == {};
    }
  }

  /** Every flag of every hash the function returns is `'Y'` or `'N'`. */
  lemma RoleFlagsOnly(permissionType: string, userRole: string)
    requires RoleSpecificPermissions(permissionType, userRole).Success?
    ensures FlagsOnly(RoleSpecificPermissions(permissionType, userRole).value)
  {
    RoleSpecificPermissionsMeaning(permissionType, userRole);
  }

  /** Role `none` is the default hash unchanged. */
  lemma NoneIsDefault(permissionType: string)
    ensures RoleSpecificPermissions(permissionType, "none") == Success(DefaultPermissions(permissionType))
    ensures forall i :: 0 <= i < |DefaultPermissions(permissionType)| ==> DefaultPermissions(permissionType)[i].1 == "N"
  {
    DefaultPermissionsShape(permissionType);
  }

  /** Role `full` keeps the default columns in their order and flags every one `'Y'`. */
  lemma FullGrantsEverything(permissionType: string)
    ensures RoleSpecificPermissions(permissionType, "full").Success?
    ensures Keys(RoleSpecificPermissions(permissionType, "full").value) == Keys(DefaultPermissions(permissionType))
    ensures forall i :: 0 <= i < |DefaultPermissions(permissionType)| ==>
      RoleSpecificPermissions(permissionType, "full").value[i].1 == "Y"
  {
    RoleSpecificPermissionsMeaning(permissionType, "full");
    DefaultPermissionsShape(permissionType);
  }

  /**
   * For the four override roles (where allowed) the result has the default's
   * columns in the default's order, and a column is `'Y'` exactly when the
   * role's override hash names it.
   */
  lemma OverrideRoleFlags(permissionType: string, userRole: string)
    requires userRole in OverrideRoles
    requires userRole != "slave" || permissionType == "global"
    ensures RoleSpecificPermissions(permissionType, userRole).Success?
    ensures Keys(RoleSpecificPermissions(permissionType, userRole).value) == Keys(DefaultPermissions(permissionType))
    ensures forall i :: 0 <= i < |DefaultPermissions(permissionType)| ==>
      (RoleSpecificPermissions(permissionType, userRole).value[i].1 == "Y" <==>
       DefaultPermissions(permissionType)[i].0 in OverrideNames(userRole))
    ensures FlagsOnly(RoleSpecificPermissions(permissionType, userRole).value)
  {
    RoleSpecificPermissionsMeaning(permissionType, userRole);
    DefaultPermissionsShape(permissionType);
  }

  /** A global `slave` gets `Repl_slave_priv` and nothing else. */
  lemma GlobalSlave()
    ensures RoleSpecificPermissions("global", "slave").Success?
    ensures forall i :: 0 <= i < |RoleSpecificPermissions("global", "slave").value| ==>
      (RoleSpecificPermissions("global", "slave").value[i].1 == "Y" <==>
       RoleSpecificPermissions("global", "slave").value[i].0 == "Repl_slave_priv")
  {
    RoleSpecificPermissionsMeaning("global", "slave");
  }

  /** Global `read_only`: all 29 columns, only `Select_priv` flagged `'Y'`. */
  lemma GlobalReadOnly()
    ensures RoleSpecificPermissions("global", "read_only").Success?
    ensures |RoleSpecificPermissions("global", "read_only").value| == 29
    ensures forall i :: 0 <= i < 29 ==>
      (RoleSpecificPermissions("global", "read_only").value[i].1 == "Y" <==> i == 0)
    ensures RoleSpecificPermissions("global", "read_only").value[0] == ("Select_priv", "Y")
  {
    OverrideRoleMeaning("global", "read_only");
    PrivilegeNamesDistinct("global");
    var names := PrivilegeNames("global");
    assert Granted("global", "read_only") == {"Select_priv"} && names[0] == "Select_priv";
    forall i | 0 < i < 29 ensures names[i] !in Granted("global", "read_only") {
      assert names[i] != names[0];
    }
  }

  /** No role yields an empty hash: at least the 19 basic columns. */
  lemma RoleHashNotEmpty(permissionType: string, userRole: string)
    requires RoleSpecificPermissions(permissionType, userRole).Success?
    ensures |RoleSpecificPermissions(permissionType, userRole).value| >= 19
  {
    RoleSpecificPermissionsMeaning(permissionType, userRole);
  }
}
