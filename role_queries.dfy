/**
 * The two functions together: what `generate` makes of a hash when that hash
 * is one a role yields.
 */
module RoleQueries {
  import opened Wrappers
  import opened OrderedHash
  import opened PermissionList
  import opened GenerateQuery

  /** No column name holds `=`. */
  lemma PrivilegeNamesUnquoted(permissionType: string)
    ensures forall i :: 0 <= i < |PrivilegeNames(permissionType)| ==> '=' !in PrivilegeNames(permissionType)[i]
  {
  }

  /** Flags are `'Y'` or `'N'`, so names without `=` give a hash that reads back. */
  lemma FlaggedUnquoted(names: seq<string>, granted: set<string>)
    requires forall i :: 0 <= i < |names| ==> '=' !in names[i]
    requires Distinct(names)
    ensures Unquoted(Flagged(names, granted)) && DistinctKeys(Flagged(names, granted))
  {
  }

  /** The hash of `slave` under a type other than the two declared ones also reads back. */
  lemma SlaveColumnsUnquoted()
    ensures Unquoted(Flagged(BasicPrivileges, {}) + [("Repl_slave_priv", "Y")])
    ensures DistinctKeys(Flagged(BasicPrivileges, {}) + [("Repl_slave_priv", "Y")])
  {
    // the basic columns, all 'N', then Repl_slave_priv, the seventh global column
    var all := BasicPrivileges + GlobalPrivileges;
    var names := all[..|BasicPrivileges|] + [all[25]];
    AllPrivilegesDistinct();
    PrivilegeNamesUnquoted("global");
    FlaggedUnquoted(names, {"Repl_slave_priv"});
    assert Flagged(names, {"Repl_slave_priv"}) == Flagged(BasicPrivileges, {}) + [("Repl_slave_priv", "Y")];
  }

  /** Every hash a role yields can be written into a statement and read back. */
  lemma RolePermissionsUnquoted(permissionType: string, userRole: string)
    requires RoleSpecificPermissions(permissionType, userRole).Success?
    ensures Unquoted(RoleSpecificPermissions(permissionType, userRole).value)
    ensures DistinctKeys(RoleSpecificPermissions(permissionType, userRole).value)
  {
    RoleSpecificPermissionsMeaning(permissionType, userRole);
    PrivilegeNamesDistinct(permissionType);
    PrivilegeNamesUnquoted(permissionType);
    if userRole == "slave" && permissionType != "global" {
      SlaveColumnsUnquoted();
    } else {
      FlaggedUnquoted(PrivilegeNames(permissionType), Granted(permissionType, userRole));
    }
  }

  /**
   * The statements generated from a role's hash carry it whole: the SET list
   * of the UPDATE and the conditions of the extended SELECT read back as the
   * hash, and the INSERT of a database-specific role writes 3 + 19 columns.
   */
  lemma RoleStatementsCarryHash(permissionType: string, userRole: string, user: string, host: string, db: string)
    requires RoleSpecificPermissions(permissionType, userRole).Success?
    ensures var h := RoleSpecificPermissions(permissionType, userRole).value;
      ParseConditions(Join(Conditions(h), ", "), ", ") == Some(h) &&
      ParseConditions(Join(Conditions(h), "AND "), "AND ") == Some(h)
    ensures permissionType == "database_specific" ==>
      var h := RoleSpecificPermissions(permissionType, userRole).value;
      Generate("insert", user, host, h, false, Some(db)).Success? &&
      |InsertColumns(h)| == |InsertValues(user, host, db, h)| == 22
  {
    var h := RoleSpecificPermissions(permissionType, userRole).value;
    RolePermissionsUnquoted(permissionType, userRole);
    UpdateSetReadsBack(user, host, h, false, Some(db));
    SelectExtensionReadsBack(user, host, h, Some(db));
    if permissionType == "database_specific" {
      RoleSpecificPermissionsMeaning(permissionType, userRole);
      InsertRowAligned(user, host, db, h, false);
    }
  }
}
