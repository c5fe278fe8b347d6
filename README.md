# MySQL privilege hashes and privilege-table statements

A Dafny model of the two Puppet functions at the heart of a Puppet module that
manages MySQL users' privileges:

- `mysql::get_permission_list` turns a permission type (`global` or
  `database_specific`) and a user role (`none`, `read_only`, `read_write`,
  `read_write_extended`, `slave`, `full`) into an ordered hash from MySQL
  privilege-table column (`Select_priv`, …, `Create_tablespace_priv`) to the
  flag `'Y'` or `'N'`.
- `mysql::generate_query` turns a query type (`select`, `insert`, `update`), a
  user, a host, such a hash, an "extend select" switch and an optional
  database into the SQL statement that reads or writes that user's row of
  `mysql.user` or `mysql.db`.

Files:

- `wrappers.dfy` — `Option` (Ruby's `nil` or a value) and `Result` (a value or
  the error a `fail(...)` raises).
- `ordered_hash.dfy` — Ruby's `Hash` as an insertion-ordered list of string
  pairs: `h[k] = v` (`Put`) and `merge`/`update` with or without a block
  (`MergeWith`, `Merge`), with lemmas saying when a merge appends and when it
  only overwrites values in place.
- `permission_list.dfy` — `DefaultPermissions` and `RoleSpecificPermissions`,
  and a reference definition of what a role means (`Flagged` over
  `PrivilegeNames` and `Granted`) proved equal to them.
- `generate_query.dfy` — `Generate`, `Join` (Ruby's `Array#join`), and
  `ParseConditions`, a reader of `key='value'` lists proved to be the inverse
  of what `Generate` writes whenever no key holds `=` and no value holds a
  quote.
- `role_queries.dfy` — the two together: every hash a role yields can be
  written into an UPDATE or extended SELECT and read back whole.

Modelling choices:

- The permission type, the role and the query type are strings, as in the
  code, so the code's own failure branches (unknown role, unknown query type)
  are modelled. The Puppet type signatures that restrict the permission type
  and query type to enumerations are not; the model is total over all strings.
- `database` is `Option<string>`: only its absence selects `mysql.user`, an
  empty database name is present.
- Failures are `Failure(...)` results naming which error occurs, not the
  message text.
- The extended SELECT reproduces the code byte for byte: the conditions are
  appended with `"AND "` and joined with `"AND "`, with no space before
  `AND` (`...Host='h'AND Select_priv='Y'AND ...`). MySQL reads this the same
  as the spaced form, since a quoted literal ends a token.
- Everything is a function, so calling `Generate` twice with the same inputs
  gives the same text by construction.
- Column names are the code's own (`Select_priv`, `Repl_slave_priv`, ...).
  The body of `role_specific_permissions` does not reject a permission type
  other than `global` or `database_specific` (such a type gets the basic
  columns, and for `slave` the `Repl_slave_priv` column is appended after
  them); only the `dispatch` signature at
  lib/puppet/functions/mysql/get_permission_list.rb:14 restricts the type,
  and dispatch is not modelled.

## Model

| member | source | states |
|---|---|---|
| OrderedHash.PutAbsent | lib/puppet/functions/mysql/get_permission_list.rb:52 | storing a key the hash lacks appends the pair at the end |
| OrderedHash.PutPresent | lib/puppet/functions/mysql/get_permission_list.rb:104 | storing a key the hash has overwrites its value where it stands |
| OrderedHash.LookupAt | lib/puppet/functions/mysql/get_permission_list.rb:99 | in a hash with distinct keys, looking up the i-th key gives the i-th value |
| OrderedHash.KeysMatchLookup | lib/puppet/functions/mysql/generate_query.rb:55 | a key is among `h.keys` exactly when looking it up does not give nil |
| OrderedHash.LookupAbsent | lib/puppet/functions/mysql/get_permission_list.rb:104 | looking up a key the hash lacks gives nil |
| OrderedHash.MergeDisjoint | lib/puppet/functions/mysql/get_permission_list.rb:52 | merging a hash whose keys are all new is concatenation, whatever the block |
| OrderedHash.MergeOverlap | lib/puppet/functions/mysql/get_permission_list.rb:104 | merging a hash whose keys are all present keeps every key in place and changes exactly the values of the keys merged, to what the block (or the merged value) gives |
| PermissionList.AllPrivilegesDistinct | lib/puppet/functions/mysql/get_permission_list.rb:21-51 | the 29 column names are pairwise different |
| PermissionList.PrivilegeNamesDistinct | lib/puppet/functions/mysql/get_permission_list.rb:21-51 | the columns of either permission type are pairwise different |
| PermissionList.DefaultPermissionsShape | lib/puppet/functions/mysql/get_permission_list.rb:20-56 | the default hash has the 19 basic columns, followed by the 10 global ones for type `global`, all `'N'`, with distinct keys |
| PermissionList.LookupAllSetTo | lib/puppet/functions/mysql/get_permission_list.rb:62-94 | an override hash literal holds exactly its listed names, each with its flag |
| PermissionList.OverridesAreColumns | lib/puppet/functions/mysql/get_permission_list.rb:60-94 | every column a role's override names is a column of the permission type (for `slave`, of the global type) |
| PermissionList.MergeGrants | lib/puppet/functions/mysql/get_permission_list.rb:104 | merging `'Y'` for some columns into the all-`'N'` columns flags exactly those columns and keeps the column order |
| PermissionList.UpdateAllYes | lib/puppet/functions/mysql/get_permission_list.rb:98-100 | updating the defaults with themselves under the `'Y'` block flags every column and keeps the order |
| PermissionList.OverrideRoleMeaning | lib/puppet/functions/mysql/get_permission_list.rb:60-104 | `read_only`, `read_write`, `read_write_extended` and global `slave` give the type's columns in order, `'Y'` exactly for the role's override columns |
| PermissionList.SlaveOnOtherTypeMeaning | lib/puppet/functions/mysql/get_permission_list.rb:90-94 | `slave` with a type that is neither `global` nor `database_specific` gives the basic columns, all `'N'`, then `Repl_slave_priv` `'Y'` |
| PermissionList.FullMeaning | lib/puppet/functions/mysql/get_permission_list.rb:97-100 | `full` gives the type's columns in order, every one `'Y'` |
| PermissionList.RoleSpecificPermissionsMeaning | lib/puppet/functions/mysql/get_permission_list.rb:59-105 | for every type and role: unknown role fails with InvalidRole, `slave` on `database_specific` fails with GlobalOnlyRole, otherwise the result is the type's columns in order with exactly the role's granted columns `'Y'` |
| PermissionList.RoleHashNotEmpty | lib/puppet/functions/mysql/get_permission_list.rb:59-105 | every hash a role yields has at least the 19 basic columns |
| PermissionList.RoleFlagsOnly | lib/puppet/functions/mysql/get_permission_list.rb:59-105 | every value of every successful result is `'Y'` or `'N'` |
| PermissionList.NoneIsDefault | lib/puppet/functions/mysql/get_permission_list.rb:95-96 | `none` returns the default hash unchanged, all `'N'` |
| PermissionList.FullGrantsEverything | lib/puppet/functions/mysql/get_permission_list.rb:97-100 | `full` succeeds with the default's keys in the default's order, every value `'Y'` |
| PermissionList.OverrideRoleFlags | lib/puppet/functions/mysql/get_permission_list.rb:60-104 | for an override role where allowed, the keys are the default's in the default's order and a value is `'Y'` exactly when the role's override hash names that key |
| PermissionList.GlobalSlave | lib/puppet/functions/mysql/get_permission_list.rb:90-94 | global `slave` flags `Repl_slave_priv` and no other column |
| PermissionList.GlobalReadOnly | lib/puppet/functions/mysql/get_permission_list.rb:61-62 | global `read_only` gives 29 columns, only the first, `Select_priv`, `'Y'` |
| GenerateQuery.IndexOf | lib/puppet/functions/mysql/generate_query.rb:48 | the position found holds the character and none before it does (reading the conditions back) |
| GenerateQuery.IndexOfAt | lib/puppet/functions/mysql/generate_query.rb:48 | the position of the first occurrence is what `IndexOf` finds |
| GenerateQuery.JoinCons | lib/puppet/functions/mysql/generate_query.rb:59 | joining a first element before a non-empty rest puts the separator between them |
| GenerateQuery.ParseFront | lib/puppet/functions/mysql/generate_query.rb:59 | a `key='value'` written by the code, followed by anything, reads back as that pair and the rest, when the key has no `=` and the value no quote |
| GenerateQuery.ConditionsRoundTrip | lib/puppet/functions/mysql/generate_query.rb:48 | for any separator, the joined `key='value'` list of a hash whose keys have no `=` and values no quote reads back as the same hash, order included |
| GenerateQuery.GenerateFailures | lib/puppet/functions/mysql/generate_query.rb:45-63 | the result is a failure exactly for `insert` without a database (InsertNeedsDatabase) and for a query type other than select, insert, update (InvalidQueryType) |
| GenerateQuery.WhereNarrowsToDatabase | lib/puppet/functions/mysql/generate_query.rb:37-43 | without a database the table is `mysql.user` and the row is picked by user and host; with one the table is `mysql.db` and the same clause is narrowed by ` AND Db='d'` |
| GenerateQuery.SelectIgnoresPermissions | lib/puppet/functions/mysql/generate_query.rb:46-50 | an unextended SELECT is `SELECT User, Host FROM <table> WHERE <where>;` for any two permission hashes alike |
| GenerateQuery.SelectExtensionReadsBack | lib/puppet/functions/mysql/generate_query.rb:47-50 | an extended SELECT appends `AND ` and the `key='value'` list joined by `AND ` with no space before it, and, when no key holds `=` and no value a quote, that list reads back as the hash |
| GenerateQuery.UpdateSetReadsBack | lib/puppet/functions/mysql/generate_query.rb:58-60 | an UPDATE sets the `key='value'` list joined by `, ` on the user's row, and, when no key holds `=` and no value a quote, that list reads back as the hash |
| GenerateQuery.InsertRowAligned | lib/puppet/functions/mysql/generate_query.rb:51-57 | with a database, the INSERT into `mysql.db` lists `Host, Db, User` and the keys, and the values host, database, user and the quoted hash values: both three longer than the hash, and, for a hash with distinct keys, each key's value the hash's value for that key |
| GenerateQuery.QuoteInValueIsAmbiguous | lib/puppet/functions/mysql/generate_query.rb:59 | values are pasted without escaping: a one-pair hash whose value holds a quote gives the same UPDATE as a different two-pair hash |
| RoleQueries.SlaveColumnsUnquoted | lib/puppet/functions/mysql/get_permission_list.rb:90-94 | the hash `slave` gets under an undeclared type has distinct keys, no `=` in a key and no quote in a value |
| RoleQueries.PrivilegeNamesUnquoted | lib/puppet/functions/mysql/get_permission_list.rb:21-51 | no column of either type contains `=` |
| RoleQueries.FlaggedUnquoted | lib/puppet/functions/mysql/get_permission_list.rb:62-99 | a flagged hash over distinct names without `=` has distinct keys and no quote in its values |
| RoleQueries.RolePermissionsUnquoted | lib/puppet/functions/mysql/get_permission_list.rb:59-105 | every hash a role yields has distinct keys, no `=` in a key and no quote in a value |
| RoleQueries.RoleStatementsCarryHash | lib/puppet/functions/mysql/generate_query.rb:48-60 | a role's hash written into an UPDATE SET list or extended SELECT reads back whole; a database-specific role's INSERT has 22 columns and 22 values |

## Left out

- The Facter fact `mysql_current_root_password` (lib/facter/current_root_password.rb): it reads a file and returns an empty string on failure; file I/O is outside the model.
- Puppet's `dispatch` signatures (`Enum[...]`, `String`, `Hash`, `Boolean` parameter checks, the optional-parameter defaults): the runtime's validation layer, so the model is total over strings and its own failure branches stand in.
- The text of the `fail` messages: only which failure occurs is modelled.
- Executing the statements, SQL escaping and injection safety: the code performs none of them; `QuoteInValueIsAmbiguous` shows the consequence.
- The Ruby Hash in `generate` is any pair list: a hash that could not come from Ruby (a repeated key) is still accepted, and `InsertRowAligned` states its per-key value only for hashes with distinct keys.
- Hash keys and values are strings only: Puppet's `Hash` accepts any values, which `#{}` interpolation turns into text, and an Array key would be flattened by `Array#join` at lib/puppet/functions/mysql/generate_query.rb:55; neither conversion is modelled.
- An empty permission hash is modelled as written (an extended SELECT then ends in `'AND ;`, an UPDATE in `SET  WHERE`); no role yields one (`RoleHashNotEmpty`: every role's hash has at least 19 columns).
