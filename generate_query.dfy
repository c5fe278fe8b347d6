/**
 * The Puppet function `mysql::generate_query`: the SELECT, INSERT or UPDATE
 * statement that reads or writes one user's row of MySQL's privilege tables,
 * built from a permission hash. Every value is pasted into the text as it is;
 * nothing is escaped.
 */
module GenerateQuery {
  import opened Wrappers
  import opened OrderedHash

  /** Why the function fails. */
  datatype QueryError =
    | InsertNeedsDatabase   // `insert` asked for without a database
    | InvalidQueryType      // a query type other than select, insert, update

  /** `Array#join(sep)`. */
  function Join(parts: seq<string>, sep: string): string
    decreases |parts|
  {
    if parts == [] then ""
    else if |parts| == 1 then parts[0]
    else parts[0] + sep + Join(parts[1..], sep)
  }

  /** `"'#{s}'"`: a SQL string literal, without escaping. */
  function Quote(s: string): string
  {
    "'" + s + "'"
  }

  /** `"#{key}='#{value}'"` for every pair, in hash order. */
  function Conditions(h: Hash): seq<string>
  {
    seq(|h|, i requires 0 <= i < |h| => h[i].0 + "=" + Quote(h[i].1))
  }

  /** The privilege table a statement addresses: per database, or per user. */
  function Table(database: Option<string>): string
  {
    if database.Some? then "mysql.db" else "mysql.user"
  }

  /** The conditions that select the user's row. */
  function WhereValues(user: string, host: string, database: Option<string>): string
  {
    match database
    case Some(db) => "User='" + user + "' AND Host='" + host + "' AND Db='" + db + "'"
    case None => "User='" + user + "' AND Host='" + host + "'"
  }

  /** The column list of the INSERT: the row's identity, then the hash's keys. */
  function InsertColumns(permissionList: Hash): seq<string>
  {
    ["Host", "Db", "User"] + Keys(permissionList)
  }

  /** The value list of the INSERT: the row's identity, then the hash's values. */
  function InsertValues(user: string, host: string, database: string, permissionList: Hash): seq<string>
  {
    [Quote(host), Quote(database), Quote(user)]
      + seq(|permissionList|, i requires 0 <= i < |permissionList| => Quote(permissionList[i].1))
  }

  /** `generate`; `database` is `nil` when absent (an empty name is present). */
  function Generate(queryType: string, user: string, host: string, permissionList: Hash,
                    extendSelect: bool, database: Option<string>): Result<string, QueryError>
  {
    var table := Table(database);
    var whereValues := WhereValues(user, host, database);
    if queryType == "select" then
      var where := if extendSelect then whereValues + "AND " + Join(Conditions(permissionList), "AND ")
                   else whereValues;
      Success("SELECT User, Host FROM " + table + " WHERE " + where + ";")
    else if queryType == "insert" then
      if database.None? then Failure(InsertNeedsDatabase)
      else
        var columns := Join(InsertColumns(permissionList), ", ");
        var values := Join(InsertValues(user, host, database.value, permissionList), ", ");
        Success("INSERT INTO " + table + " (" + columns + ") VALUES (" + values + ");")
    else if queryType == "update" then
      Success("UPDATE " + table + " SET " + Join(Conditions(permissionList), ", ")
              + " WHERE " + whereValues + ";")
    else Failure(InvalidQueryType)
  }

  // ---------------------------------------------------------------------------
  // Reading a joined condition list back: the partner of `Conditions` + `Join`.

  /** The position of the first `c` in `s`, or `|s|` when there is none. */
  function IndexOf(s: string, c: char): (n: nat)
    ensures n <= |s|
    ensures n < |s| ==> s[n] == c
    ensures c !in s[..n]
  {
    if s == [] then 0
    else if s[0] == c then 0
    else 1 + IndexOf(s[1..], c)
  }

  /**
   * Reads `key='value'` at the front of `s`: a key runs to the first `=`, a
   * value from the quote after it to the next quote. Gives the pair and what
   * follows it.
   */
  function ParseEntry(s: string): (r: Option<((string, string), string)>)
    ensures r.Some? ==> |r.value.1| < |s|
  {
    var i := IndexOf(s, '=');
    if i + 1 >= |s| || s[i + 1] != '\'' then None
    else
      var rest := s[i + 2..];
      var j := IndexOf(rest, '\'');
      if j == |rest| then None
      else Some(((s[..i], rest[..j]), rest[j + 1..]))
  }

  /** Splits `k1='v1'<sep>k2='v2'...` back into its pairs. */
  function ParseConditions(s: string, sep: string): Option<Hash>
    decreases |s|
  {
    if s == [] then Some([])
    else
      match ParseEntry(s)
      case None => None
      case Some(front) =>
        var (entry, tail) := front;
        if tail == [] then Some([entry])
        else if |sep| <= |tail| && tail[..|sep|] == sep then
          match ParseConditions(tail[|sep|..], sep)
          case Some(more) => Some([entry] + more)
          case None => None
        else None
  }

  /** No key holds `=` and no value holds a quote, so the text has one reading. */
  predicate Unquoted(h: Hash)
  {
    forall i :: 0 <= i < |h| ==> '=' !in h[i].0 && '\'' !in h[i].1
  }

  /** The first element of a list, then the rest joined behind a separator. */
  lemma JoinCons(first: string, rest: seq<string>, sep: string)
    requires rest != []
    ensures Join([first] + rest, sep) == first + sep + Join(rest, sep)
  {
  }

  /** `IndexOf` finds the first occurrence. */
  lemma IndexOfAt(s: string, c: char, n: nat)
    requires n < |s| && s[n] == c && c !in s[..n]
    ensures IndexOf(s, c) == n
  {
  }

  /** Reading the key and value at the front of `key='value'...`. */
  lemma ParseFront(key: string, value: string, tail: string)
    requires '=' !in key && '\'' !in value
    ensures ParseEntry(key + "=" + Quote(value) + tail) == Some(((key, value), tail))
  {
    var s := key + "=" + Quote(value) + tail;
    var rest := value + "'" + tail;
    assert s == key + "='" + rest;
    assert s[..|key|] == key;
    IndexOfAt(s, '=', |key|);
    assert s[|key| + 2..] == rest;
    assert rest[..|value|] == value;
    IndexOfAt(rest, '\'', |value|);
    assert rest[|value| + 1..] == tail;
  }

  /**
   * Any separator: the joined `key='value'` list of a hash whose keys hold no
   * `=` and whose values hold no quote reads back as that hash.
   */
  lemma {:induction false} ConditionsRoundTrip(h: Hash, sep: string)
    requires Unquoted(h)
    ensures ParseConditions(Join(Conditions(h), sep), sep) == Some(h)
    decreases |h|
  {
    if h != [] {
      var key, value := h[0].0, h[0].1;
      var first := key + "=" + Quote(value);
      assert Conditions(h) == [first] + Conditions(h[1..]);
      if |h| == 1 {
        ParseFront(key, value, "");
        assert first + "" == first;
        assert Join(Conditions(h), sep) == first && |first| > 0;
        assert [(key, value)] == h;
      } else {
        var more := Join(Conditions(h[1..]), sep);
        JoinCons(first, Conditions(h[1..]), sep);
        assert |Conditions(h[1..])[0]| >= 3;
        var tail := sep + more;
        ParseFront(key, value, tail);
        assert first + tail == first + sep + more;
        assert tail[..|sep|] == sep && tail[|sep|..] == more;
        ConditionsRoundTrip(h[1..], sep);
        assert [(key, value)] + h[1..] == h;
      }
    }
  }

  // ---------------------------------------------------------------------------
  // What `generate` promises

  /**
   * `generate` fails exactly for `insert` without a database and for a query
   * type other than select, insert and update.
   */
  lemma GenerateFailures(queryType: string, user: string, host: string, permissionList: Hash,
                         extendSelect: bool, database: Option<string>)
    ensures Generate(queryType, user, host, permissionList, extendSelect, database).Failure?
      <==> queryType !in {"select", "insert", "update"} || (queryType == "insert" && database.None?)
    ensures queryType == "insert" && database.None? ==>
      Generate(queryType, user, host, permissionList, extendSelect, database) == Failure(InsertNeedsDatabase)
    ensures queryType !in {"select", "insert", "update"} ==>
      Generate(queryType, user, host, permissionList, extendSelect, database) == Failure(InvalidQueryType)
  {
  }

  /**
   * A database narrows the statement to the row of `mysql.db` for that
   * database; without one it addresses the user's row of `mysql.user`.
   */
  lemma WhereNarrowsToDatabase(user: string, host: string, db: string)
    ensures Table(None) == "mysql.user" && Table(Some(db)) == "mysql.db"
    ensures WhereValues(user, host, None) == "User=" + Quote(user) + " AND Host=" + Quote(host)
    ensures WhereValues(user, host, Some(db)) == WhereValues(user, host, None) + " AND Db=" + Quote(db)
  {
  }

  /** A plain SELECT reads the user's identity and does not depend on the permission hash. */
  lemma SelectIgnoresPermissions(user: string, host: string, permissionList: Hash, other: Hash,
                                 database: Option<string>)
    ensures Generate("select", user, host, permissionList, false, database)
      == Generate("select", user, host, other, false, database)
      == Success("SELECT User, Host FROM " + Table(database) + " WHERE " + WhereValues(user, host, database) + ";")
  {
  }

  /**
   * An extended SELECT appends `AND ` and the hash's `key='value'` conditions,
   * joined by `AND ` with no space before it; when no key holds `=` and no
   * value a quote, that condition list reads back as the hash.
   */
  lemma SelectExtensionReadsBack(user: string, host: string, permissionList: Hash, database: Option<string>)
    ensures Generate("select", user, host, permissionList, true, database)
      == Success("SELECT User, Host FROM " + Table(database) + " WHERE " + WhereValues(user, host, database)
                 + "AND " + Join(Conditions(permissionList), "AND ") + ";")
    ensures Unquoted(permissionList) ==>
      ParseConditions(Join(Conditions(permissionList), "AND "), "AND ") == Some(permissionList)
  {
    var head := "SELECT User, Host FROM " + Table(database) + " WHERE ";
    var w, more := WhereValues(user, host, database), Join(Conditions(permissionList), "AND ");
    assert head + (w + "AND " + more) + ";" == head + w + "AND " + more + ";";
    if Unquoted(permissionList) {
      ConditionsRoundTrip(permissionList, "AND ");
    }
  }

  /**
   * An UPDATE sets the hash's `key='value'` pairs, joined by `, `, on the
   * user's row; when no key holds `=` and no value a quote, that SET list
   * reads back as the hash.
   */
  lemma UpdateSetReadsBack(user: string, host: string, permissionList: Hash, extendSelect: bool,
                           database: Option<string>)
    ensures Generate("update", user, host, permissionList, extendSelect, database)
      == Success("UPDATE " + Table(database) + " SET " + Join(Conditions(permissionList), ", ")
                 + " WHERE " + WhereValues(user, host, database) + ";")
    ensures Unquoted(permissionList) ==>
      ParseConditions(Join(Conditions(permissionList), ", "), ", ") == Some(permissionList)
  {
    if Unquoted(permissionList) {
      ConditionsRoundTrip(permissionList, ", ");
    }
  }

  /**
   * An INSERT writes one `mysql.db` row: `Host`, `Db`, `User` and then every
   * key of the hash, each column lined up with its value — the host, the
   * database, the user, and (keys being distinct, as in every Ruby hash) for
   * a key the quoted value the hash holds for it.
   */
  lemma InsertRowAligned(user: string, host: string, database: string, permissionList: Hash, extendSelect: bool)
    ensures Generate("insert", user, host, permissionList, extendSelect, Some(database))
      == Success("INSERT INTO mysql.db (" + Join(InsertColumns(permissionList), ", ") + ") VALUES ("
                 + Join(InsertValues(user, host, database, permissionList), ", ") + ");")
    ensures |InsertColumns(permissionList)| == |InsertValues(user, host, database, permissionList)|
      == 3 + |permissionList|
    ensures InsertColumns(permissionList)[..3] == ["Host", "Db", "User"]
    ensures InsertValues(user, host, database, permissionList)[..3] == [Quote(host), Quote(database), Quote(user)]
    ensures DistinctKeys(permissionList) ==> forall i :: 3 <= i < 3 + |permissionList| ==>
      Lookup(permissionList, InsertColumns(permissionList)[i]).Some? &&
      InsertValues(user, host, database, permissionList)[i]
        == Quote(Lookup(permissionList, InsertColumns(permissionList)[i]).value)
  {
    var columns := Join(InsertColumns(permissionList), ", ");
    var values := Join(InsertValues(user, host, database, permissionList), ", ");
    assert "INSERT INTO " + "mysql.db" + " (" + columns == "INSERT INTO mysql.db (" + columns;
    if DistinctKeys(permissionList) {
      forall i | 3 <= i < 3 + |permissionList|
        ensures Lookup(permissionList, InsertColumns(permissionList)[i]) == Some(permissionList[i - 3].1)
      {
        LookupAt(permissionList, i - 3);
      }
    }
  }

  /**
   * Nothing is escaped: a value holding a quote makes a one-pair UPDATE read
   * exactly like a two-pair one.
   */
  lemma QuoteInValueIsAmbiguous(user: string, host: string, database: Option<string>)
    ensures [("Select_priv", "Y', Insert_priv='Y")] != [("Select_priv", "Y"), ("Insert_priv", "Y")]
    ensures Generate("update", user, host, [("Select_priv", "Y', Insert_priv='Y")], false, database)
      == Generate("update", user, host, [("Select_priv", "Y"), ("Insert_priv", "Y")], false, database)
  {
    var one: Hash := [("Select_priv", "Y', Insert_priv='Y")];
    var two: Hash := [("Select_priv", "Y"), ("Insert_priv", "Y")];
    JoinCons(Conditions(two)[0], Conditions(two)[1..], ", ");
    assert Conditions(two) == [Conditions(two)[0]] + Conditions(two)[1..];
    assert Join(Conditions(one), ", ") == Join(Conditions(two), ", ");
  }
}
