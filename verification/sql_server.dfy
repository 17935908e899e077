/**
 * The settings of an SQL server connection: user name, password, database
 * name and character set, each with a getter and a setter.
 */
module SqlServer {

  datatype Server = Server(username: string, password: string, databaseName: string, charset: string)

  /** A new server: empty credentials and database name, charset "utf8". */
  function NewServer(): (s: Server)
    ensures GetUsername(s) == "" && GetPassword(s) == "" && GetDatabaseName(s) == ""
    ensures GetCharset(s) == "utf8"
  {
    Server("", "", "", "utf8")
  }

  /** Each getter returns its field: storing the returned value back changes nothing. */
  function GetCharset(s: Server): (v: string)
    ensures s.(charset := v) == s
  {
    s.charset
  }

  function GetDatabaseName(s: Server): (v: string)
    ensures s.(databaseName := v) == s
  {
    s.databaseName
  }

  function GetPassword(s: Server): (v: string)
    ensures s.(password := v) == s
  {
    s.password
  }

  function GetUsername(s: Server): (v: string)
    ensures s.(username := v) == s
  {
    s.username
  }

  /** Sets the charset; the other settings keep their values. */
  function SetCharset(s: Server, charset: string): (r: Server)
    ensures GetCharset(r) == charset
    ensures GetDatabaseName(r) == GetDatabaseName(s) && GetPassword(r) == GetPassword(s)
    ensures GetUsername(r) == GetUsername(s)
  {
    s.(charset := charset)
  }

  /** Sets the database name; the other settings keep their values. */
  function SetDatabaseName(s: Server, databaseName: string): (r: Server)
    ensures GetDatabaseName(r) == databaseName
    ensures GetCharset(r) == GetCharset(s) && GetPassword(r) == GetPassword(s)
    ensures GetUsername(r) == GetUsername(s)
  {
    s.(databaseName := databaseName)
  }

  /** Sets the password; the other settings keep their values. */
  function SetPassword(s: Server, password: string): (r: Server)
    ensures GetPassword(r) == password
    ensures GetCharset(r) == GetCharset(s) && GetDatabaseName(r) == GetDatabaseName(s)
    ensures GetUsername(r) == GetUsername(s)
  {
    s.(password := password)
  }

  /** Sets the user name; the other settings keep their values. */
  function SetUsername(s: Server, username: string): (r: Server)
    ensures GetUsername(r) == username
    ensures GetCharset(r) == GetCharset(s) && GetDatabaseName(r) == GetDatabaseName(s)
    ensures GetPassword(r) == GetPassword(s)
  {
    s.(username := username)
  }

  /** Setting a value that the getter already returns changes nothing. */
  lemma SetGetIsIdentity(s: Server)
    ensures SetCharset(s, GetCharset(s)) == s
    ensures SetDatabaseName(s, GetDatabaseName(s)) == s
    ensures SetPassword(s, GetPassword(s)) == s
    ensures SetUsername(s, GetUsername(s)) == s
  {
  }

  /** Setters of different settings commute; a second set of the same setting overrides the first. */
  lemma SettersCommuteAndOverride(s: Server, a: string, b: string)
    ensures SetCharset(SetUsername(s, a), b) == SetUsername(SetCharset(s, b), a)
    ensures SetCharset(SetDatabaseName(s, a), b) == SetDatabaseName(SetCharset(s, b), a)
    ensures SetCharset(SetPassword(s, a), b) == SetPassword(SetCharset(s, b), a)
    ensures SetUsername(SetDatabaseName(s, a), b) == SetDatabaseName(SetUsername(s, b), a)
    ensures SetUsername(SetPassword(s, a), b) == SetPassword(SetUsername(s, b), a)
    ensures SetDatabaseName(SetPassword(s, a), b) == SetPassword(SetDatabaseName(s, b), a)
    ensures SetCharset(SetCharset(s, a), b) == SetCharset(s, b)
    ensures SetDatabaseName(SetDatabaseName(s, a), b) == SetDatabaseName(s, b)
    ensures SetPassword(SetPassword(s, a), b) == SetPassword(s, b)
    ensures SetUsername(SetUsername(s, a), b) == SetUsername(s, b)
  {
  }
}
