/** `DBSettings`: the five PostgreSQL connection fields with their defaults,
    and the `DATABASE_URL` computed from them. Reading the fields from the
    environment is left to the settings library; here they are given values. */
module DbSettings {
  import opened Wrappers
  import opened Decimal

  datatype DBSettings = DBSettings(
    postgresHost: string,
    postgresPort: int,
    postgresUser: string,
    postgresPassword: string,
    postgresDb: string)

  const Scheme: string := "postgresql+psycopg://"

  /** The settings when no environment variable overrides a field. */
  const Defaults: DBSettings := DBSettings("db", 5432, "user", "password", "fapi-db-tmpl-dev")

  /** `DATABASE_URL`: the fields are spliced in verbatim, with no escaping. */
  function DatabaseUrl(s: DBSettings): (url: string)
    ensures |url| >= |Scheme| && url[..|Scheme|] == Scheme
    ensures |url| == |Scheme| + |s.postgresUser| + |s.postgresPassword| + |s.postgresHost|
                     + |IntToDecimal(s.postgresPort)| + |s.postgresDb| + 4
  {
    Scheme + s.postgresUser + ":" + s.postgresPassword + "@" + s.postgresHost + ":"
      + IntToDecimal(s.postgresPort) + "/" + s.postgresDb
  }

  /** Splits `s` at the first occurrence of `c`. */
  function SplitAtFirst(s: string, c: char): (r: Option<(string, string)>)
    ensures r.Some? ==> c !in r.value.0 && s == r.value.0 + [c] + r.value.1
    ensures r.None? ==> c !in s
  {
    if s == [] then None
    else if s[0] == c then Some(([], s[1..]))
    else match SplitAtFirst(s[1..], c)
      case None => None
      case Some((before, after)) => Some(([s[0]] + before, after))
  }

  /** Reads the five fields back out of a URL of the shape `DatabaseUrl`
      produces, splitting at the first ':', '@', ':' and '/' in turn. */
  function ParseUrl(url: string): Option<DBSettings> {
    if |url| < |Scheme| || url[..|Scheme|] != Scheme then None
    else match SplitAtFirst(url[|Scheme|..], ':')
      case None => None
      case Some((user, rest1)) => match SplitAtFirst(rest1, '@')
        case None => None
        case Some((password, rest2)) => match SplitAtFirst(rest2, ':')
          case None => None
          case Some((host, rest3)) => match SplitAtFirst(rest3, '/')
            case None => None
            case Some((port, db)) => match ParseInt(port)
              case None => None
              case Some(p) => Some(DBSettings(host, p, user, password, db))
  }

  /** Settings whose text fields do not contain the separator that follows them. */
  predicate Unambiguous(s: DBSettings) {
    ':' !in s.postgresUser && '@' !in s.postgresPassword && ':' !in s.postgresHost
  }

  lemma {:induction false} SplitAtSeparator(a: string, c: char, b: string)
    requires c !in a
    ensures SplitAtFirst(a + [c] + b, c) == Some((a, b))
    decreases |a|
  {
    var s := a + [c] + b;
    if a != [] {
      assert s[0] == a[0] && s[1..] == a[1..] + [c] + b;
      SplitAtSeparator(a[1..], c, b);
      assert [a[0]] + a[1..] == a;
    }
  }

  lemma NoSlashInDecimal(i: int)
    ensures '/' !in IntToDecimal(i)
  {
  }

  /** When each text field avoids the separator after it, the URL determines
      the settings it was built from. */
  lemma UrlRoundTrip(s: DBSettings)
    requires Unambiguous(s)
    ensures ParseUrl(DatabaseUrl(s)) == Some(s)
  {
    var port := IntToDecimal(s.postgresPort);
    var rest3 := port + "/" + s.postgresDb;
    var rest2 := s.postgresHost + ":" + rest3;
    var rest1 := s.postgresPassword + "@" + rest2;
    var rest0 := s.postgresUser + ":" + rest1;
    var url := DatabaseUrl(s);
    assert url == Scheme + rest0;
    assert url[|Scheme|..] == rest0;
    SplitAtSeparator(s.postgresUser, ':', rest1);
    SplitAtSeparator(s.postgresPassword, '@', rest2);
    SplitAtSeparator(s.postgresHost, ':', rest3);
    NoSlashInDecimal(s.postgresPort);
    SplitAtSeparator(port, '/', s.postgresDb);
    IntRoundTrip(s.postgresPort);
  }

  /** With nothing escaped, a ':' moved from the password into the user name
      yields the same URL: the URL alone cannot tell the two settings apart. */
  lemma UrlNotEscaped()
    ensures DatabaseUrl(Defaults.(postgresUser := "a:b", postgresPassword := "c"))
         == DatabaseUrl(Defaults.(postgresUser := "a", postgresPassword := "b:c"))
  {
  }

  /** With every field at its default the URL is
      postgresql+psycopg://user:password@db:5432/fapi-db-tmpl-dev, stated
      piece by piece so that the solver compares short literals. */
  lemma DefaultUrl()
    ensures DatabaseUrl(Defaults)
         == "postgresql+psycopg://" + "user" + ":" + "password" + "@" + "db" + ":" + "5432" + "/" + "fapi-db-tmpl-dev"
  {
    DefaultPortDigits();
  }

  lemma DefaultPortDigits()
    ensures IntToDecimal(Defaults.postgresPort) == "5432"
  {
  }
}
