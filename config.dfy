/**
 * backend/config.py: the database URL read from the environment is given to
 * SQLAlchemy with a legacy `postgres://` scheme rewritten to name the psycopg
 * (version 3) driver.
 */
module Config {
  import opened Wrappers

  const LegacyScheme: string := "postgres://"
  const DriverScheme: string := "postgresql+psycopg://"

  /** `pat` occurs in `s` starting at index `k`. */
  predicate OccursAt(pat: string, s: string, k: nat) {
    k <= |s| && pat <= s[k..]
  }

  /** Python's `s.replace(pat, rep, 1)`: the first occurrence of `pat`, if any, becomes `rep`. */
  function ReplaceFirst(s: string, pat: string, rep: string): string
    decreases |s|
  {
    if pat <= s then rep + s[|pat|..]
    else if s == [] then s
    else [s[0]] + ReplaceFirst(s[1..], pat, rep)
  }

  /** Replacing at the first occurrence keeps everything before and after it. */
  lemma {:induction false} ReplaceFirstAtFirstOccurrence(s: string, pat: string, rep: string, k: nat)
    requires OccursAt(pat, s, k)
    requires forall j :: 0 <= j < k ==> !OccursAt(pat, s, j)
    ensures ReplaceFirst(s, pat, rep) == s[..k] + rep + s[k + |pat|..]
    decreases k
  {
    if k == 0 {
      assert s[0..] == s;
    } else {
      assert !OccursAt(pat, s, 0);
      assert s[0..] == s;
      forall j | 0 <= j < k - 1
        ensures !OccursAt(pat, s[1..], j)
      {
        assert s[1..][j..] == s[j + 1..];
        assert !OccursAt(pat, s, j + 1);
      }
      assert s[1..][k - 1..] == s[k..];
      ReplaceFirstAtFirstOccurrence(s[1..], pat, rep, k - 1);
      assert s[..k] == [s[0]] + s[1..][..k - 1];
      assert s[1..][k - 1 + |pat|..] == s[k + |pat|..];
    }
  }

  /** A string in which `pat` never occurs is left as it is. */
  lemma {:induction false} ReplaceFirstWithoutOccurrence(s: string, pat: string, rep: string)
    requires forall j :: 0 <= j <= |s| ==> !OccursAt(pat, s, j)
    ensures ReplaceFirst(s, pat, rep) == s
    decreases |s|
  {
    assert s[0..] == s;
    assert !OccursAt(pat, s, 0);
    if s != [] {
      forall j | 0 <= j <= |s| - 1
        ensures !OccursAt(pat, s[1..], j)
      {
        assert s[1..][j..] == s[j + 1..];
        assert !OccursAt(pat, s, j + 1);
      }
      ReplaceFirstWithoutOccurrence(s[1..], pat, rep);
      assert [s[0]] + s[1..] == s;
    }
  }

  /**
   * The rewrite of `db_url`: a defined URL that starts with `postgres://`
   * gets the driver scheme in place of that prefix and keeps the rest as it
   * is; any other value, absent and empty included, is passed through.
   */
  function NormalizeDatabaseUrl(url: Option<string>): (r: Option<string>)
    ensures url.Some? && LegacyScheme <= url.value ==>
              r == Some(DriverScheme + url.value[|LegacyScheme|..])
    ensures !(url.Some? && LegacyScheme <= url.value) ==> r == url
    ensures r.Some? ==> !(LegacyScheme <= r.value)
  {
    if url.Some? && url.value != "" && LegacyScheme <= url.value then
      assert DriverScheme[8] != LegacyScheme[8];
      Some(ReplaceFirst(url.value, LegacyScheme, DriverScheme))
    else
      url
  }

  /** Rewriting an already rewritten URL changes nothing. */
  lemma NormalizeIdempotent(url: Option<string>)
    ensures NormalizeDatabaseUrl(NormalizeDatabaseUrl(url)) == NormalizeDatabaseUrl(url)
  {
  }

  /** Later `postgres://` substrings survive: only the leading scheme is replaced. */
  lemma ReplacesOnlyLeadingScheme()
    ensures NormalizeDatabaseUrl(Some("postgres://h/postgres://x"))
         == Some("postgresql+psycopg://h/postgres://x")
  {
    var url := "postgres://h/postgres://x";
    assert url[..|LegacyScheme|] == LegacyScheme;
    assert url[|LegacyScheme|..] == "h/postgres://x";
    assert DriverScheme + "h/postgres://x" == "postgresql+psycopg://h/postgres://x";
  }

  /**
   * `SQLALCHEMY_DATABASE_URI`, from the environment variable `DATABASE_URL`
   * (`None` when the variable is unset).
   */
  function DatabaseUri(environ: map<string, string>): (uri: Option<string>)
    ensures "DATABASE_URL" !in environ ==> uri == None
    ensures "DATABASE_URL" in environ && LegacyScheme <= environ["DATABASE_URL"] ==>
              uri == Some(DriverScheme + environ["DATABASE_URL"][|LegacyScheme|..])
    ensures "DATABASE_URL" in environ && !(LegacyScheme <= environ["DATABASE_URL"]) ==>
              uri == Some(environ["DATABASE_URL"])
  {
    NormalizeDatabaseUrl(if "DATABASE_URL" in environ then Some(environ["DATABASE_URL"]) else None)
  }
}
