/**
 * The production profile's database URL normaliser: a platform-style
 * connection URL becomes a JDBC URL that requires SSL.
 */
module DatabaseConfig {
  import opened Wrappers

  /** Why a URL was refused; each becomes an exception with its own message. */
  datatype UrlError =
    | MissingUrl            // no URL, or the empty string: an illegal-state failure
    | Unsupported(url: string)  // a URL with an unknown scheme: an illegal-argument failure

  const MissingUrlMessage: string := "DATABASE_URL environment variable is not set"
  const UnsupportedMessage: string := "Unsupported database URL format: "

  const JdbcPrefix: string := "jdbc:"
  const PostgresqlPrefix: string := "postgresql://"
  const PostgresPrefix: string := "postgres://"
  const JdbcPostgresqlPrefix: string := "jdbc:postgresql://"
  const SslSuffix: string := "?sslmode=require"

  predicate StartsWith(s: string, prefix: string)
  {
    |prefix| <= |s| && s[..|prefix|] == prefix
  }

  predicate EndsWith(s: string, suffix: string)
  {
    |suffix| <= |s| && s[|s| - |suffix|..] == suffix
  }

  /** `target` occurs in `s` starting at index `i`. */
  predicate OccursAt(s: string, target: string, i: int)
  {
    0 <= i && i + |target| <= |s| && s[i..i + |target|] == target
  }

  predicate Occurs(s: string, target: string)
  {
    exists i | 0 <= i <= |s| - |target| :: OccursAt(s, target, i)
  }

  /** The message of the exception raised for `e`; the refused URL can be read back from it. */
  function Message(e: UrlError): (m: string)
    ensures e.MissingUrl? ==> m == MissingUrlMessage
    ensures e.Unsupported? ==> StartsWith(m, UnsupportedMessage) && m[|UnsupportedMessage|..] == e.url
  {
    match e
    case MissingUrl => MissingUrlMessage
    case Unsupported(url) => UnsupportedMessage + url
  }

  /** Different failures have different messages. */
  lemma MessagesDistinguish(e1: UrlError, e2: UrlError)
    requires Message(e1) == Message(e2)
    ensures e1 == e2
  {
    assert Message(e1)[0] == if e1.MissingUrl? then 'D' else 'U';
    assert Message(e2)[0] == if e2.MissingUrl? then 'D' else 'U';
    if e1.Unsupported? && e2.Unsupported? {
      assert e1.url == Message(e1)[|UnsupportedMessage|..] == Message(e2)[|UnsupportedMessage|..] == e2.url;
    }
  }

  /**
   * Replaces every occurrence of `target` in `s`, scanning left to right and
   * resuming after each replaced occurrence, so occurrences never overlap.
   */
  function ReplaceAll(s: string, target: string, replacement: string): (r: string)
    requires |target| > 0
    ensures |replacement| >= |target| ==> |r| >= |s|
    ensures StartsWith(s, target) ==> StartsWith(r, replacement)
    decreases |s|
  {
    if |s| < |target| then s
    else if s[..|target|] == target then replacement + ReplaceAll(s[|target|..], target, replacement)
    else [s[0]] + ReplaceAll(s[1..], target, replacement)
  }

  /** A string without an occurrence of the target comes back unchanged. */
  lemma {:induction false} ReplaceAllUnchanged(s: string, target: string, replacement: string)
    requires |target| > 0 && !Occurs(s, target)
    ensures ReplaceAll(s, target, replacement) == s
    decreases |s|
  {
    if |s| >= |target| {
      assert !OccursAt(s, target, 0);
      assert !Occurs(s[1..], target) by {
        forall i | OccursAt(s[1..], target, i) ensures false {
          assert s[i + 1..i + 1 + |target|] == s[1..][i..i + |target|];
          assert OccursAt(s, target, i + 1);
        }
      }
      ReplaceAllUnchanged(s[1..], target, replacement);
      assert s == [s[0]] + s[1..];
    }
  }

  /**
   * Rewrites a connection URL into a JDBC URL, testing the prefixes in the
   * order `jdbc:`, `postgresql://`, `postgres://`; every accepted URL gets the
   * SSL suffix.
   */
  function TransformDatabaseUrl(url: Option<string>): (r: Result<string, UrlError>)
    ensures r == Failure(MissingUrl) <==> url.None? || url.value == []
    ensures r.Failure? && r.error.Unsupported? <==>
      url.Some? && url.value != [] && !StartsWith(url.value, JdbcPrefix)
      && !StartsWith(url.value, PostgresqlPrefix) && !StartsWith(url.value, PostgresPrefix)
    ensures r.Failure? && r.error.Unsupported? ==> r.error.url == url.value
    ensures r.Success? ==>
      StartsWith(r.value, JdbcPrefix) && EndsWith(r.value, SslSuffix) && |r.value| > |url.value|
  {
    if url.None? || url.value == [] then Failure(MissingUrl)
    else
      var u := url.value;
      if StartsWith(u, JdbcPrefix) then Success(u + SslSuffix)
      else if StartsWith(u, PostgresqlPrefix) then Success(JdbcPrefix + u + SslSuffix)
      else if StartsWith(u, PostgresPrefix) then Success(ReplaceAll(u, PostgresPrefix, JdbcPostgresqlPrefix) + SslSuffix)
      else Failure(Unsupported(u))
  }

  /** No URL starts with two of the accepted prefixes, so at most one rewrite applies. */
  lemma PrefixesExclusive(u: string)
    ensures !(StartsWith(u, JdbcPrefix) && StartsWith(u, PostgresqlPrefix))
    ensures !(StartsWith(u, JdbcPrefix) && StartsWith(u, PostgresPrefix))
    ensures !(StartsWith(u, PostgresqlPrefix) && StartsWith(u, PostgresPrefix))
  {
    if StartsWith(u, JdbcPrefix) {
      assert u[0] == 'j';
    }
    if StartsWith(u, PostgresqlPrefix) {
      assert u[8] == 'q';
    }
  }

  /** A JDBC URL is kept as it is, with the SSL suffix appended. */
  lemma JdbcUrlKept(u: string)
    requires StartsWith(u, JdbcPrefix)
    ensures TransformDatabaseUrl(Some(u)) == Success(u + SslSuffix)
  {
  }

  /** A `postgresql://` URL gets the JDBC scheme in front and the SSL suffix behind. */
  lemma PostgresqlUrlPrefixed(u: string)
    requires StartsWith(u, PostgresqlPrefix)
    ensures TransformDatabaseUrl(Some(u)) == Success(JdbcPrefix + u + SslSuffix)
  {
    PrefixesExclusive(u);
  }

  /**
   * A `postgres://` URL has its scheme rewritten to `jdbc:postgresql://`, and
   * so has every later occurrence of `postgres://` in the rest of it.
   */
  lemma PostgresUrlRewritten(rest: string)
    ensures TransformDatabaseUrl(Some(PostgresPrefix + rest))
      == Success(JdbcPostgresqlPrefix + ReplaceAll(rest, PostgresPrefix, JdbcPostgresqlPrefix) + SslSuffix)
    ensures !Occurs(rest, PostgresPrefix) ==>
      TransformDatabaseUrl(Some(PostgresPrefix + rest)) == Success(JdbcPostgresqlPrefix + rest + SslSuffix)
  {
    var u := PostgresPrefix + rest;
    assert StartsWith(u, PostgresPrefix) && u[..|PostgresPrefix|] == PostgresPrefix;
    assert u[|PostgresPrefix|..] == rest;
    PrefixesExclusive(u);
    if !Occurs(rest, PostgresPrefix) {
      ReplaceAllUnchanged(rest, PostgresPrefix, JdbcPostgresqlPrefix);
    }
  }

  /** A character that cannot start the target is copied as it is. */
  lemma ReplaceAllCopies(c: char, s: string, target: string, replacement: string)
    requires |target| > 0 && c != target[0]
    ensures ReplaceAll([c] + s, target, replacement) == [c] + ReplaceAll(s, target, replacement)
  {
    var cs := [c] + s;
    assert cs[1..] == s;
    if |cs| >= |target| {
      assert cs[..|target|][0] == c;
    }
  }

  /** A stretch of characters none of which can start the target is copied as it is. */
  lemma {:induction false} ReplaceAllCopiesPrefix(h: string, s: string, target: string, replacement: string)
    requires |target| > 0 && forall i :: 0 <= i < |h| ==> h[i] != target[0]
    ensures ReplaceAll(h + s, target, replacement) == h + ReplaceAll(s, target, replacement)
    decreases |h|
  {
    if |h| > 0 {
      assert h + s == [h[0]] + (h[1..] + s);
      ReplaceAllCopies(h[0], h[1..] + s, target, replacement);
      ReplaceAllCopiesPrefix(h[1..], s, target, replacement);
      calc {
        ReplaceAll(h + s, target, replacement);
        [h[0]] + ReplaceAll(h[1..] + s, target, replacement);
        [h[0]] + (h[1..] + ReplaceAll(s, target, replacement));
        { assert h == [h[0]] + h[1..]; }
        h + ReplaceAll(s, target, replacement);
      }
    } else {
      assert h + s == s;
    }
  }

  /** The replacement is not limited to the scheme: a second `postgres://` further on is rewritten too. */
  lemma PostgresRewriteReplacesEveryOccurrence(host: string)
    requires forall i :: 0 <= i < |host| ==> host[i] != 'p'
    ensures TransformDatabaseUrl(Some(PostgresPrefix + host + PostgresPrefix))
      == Success(JdbcPostgresqlPrefix + host + JdbcPostgresqlPrefix + SslSuffix)
  {
    var rest := host + PostgresPrefix;
    assert PostgresPrefix + host + PostgresPrefix == PostgresPrefix + rest;
    PostgresUrlRewritten(rest);
    assert ReplaceAll(PostgresPrefix, PostgresPrefix, JdbcPostgresqlPrefix) == JdbcPostgresqlPrefix by {
      assert PostgresPrefix[|PostgresPrefix|..] == [];
    }
    ReplaceAllCopiesPrefix(host, PostgresPrefix, PostgresPrefix, JdbcPostgresqlPrefix);
    assert ReplaceAll(rest, PostgresPrefix, JdbcPostgresqlPrefix) == host + JdbcPostgresqlPrefix;
    assert JdbcPostgresqlPrefix + (host + JdbcPostgresqlPrefix) + SslSuffix
      == JdbcPostgresqlPrefix + host + JdbcPostgresqlPrefix + SslSuffix;
  }

  /**
   * Up to the first character that starts the replacement, the result is the
   * input itself: a prefix of the result free of that character was copied.
   */
  lemma {:induction false} ReplaceAllKeepsPrefix(s: string, target: string, replacement: string, n: nat)
    requires |target| > 0 && |replacement| > 0
    ensures var r := ReplaceAll(s, target, replacement);
      n <= |r| && (forall k :: 0 <= k < n ==> r[k] != replacement[0]) ==> n <= |s| && r[..n] == s[..n]
    decreases |s|
  {
    var r := ReplaceAll(s, target, replacement);
    if n > 0 && |s| >= |target| && s[..|target|] != target {
      var x := ReplaceAll(s[1..], target, replacement);
      assert r == [s[0]] + x;
      ReplaceAllKeepsPrefix(s[1..], target, replacement, n - 1);
      if n <= |r| && forall k :: 0 <= k < n ==> r[k] != replacement[0] {
        forall k | 0 <= k < n - 1 ensures x[k] != replacement[0] {
          assert x[k] == r[k + 1];
        }
        assert r[..n] == [s[0]] + x[..n - 1];
        assert s[..n] == [s[0]] + s[1..][..n - 1];
      }
    } else if n > 0 && |s| >= |target| {
      assert r[..|replacement|] == replacement;
      assert r[0] == replacement[0];
    }
  }

  /** The replacement `jdbc:postgresql://` cannot begin an occurrence of `postgres://` in front of text without one. */
  lemma NoneAfterReplacement(x: string)
    requires !Occurs(x, PostgresPrefix)
    ensures !Occurs(JdbcPostgresqlPrefix + x, PostgresPrefix)
  {
    var r := JdbcPostgresqlPrefix + x;
    forall i | 0 <= i <= |r| - |PostgresPrefix| ensures !OccursAt(r, PostgresPrefix, i) {
      if i >= |JdbcPostgresqlPrefix| {
        var j := i - |JdbcPostgresqlPrefix|;
        assert r[i..i + |PostgresPrefix|] == x[j..j + |PostgresPrefix|];
        assert !OccursAt(x, PostgresPrefix, j);
      } else if i == 5 {
        assert r[i + 8] == 'q';
      } else {
        assert r[i] == JdbcPostgresqlPrefix[i] != 'p';
      }
    }
  }

  /**
   * A copied character cannot begin an occurrence of `postgres://` either:
   * the rewritten rest would then start with `ostgres://`, which it copied
   * from the input, so the input itself started with `postgres://`.
   */
  lemma NoneAfterCopy(s: string)
    requires |s| >= |PostgresPrefix| && s[..|PostgresPrefix|] != PostgresPrefix
    requires !Occurs(ReplaceAll(s[1..], PostgresPrefix, JdbcPostgresqlPrefix), PostgresPrefix)
    ensures !Occurs([s[0]] + ReplaceAll(s[1..], PostgresPrefix, JdbcPostgresqlPrefix), PostgresPrefix)
  {
    var x := ReplaceAll(s[1..], PostgresPrefix, JdbcPostgresqlPrefix);
    var r := [s[0]] + x;
    forall i | 0 <= i <= |r| - |PostgresPrefix| ensures !OccursAt(r, PostgresPrefix, i) {
      if i >= 1 {
        assert r[i..i + |PostgresPrefix|] == x[i - 1..i - 1 + |PostgresPrefix|];
        assert !OccursAt(x, PostgresPrefix, i - 1);
      } else if OccursAt(r, PostgresPrefix, 0) {
        var n := |PostgresPrefix| - 1;
        forall k | 0 <= k < n ensures x[k] == PostgresPrefix[k + 1] && x[k] != JdbcPostgresqlPrefix[0] {
          assert x[k] == r[k + 1];
        }
        ReplaceAllKeepsPrefix(s[1..], PostgresPrefix, JdbcPostgresqlPrefix, n);
        OccurrenceFromCopy(s, x);
        assert false;
      }
    }
  }

  /** An occurrence of the target that starts with a character copied from `s`, and continues in text copied from the rest of `s`, was already in `s`. */
  lemma OccurrenceFromCopy(s: string, x: string)
    requires |s| >= |PostgresPrefix| && |x| >= |PostgresPrefix| - 1
    requires x[..|PostgresPrefix| - 1] == s[1..][..|PostgresPrefix| - 1]
    requires OccursAt([s[0]] + x, PostgresPrefix, 0)
    ensures s[..|PostgresPrefix|] == PostgresPrefix
  {
    var r := [s[0]] + x;
    forall k | 0 <= k < |PostgresPrefix| ensures s[k] == PostgresPrefix[k] {
      if k > 0 {
        assert s[k] == s[1..][..|PostgresPrefix| - 1][k - 1] == x[k - 1] == r[k];
      }
    }
  }

  /**
   * Rewriting `postgres://` to `jdbc:postgresql://` leaves no `postgres://`
   * behind, whatever the input.
   */
  lemma {:induction false} PostgresRewriteLeavesNone(s: string)
    ensures !Occurs(ReplaceAll(s, PostgresPrefix, JdbcPostgresqlPrefix), PostgresPrefix)
    decreases |s|
  {
    if |s| >= |PostgresPrefix| {
      if s[..|PostgresPrefix|] == PostgresPrefix {
        PostgresRewriteLeavesNone(s[|PostgresPrefix|..]);
        NoneAfterReplacement(ReplaceAll(s[|PostgresPrefix|..], PostgresPrefix, JdbcPostgresqlPrefix));
      } else {
        PostgresRewriteLeavesNone(s[1..]);
        NoneAfterCopy(s);
      }
    }
  }

  /**
   * The JDBC URL made from a `postgres://` URL holds no `postgres://` anywhere:
   * every occurrence was rewritten, and the suffix cannot complete a new one.
   */
  lemma PostgresUrlLeavesNone(u: string)
    requires StartsWith(u, PostgresPrefix)
    ensures TransformDatabaseUrl(Some(u)).Success?
    ensures !Occurs(TransformDatabaseUrl(Some(u)).value, PostgresPrefix)
  {
    PrefixesExclusive(u);
    PostgresRewriteLeavesNone(u);
    NoneBeforeSuffix(ReplaceAll(u, PostgresPrefix, JdbcPostgresqlPrefix));
  }

  /** The SSL suffix cannot complete an occurrence of `postgres://`, nor hold one. */
  lemma NoneBeforeSuffix(v: string)
    requires !Occurs(v, PostgresPrefix)
    ensures !Occurs(v + SslSuffix, PostgresPrefix)
  {
    var w := v + SslSuffix;
    forall i | 0 <= i <= |w| - |PostgresPrefix| ensures !OccursAt(w, PostgresPrefix, i) {
      if i + |PostgresPrefix| <= |v| {
        assert w[i..i + |PostgresPrefix|] == v[i..i + |PostgresPrefix|];
        assert !OccursAt(v, PostgresPrefix, i);
      } else if i < |v| {
        assert w[i..i + |PostgresPrefix|][|v| - i] == w[|v|] == '?';
      } else {
        assert w[i] == SslSuffix[i - |v|] != 'p';
      }
    }
  }

  /** The suffix is appended unconditionally, so transforming a result again appends it a second time. */
  lemma TransformNotIdempotent(url: Option<string>, v: string)
    requires TransformDatabaseUrl(url) == Success(v)
    ensures TransformDatabaseUrl(Some(v)) == Success(v + SslSuffix)
    ensures TransformDatabaseUrl(Some(v)) != Success(v)
  {
  }
}
