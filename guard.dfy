/**
 * The statement guard (`NOT_ALLOWED_TAOS_SQL` and `validate_sql_stmt` in server.py).
 * The statement is trimmed of surrounding whitespace, upper-cased, and rejected when it
 * starts with one of fifteen write or administration keywords. It is a prefix test only:
 * a denied keyword later in the statement goes through, and a longer word that merely
 * begins with a denied keyword (DROPPED) is refused.
 */
module Guard {

  /** Python's `str.isspace()` on ASCII: tab, line feed, vertical tab, form feed,
      carriage return, the four separators 0x1C-0x1F, and space. */
  predicate IsSpace(c: char) {
    (9 <= c as int <= 13) || (28 <= c as int <= 32)
  }

  predicate StartsWith(s: string, prefix: string) {
    |prefix| <= |s| && s[..|prefix|] == prefix
  }

  /** Leading whitespace removed. */
  function TrimStart(s: string): string {
    if |s| > 0 && IsSpace(s[0]) then TrimStart(s[1..]) else s
  }

  /** Trailing whitespace removed. */
  function TrimEnd(s: string): string {
    if |s| > 0 && IsSpace(s[|s| - 1]) then TrimEnd(s[..|s| - 1]) else s
  }

  /** `TrimStart` gives a suffix of `s`, everything it drops is whitespace, and what is
      left does not begin with whitespace. */
  lemma {:induction false} TrimStartSpec(s: string)
    ensures var r := TrimStart(s);
            && |r| <= |s| && r == s[|s| - |r|..]
            && (forall k :: 0 <= k < |s| - |r| ==> IsSpace(s[k]))
            && (r == [] || !IsSpace(r[0]))
    decreases |s|
  {
    if |s| > 0 && IsSpace(s[0]) {
      TrimStartSpec(s[1..]);
    }
  }

  /** `TrimEnd` gives a prefix of `s`, everything it drops is whitespace, and what is left
      does not end with whitespace. */
  lemma {:induction false} TrimEndSpec(s: string)
    ensures var r := TrimEnd(s);
            && |r| <= |s| && r == s[..|r|]
            && (forall k :: |r| <= k < |s| ==> IsSpace(s[k]))
            && (r == [] || !IsSpace(r[|r| - 1]))
    decreases |s|
  {
    if |s| > 0 && IsSpace(s[|s| - 1]) {
      TrimEndSpec(s[..|s| - 1]);
    }
  }

  /** `str.strip()`. */
  function Strip(s: string): string {
    TrimEnd(TrimStart(s))
  }

  /** `Strip` returns the infix of `s` that neither begins nor ends with whitespace, with
      only whitespace around it. */
  lemma StripSpec(s: string)
    ensures var r := Strip(s);
            && (r == [] || (!IsSpace(r[0]) && !IsSpace(r[|r| - 1])))
            && exists i :: Surrounds(s, i, r)
  {
    var t := TrimStart(s);
    var r := TrimEnd(t);
    TrimStartSpec(s);
    TrimEndSpec(t);
    var i := |s| - |t|;
    assert r == s[i..i + |r|] by {
      assert t == s[i..];
      assert r == t[..|r|];
    }
    forall k | i + |r| <= k < |s|
      ensures IsSpace(s[k])
    {
      assert s[k] == t[k - i];
    }
    assert r != [] ==> r[0] == t[0];
    assert Surrounds(s, i, r);
  }

  /** `r` sits at offset `i` of `s` with only whitespace before and after it. */
  predicate Surrounds(s: string, i: int, r: string) {
    && 0 <= i <= |s| - |r|
    && r == s[i..i + |r|]
    && (forall k :: 0 <= k < i ==> IsSpace(s[k]))
    && (forall k :: i + |r| <= k < |s| ==> IsSpace(s[k]))
  }

  /** Upper-casing of one ASCII letter; every other character is left as it is. */
  function UpperChar(c: char): char {
    if 'a' <= c <= 'z' then (c as int - 32) as char else c
  }

  /** `str.upper()` on ASCII. */
  function Upper(s: string): string {
    if s == [] then [] else [UpperChar(s[0])] + Upper(s[1..])
  }

  /** `Upper` keeps the length and upper-cases each character in place. */
  lemma {:induction false} UpperSpec(s: string)
    ensures |Upper(s)| == |s|
    ensures forall k :: 0 <= k < |s| ==> Upper(s)[k] == UpperChar(s[k])
    decreases |s|
  {
    if s != [] {
      UpperSpec(s[1..]);
      forall k | 0 < k < |s|
        ensures Upper(s)[k] == UpperChar(s[k])
      {
        assert Upper(s)[k] == Upper(s[1..])[k - 1];
      }
    }
  }

  /** The deny-list, in the source's order. */
  const NotAllowedTaosSql: seq<string> := [
    "ALTER", "CREATE", "DELETE", "DROP", "INSERT", "UPDATE", "TRIM", "FLUSH",
    "BALANCE", "REDISTRIBUTE", "GRANT", "REVOKE", "RESET", "KILL", "COMPACT"
  ]

  const SecurityMessage: string :=
    "Security restrictions: Only read-only statements such as queries are allowed to be executed. All other operations are prohibited."

  /** `str.startswith(tuple)`: tries each prefix in turn; true exactly when one of them is a prefix. */
  predicate StartsWithAny(s: string, prefixes: seq<string>)
    ensures StartsWithAny(s, prefixes) <==> exists i :: 0 <= i < |prefixes| && StartsWith(s, prefixes[i])
  {
    |prefixes| > 0 && (StartsWith(s, prefixes[0]) || StartsWithAny(s, prefixes[1..]))
  }

  datatype Verdict = Pass | Reject(message: string)

  /** The keyword test itself: the normalised statement begins with a denied keyword. */
  predicate Denied(sql: string) {
    exists k :: k in NotAllowedTaosSql && StartsWith(Upper(Strip(sql)), k)
  }

  /** `validate_sql_stmt`: rejects, with the fixed security message, exactly the statements
      whose stripped and upper-cased text begins with a denied keyword. */
  function ValidateSqlStmt(sql: string): (v: Verdict)
    ensures v.Reject? <==> Denied(sql)
    ensures v.Reject? ==> v.message == SecurityMessage
  {
    var u := Upper(Strip(sql));
    assert StartsWithAny(u, NotAllowedTaosSql) <==> Denied(sql) by {
      if StartsWithAny(u, NotAllowedTaosSql) {
        var i :| 0 <= i < |NotAllowedTaosSql| && StartsWith(u, NotAllowedTaosSql[i]);
        assert NotAllowedTaosSql[i] in NotAllowedTaosSql;
      }
    }
    if StartsWithAny(u, NotAllowedTaosSql) then Reject(SecurityMessage) else Pass
  }

  /** Leading whitespace never changes what `strip()` returns. */
  lemma {:induction false} TrimStartSkipsSpace(ws: string, rest: string)
    requires forall k :: 0 <= k < |ws| ==> IsSpace(ws[k])
    ensures TrimStart(ws + rest) == TrimStart(rest)
  {
    if ws == [] {
      assert ws + rest == rest;
    } else {
      assert IsSpace((ws + rest)[0]);
      assert (ws + rest)[1..] == ws[1..] + rest;
      TrimStartSkipsSpace(ws[1..], rest);
    }
  }

  /** A statement that begins with a word neither starting nor ending in whitespace
      still begins with that word once stripped. */
  lemma StripKeepsLead(s: string, p: string)
    requires StartsWith(s, p) && p != []
    requires !IsSpace(p[0]) && !IsSpace(p[|p| - 1])
    ensures StartsWith(Strip(s), p)
  {
    assert s[0] == p[0] && s[|p| - 1] == p[|p| - 1];
    var t := TrimStart(s);
    assert |t| == |s|;
    var r := TrimEnd(t);
    TrimEndSpec(t);
    assert |r| >= |p|;
    assert r[..|p|] == s[..|p|];
  }

  /** Upper-casing commutes with taking a prefix. */
  lemma UpperKeepsPrefix(s: string, p: string)
    requires StartsWith(s, p)
    ensures StartsWith(Upper(s), Upper(p))
  {
    UpperSpec(s);
    UpperSpec(p);
    assert Upper(s)[..|p|] == Upper(p);
  }

  /** The first three letters of SELECT, SHOW, DESCRIBE and USE. */
  predicate ReadOnlyLead(a: char, b: char, c: char) {
    || (a == 'S' && b == 'E' && c == 'L')
    || (a == 'S' && b == 'H' && c == 'O')
    || (a == 'D' && b == 'E' && c == 'S')
    || (a == 'U' && b == 'S' && c == 'E')
  }

  /** A statement led by one of the four read-only verbs. */
  predicate ReadOnly(s: string) {
    |s| >= 3 && ReadOnlyLead(s[0], s[1], s[2])
  }

  /** No denied keyword begins with SEL, SHO, DES or USE. */
  lemma NoKeywordLeadsLike(u: string)
    requires |u| >= 3 && ReadOnlyLead(u[0], u[1], u[2])
    ensures forall i :: 0 <= i < |NotAllowedTaosSql| ==> !StartsWith(u, NotAllowedTaosSql[i])
  {
    forall i | 0 <= i < |NotAllowedTaosSql|
      ensures !StartsWith(u, NotAllowedTaosSql[i])
    {
      var k := NotAllowedTaosSql[i];
      assert |k| >= 3 && !ReadOnlyLead(k[0], k[1], k[2]);
      if |k| <= |u| {
        assert u[..|k|][0] == u[0] && u[..|k|][1] == u[1] && u[..|k|][2] == u[2];
      }
    }
  }

  /** Every statement the tools build begins with SELECT, SHOW, DESCRIBE or USE; none of
      the denied keywords shares a prefix with these, so such statements always pass,
      whatever identifiers and literals follow. */
  lemma ReadOnlyLeadPasses(s: string)
    requires ReadOnly(s)
    ensures ValidateSqlStmt(s).Pass?
  {
    var p := s[..3];
    StripKeepsLead(s, p);
    UpperKeepsPrefix(Strip(s), p);
    var u := Upper(Strip(s));
    UpperSpec(Strip(s));
    UpperSpec(p);
    assert u[..3] == Upper(p);
    assert u[0] == UpperChar(p[0]) == s[0];
    assert u[1] == UpperChar(p[1]) == s[1];
    assert u[2] == UpperChar(p[2]) == s[2];
    NoKeywordLeadsLike(u);
    assert !Denied(s) by {
      forall k | k in NotAllowedTaosSql
        ensures !StartsWith(u, k)
      {
        var i :| 0 <= i < |NotAllowedTaosSql| && NotAllowedTaosSql[i] == k;
      }
    }
  }

  /** The documented weakness: a SELECT passes whatever follows it, a denied keyword,
      a second statement after a semicolon, or a subquery included. */
  lemma SelectPassesWhateverFollows(tail: string)
    ensures ValidateSqlStmt("SELECT" + tail).Pass?
  {
    ReadOnlyLeadPasses("SELECT" + tail);
  }

  /** Every denied keyword is a non-empty run of capital letters. */
  lemma KeywordsAreCapitals(k: string)
    requires k in NotAllowedTaosSql
    ensures k != [] && 'A' <= k[0] <= 'Z' && 'A' <= k[|k| - 1] <= 'Z'
  {
  }

  /** A statement is refused when, after leading whitespace, its first letters spell a
      denied keyword in any letter case, even inside a longer word such as DROPPED. */
  lemma KeywordPrefixRejected(ws: string, word: string, tail: string)
    requires forall k :: 0 <= k < |ws| ==> IsSpace(ws[k])
    requires Upper(word) in NotAllowedTaosSql
    ensures ValidateSqlStmt(ws + word + tail).Reject?
  {
    var k := Upper(word);
    UpperSpec(word);
    KeywordsAreCapitals(k);
    assert k[0] == UpperChar(word[0]) && k[|k| - 1] == UpperChar(word[|word| - 1]);
    assert !IsSpace(word[0]) && !IsSpace(word[|word| - 1]);
    assert ws + word + tail == ws + (word + tail);
    TrimStartSkipsSpace(ws, word + tail);
    assert Strip(ws + word + tail) == Strip(word + tail);
    StripKeepsLead(word + tail, word);
    UpperKeepsPrefix(Strip(word + tail), word);
    assert StartsWith(Upper(Strip(ws + word + tail)), k);
  }

  /** A lower-case DELETE behind leading spaces is refused. */
  lemma LowerCaseDeleteRejected()
    ensures ValidateSqlStmt("  delete from t;").Reject?
  {
    assert Upper("delete") == "DELETE";
    assert "  delete from t;" == "  " + "delete" + " from t;";
    KeywordPrefixRejected("  ", "delete", " from t;");
  }

  /** A word that only begins with a denied keyword is refused too. */
  lemma DroppedRejected()
    ensures ValidateSqlStmt("DROPPED").Reject?
  {
    assert Upper("DROP") == "DROP";
    assert "DROPPED" == "" + "DROP" + "PED";
    KeywordPrefixRejected("", "DROP", "PED");
  }
}
