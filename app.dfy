/**
 * The execution step of main.py: the older inline count-query rewriter
 * (everything from the first whitespace-delimited ORDER BY / LIMIT / OFFSET
 * cut, the final SELECT of a CTE query
 * replaced by `SELECT COUNT(*)`, any other query wrapped), the count read
 * back as the first value of the first row, and the 20000-row gate.
 *
 * Positions found in the upper-cased text slice the original text; that is
 * sound only while upper-casing keeps the length, so the rewriter is
 * modelled on ASCII text.
 */
module App {
  import opened Wrappers
  import opened Json
  import opened Text
  import opened Flexline
  import opened Pages

  const MaxRecords: int := 20000

  const CountSelect: string := "SELECT COUNT(*) "
  const WrapOpen: string := "SELECT COUNT(*) as record_count FROM ("
  const WrapClose: string := ") as subquery"

  // ---------------------------------------------------------------------------
  // The trailing-clause cut: re.sub(r"\s+(ORDER\s+BY|LIMIT|OFFSET)\s+.*$", "", q, re.I | re.S)

  /**
   * Where the keyword starting at `j` ends, if one starts there. The three
   * alternatives begin with different letters (and ORDER / OFFSET differ in
   * the second), so at most one applies. The `\s+` inside `ORDER\s+BY` can
   * only end where the whitespace run ends, since `B` is not whitespace.
   */
  function KeywordEnd(s: string, j: nat): (e: Option<nat>)
    requires j <= |s|
    ensures e.Some? ==> j < e.value <= |s|
  {
    if CiMatchAt(s, j, "LIMIT") then Some(j + 5)
    else if CiMatchAt(s, j, "OFFSET") then Some(j + 6)
    else if CiMatchAt(s, j, "ORDER") then
      var k := SkipSpaces(s, j + 5);
      if k > j + 5 && CiMatchAt(s, k, "BY") then Some(k + 2) else None
    else None
  }

  /**
   * Does the pattern match from `p`? The leading `\s+` must take the whole
   * whitespace run (a keyword starts with a letter), the keyword follows,
   * then at least one whitespace character; `.*$` with DOTALL takes the rest.
   */
  predicate TrailingClauseAt(s: string, p: nat) {
    p < |s| && IsSpace(s[p]) &&
    var e := KeywordEnd(s, SkipSpaces(s, p));
    e.Some? && e.value < |s| && IsSpace(s[e.value])
  }

  /** What `ORDER\s+BY|LIMIT|OFFSET` matches from `j` to `e`. */
  ghost predicate KeywordSpec(s: string, j: nat, e: nat) {
    (CiMatchAt(s, j, "LIMIT") && e == j + 5) ||
    (CiMatchAt(s, j, "OFFSET") && e == j + 6) ||
    (exists k :: j + 5 < k <= |s| && CiMatchAt(s, j, "ORDER") && AllSpaces(s[j + 5..k]) &&
      CiMatchAt(s, k, "BY") && e == k + 2)
  }

  /** What `\s+(ORDER\s+BY|LIMIT|OFFSET)\s+.*$` matches at `p`. */
  ghost predicate TrailingClauseSpec(s: string, p: nat) {
    exists j: nat, e: nat :: p < j <= |s| && AllSpaces(s[p..j]) && KeywordSpec(s, j, e) &&
      e < |s| && IsSpace(s[e])
  }

  lemma TrailingClauseAgreesWithRegex(s: string, p: nat)
    ensures TrailingClauseAt(s, p) <==> TrailingClauseSpec(s, p)
  {
    if TrailingClauseAt(s, p) {
      var j := SkipSpaces(s, p);
      assert AllSpaces(s[p..j]);
      KeywordEndMeetsSpec(s, j);
    }
    if TrailingClauseSpec(s, p) {
      var j: nat, e: nat :| p < j <= |s| && AllSpaces(s[p..j]) && KeywordSpec(s, j, e) &&
        e < |s| && IsSpace(s[e]);
      KeywordSpecStartsWithLetter(s, j, e);
      forall k | p <= k < j ensures IsSpace(s[k]) {
        assert s[p..j][k - p] == s[k];
      }
      SkipSpacesStopsAt(s, p, j);
      KeywordSpecIsKeywordEnd(s, j, e);
    }
  }

  lemma KeywordEndMeetsSpec(s: string, j: nat)
    requires j <= |s| && KeywordEnd(s, j).Some?
    ensures KeywordSpec(s, j, KeywordEnd(s, j).value)
  {
    if !CiMatchAt(s, j, "LIMIT") && !CiMatchAt(s, j, "OFFSET") {
      var k := SkipSpaces(s, j + 5);
      assert AllSpaces(s[j + 5..k]);
    }
  }

  lemma KeywordSpecStartsWithLetter(s: string, j: nat, e: nat)
    requires KeywordSpec(s, j, e)
    ensures j < |s| && !IsSpace(s[j])
  {
    if CiMatchAt(s, j, "LIMIT") {
      CiMatchStartsWithNonSpace(s, j, "LIMIT");
    } else if CiMatchAt(s, j, "OFFSET") {
      CiMatchStartsWithNonSpace(s, j, "OFFSET");
    } else {
      CiMatchStartsWithNonSpace(s, j, "ORDER");
    }
  }

  lemma KeywordSpecIsKeywordEnd(s: string, j: nat, e: nat)
    requires j <= |s| && KeywordSpec(s, j, e)
    ensures KeywordEnd(s, j) == Some(e)
  {
    if CiMatchAt(s, j, "LIMIT") {
      assert Lower(s[j + 0]) == Lower("LIMIT"[0]) == 'l';
      assert !CiMatchAt(s, j, "OFFSET") && !CiMatchAt(s, j, "ORDER") by {
        assert Lower("OFFSET"[0]) == Lower("ORDER"[0]) == 'o';
      }
    } else if CiMatchAt(s, j, "OFFSET") {
      assert Lower(s[j + 1]) == Lower("OFFSET"[1]) == 'f';
      assert !CiMatchAt(s, j, "ORDER") by {
        assert Lower("ORDER"[1]) == 'r';
      }
    } else {
      var k :| j + 5 < k <= |s| && CiMatchAt(s, j, "ORDER") && AllSpaces(s[j + 5..k]) &&
        CiMatchAt(s, k, "BY") && e == k + 2;
      CiMatchStartsWithNonSpace(s, k, "BY");
      forall i | j + 5 <= i < k ensures IsSpace(s[i]) {
        assert s[j + 5..k][i - (j + 5)] == s[i];
      }
      SkipSpacesStopsAt(s, j + 5, k);
    }
  }

  /** The leftmost match at or after `from`. */
  function FindTrailingClause(s: string, from: nat): (r: Option<nat>)
    requires from <= |s|
    ensures r.Some? ==> from <= r.value < |s| && TrailingClauseAt(s, r.value)
    ensures forall k :: from <= k < (if r.Some? then r.value else |s|) ==> !TrailingClauseAt(s, k)
    decreases |s| - from
  {
    if from == |s| then None
    else if TrailingClauseAt(s, from) then Some(from)
    else FindTrailingClause(s, from + 1)
  }

  /**
   * The substitution: everything from the first match on is removed; text
   * without a match is unchanged. The `.*$` reaches the end, so there is never
   * a second match.
   */
  function CutTrailingClauses(s: string): (r: string)
    ensures |r| <= |s| && r == s[..|r|]
    ensures (forall p :: 0 <= p < |s| ==> !TrailingClauseAt(s, p)) ==> r == s
    ensures forall p :: 0 <= p < |s| && TrailingClauseAt(s, p) && (forall k :: 0 <= k < p ==> !TrailingClauseAt(s, k)) ==>
      r == s[..p]
  {
    match FindTrailingClause(s, 0)
    case None => s
    case Some(p) =>
      FirstClauseIsUnique(s, p);
      s[..p]
  }

  lemma FirstClauseIsUnique(s: string, p: nat)
    requires p < |s| && TrailingClauseAt(s, p) && forall k :: 0 <= k < p ==> !TrailingClauseAt(s, k)
    ensures forall p' :: 0 <= p' < |s| && TrailingClauseAt(s, p') && (forall k :: 0 <= k < p' ==> !TrailingClauseAt(s, k)) ==>
      p' == p
  {
  }

  // ---------------------------------------------------------------------------
  // The count query

  lemma AsciiSlice(s: string, i: nat, j: nat)
    requires IsAscii(s) && i <= j <= |s|
    ensures IsAscii(s[i..j])
  {
    assert forall k :: 0 <= k < j - i ==> s[i..j][k] == s[i + k];
  }

  /** The text the count query is built from: trimmed, cut, trimmed again. */
  function CountBase(sql: string): (q: string)
    requires IsAscii(sql)
    ensures IsAscii(q) && |q| <= |sql|
    ensures q == [] || (!IsSpace(q[0]) && !IsSpace(q[|q| - 1]))
  {
    var t := Strip(sql);
    AsciiSlice(sql, SkipSpaces(sql, 0), SkipSpaces(sql, 0) + |t|);
    var c := CutTrailingClauses(t);
    AsciiSlice(t, 0, |c|);
    var q := Strip(c);
    AsciiSlice(c, SkipSpaces(c, 0), SkipSpaces(c, 0) + |q|);
    q
  }

  /**
   * Lines 145-164 on the prepared text `q`: a text whose upper-case form
   * starts with WITH has the column list of its last SELECT replaced, up to
   * the first FROM after it (and is kept as it is when either is missing);
   * any other text is wrapped.
   */
  function CountQueryFor(q: string): string
    requires IsAscii(q)
  {
    var u := UpperString(q);
    if |u| >= 4 && u[..4] == "WITH" then
      var lastSelect := PyRFind(u, "SELECT");
      var fromAfter := PyFind(u, "FROM", lastSelect);
      if lastSelect != -1 && fromAfter != -1 then q[..lastSelect] + CountSelect + q[fromAfter..]
      else q
    else WrapOpen + q + WrapClose
  }

  /** The inline count query of main.py:133-164. */
  function InlineCountQuery(sql: string): string
    requires IsAscii(sql)
  {
    CountQueryFor(CountBase(sql))
  }

  /** `startswith("WITH")` on the upper-cased text is a case-insensitive WITH at 0, word-bounded or not. */
  lemma StartsWithWith(q: string)
    requires IsAscii(q)
    ensures (|UpperString(q)| >= 4 && UpperString(q)[..4] == "WITH") <==> CiMatchAt(q, 0, "WITH")
  {
    UpperMatchIsCaseInsensitive(q, 0, "WITH");
  }

  /** A text not opening with WITH is wrapped whole, verbatim: a `;` in it stays inside the parentheses. */
  lemma NonCteIsWrapped(q: string)
    requires IsAscii(q) && !CiMatchAt(q, 0, "WITH")
    ensures CountQueryFor(q) == WrapOpen + q + WrapClose
  {
    StartsWithWith(q);
  }

  /**
   * A WITH text is rebuilt from three parts: the text before the last SELECT,
   * `SELECT COUNT(*) `, and the text from the first FROM after that SELECT.
   */
  lemma CteFinalSelectReplaced(q: string, lastSelect: nat, fromAfter: nat)
    requires IsAscii(q) && CiMatchAt(q, 0, "WITH")
    requires CiMatchAt(q, lastSelect, "SELECT") && forall k :: lastSelect < k ==> !CiMatchAt(q, k, "SELECT")
    requires lastSelect <= fromAfter && CiMatchAt(q, fromAfter, "FROM")
    requires forall k :: lastSelect <= k < fromAfter ==> !CiMatchAt(q, k, "FROM")
    ensures CountQueryFor(q) == q[..lastSelect] + CountSelect + q[fromAfter..]
  {
    StartsWithWith(q);
    var u := UpperString(q);
    UpperMatchIsCaseInsensitive(q, lastSelect, "SELECT");
    var r := PyRFind(u, "SELECT");
    if r != lastSelect {
      UpperMatchIsCaseInsensitive(q, r, "SELECT");
    }
    UpperMatchIsCaseInsensitive(q, fromAfter, "FROM");
    var f := PyFind(u, "FROM", lastSelect);
    if f != fromAfter {
      UpperMatchIsCaseInsensitive(q, f, "FROM");
    }
  }

  /** A WITH text with no FROM after its last SELECT is left as it is. */
  lemma CteWithoutFromIsKept(q: string, lastSelect: nat)
    requires IsAscii(q) && CiMatchAt(q, 0, "WITH")
    requires CiMatchAt(q, lastSelect, "SELECT") && forall k :: lastSelect < k ==> !CiMatchAt(q, k, "SELECT")
    requires forall k :: lastSelect <= k ==> !CiMatchAt(q, k, "FROM")
    ensures CountQueryFor(q) == q
  {
    StartsWithWith(q);
    var u := UpperString(q);
    UpperMatchIsCaseInsensitive(q, lastSelect, "SELECT");
    var r := PyRFind(u, "SELECT");
    if r != lastSelect {
      UpperMatchIsCaseInsensitive(q, r, "SELECT");
    }
    var f := PyFind(u, "FROM", lastSelect);
    if f != -1 {
      UpperMatchIsCaseInsensitive(q, f, "FROM");
    }
  }

  /** A WITH text with no SELECT at all is left as it is. */
  lemma CteWithoutSelectIsKept(q: string)
    requires IsAscii(q) && CiMatchAt(q, 0, "WITH")
    requires forall k :: !CiMatchAt(q, k, "SELECT")
    ensures CountQueryFor(q) == q
  {
    StartsWithWith(q);
    var u := UpperString(q);
    var r := PyRFind(u, "SELECT");
    if r != -1 {
      UpperMatchIsCaseInsensitive(q, r, "SELECT");
    }
  }

  // ---------------------------------------------------------------------------
  // The count and the gate

  /**
   * `record_count`: the first value of the first row when the result is a
   * non-empty list with a truthy first row, otherwise 0; a truthy first row
   * that is not a dict has no `.values()`, so `AttributeError` escapes.
   */
  function FirstValueCount(countResults: Value): (r: Raises<Value>)
    ensures !(countResults.Arr? && countResults.items != [] && Truthy(countResults.items[0])) ==> r == Returns(Num(0))
    ensures countResults.Arr? && countResults.items != [] && Truthy(countResults.items[0]) ==>
      (if countResults.items[0].Obj?
       then countResults.items[0].fields != [] && r == Returns(countResults.items[0].fields[0].1)
       else r == Escapes(AttributeError))
  {
    if Truthy(countResults) && countResults.Arr? && Truthy(countResults.items[0]) then
      var row := countResults.items[0];
      if row.Obj? then Returns(row.fields[0].1) else Escapes(AttributeError)
    else Returns(Num(0))
  }

  /** The count is read by position, so it does not depend on the alias the count query gives it. */
  lemma CountIsReadByPosition(alias: string, n: int, others: seq<(string, Value)>, rows: seq<Value>)
    ensures FirstValueCount(Arr([Obj([(alias, Num(n))] + others)] + rows)) == Returns(Num(n))
  {
    var row := Obj([(alias, Num(n))] + others);
    assert Arr([row] + rows).items[0] == row;
    assert row.fields[0] == (alias, Num(n));
  }

  /** The execution step: the inline count query, then `sql_query` itself behind a 20000-row gate. */
  method RunQuery(session: SessionState, flex: FlexlineClient, sqlQuery: string)
    requires IsAscii(sqlQuery)
    modifies session, flex
    ensures var g := GateSpec(flex, InlineCountQuery(sqlQuery), FirstValueCount, MaxRecords, sqlQuery,
                              old(flex.replies), old(session.resultsDf));
      session.resultsDf == g.resultsDf && session.notices == old(session.notices) + g.notices &&
      flex.runs == old(flex.runs) + g.runs && flex.sent == old(flex.sent) + g.sent && flex.replies == g.rest
    ensures session.aiResponse == old(session.aiResponse)
  {
    var queryForCount := InlineCountQuery(sqlQuery);
    RunGate(session, flex, queryForCount, FirstValueCount, MaxRecords, sqlQuery);
  }

  /** A count above 20000 never runs the original query and clears the table. */
  lemma AboveMaxIsRefused(flex: FlexlineClient, sql: string, replies: seq<Reply>, resultsDf: Option<seq<Value>>)
    requires IsAscii(sql)
    requires var t1 := flex.RunSpec(InlineCountQuery(sql), replies);
      t1.outcome.Ok? && FirstValueCount(t1.outcome.value).Returns? &&
      FirstValueCount(t1.outcome.value).value.Num? && FirstValueCount(t1.outcome.value).value.n > MaxRecords
    ensures var g := GateSpec(flex, InlineCountQuery(sql), FirstValueCount, MaxRecords, sql, replies, resultsDf);
      g.runs == [InlineCountQuery(sql)] && g.resultsDf.None?
  {
    var t1 := flex.RunSpec(InlineCountQuery(sql), replies);
    DecideIsThreshold(CountOf(t1.outcome, FirstValueCount), MaxRecords);
  }

  /** A count of at most 20000 runs the original, unrewritten `sql_query` exactly once. */
  lemma AtMostMaxRunsOriginal(flex: FlexlineClient, sql: string, replies: seq<Reply>, resultsDf: Option<seq<Value>>)
    requires IsAscii(sql)
    requires var t1 := flex.RunSpec(InlineCountQuery(sql), replies);
      t1.outcome.Ok? && FirstValueCount(t1.outcome.value).Returns? &&
      FirstValueCount(t1.outcome.value).value.Num? && FirstValueCount(t1.outcome.value).value.n <= MaxRecords
    ensures GateSpec(flex, InlineCountQuery(sql), FirstValueCount, MaxRecords, sql, replies, resultsDf).runs ==
      [InlineCountQuery(sql), sql]
  {
    var t1 := flex.RunSpec(InlineCountQuery(sql), replies);
    DecideIsThreshold(CountOf(t1.outcome, FirstValueCount), MaxRecords);
  }
}
