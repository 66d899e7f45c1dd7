/**
 * The count-query rewriter `generate_count_query` of app/flexline/utils.py:
 * a pure text transform that turns a SELECT statement into one that counts
 * its rows, keeping a leading WITH (common table expression) block and
 * dropping everything from the first ORDER BY of the main query on.
 *
 * Each regular expression of the source is a scanning function that finds
 * the leftmost match, next to a ghost predicate that states what the
 * expression matches; lemmas show the two agree.
 */
module CountQuery {
  import opened Wrappers
  import opened Text

  /** The column alias the caller reads the count back under. */
  const TotalRowsAlias: string := "total_rows"
  const WrapHead: string := "SELECT COUNT(*) AS " + TotalRowsAlias + " FROM (\n    "
  const WrapTail: string := "\n) AS subq"

  // ---------------------------------------------------------------------------
  // Step 1: trim, and drop one trailing statement terminator

  /** Strips the statement and removes at most one trailing `;`, nothing else. */
  function CleanUp(original: string): (q: string)
    ensures var t := Strip(original);
      |q| <= |t| && q == t[..|q|] && |t| <= |q| + 1 &&
      (|q| < |t| <==> t != [] && t[|t| - 1] == ';')
  {
    var t := Strip(original);
    if t != [] && t[|t| - 1] == ';' then t[..|t| - 1] else t
  }

  // ---------------------------------------------------------------------------
  // Step 2: the leading WITH block

  /** `re.match(r"^\s*WITH\b", q, re.IGNORECASE)` succeeds. */
  predicate OpensWithWith(q: string) {
    var j := SkipSpaces(q, 0);
    CiMatchAt(q, j, "WITH") && WordBoundary(q, j + 4)
  }

  /** What `^\s*WITH\b` matches: some whitespace, then WITH in any case, then a word boundary. */
  ghost predicate OpensWithWithSpec(q: string) {
    exists j :: 0 <= j <= |q| && AllSpaces(q[..j]) && CiMatchAt(q, j, "WITH") && WordBoundary(q, j + 4)
  }

  lemma OpensWithWithAgreesWithRegex(q: string)
    ensures OpensWithWith(q) <==> OpensWithWithSpec(q)
  {
    var j := SkipSpaces(q, 0);
    if OpensWithWith(q) {
      assert AllSpaces(q[..j]);
    }
    if OpensWithWithSpec(q) {
      var j' :| 0 <= j' <= |q| && AllSpaces(q[..j']) && CiMatchAt(q, j', "WITH") && WordBoundary(q, j' + 4);
      CiMatchStartsWithNonSpace(q, j', "WITH");
      forall k | 0 <= k < j' ensures IsSpace(q[k]) {
        assert q[..j'][k] == q[k];
      }
      SkipSpacesStopsAt(q, 0, j');
    }
  }

  /** `\)\s*SELECT` (ignoring case) matches at position `i`. */
  predicate CteBoundaryAt(q: string, i: nat) {
    i < |q| && q[i] == ')' && CiMatchAt(q, SkipSpaces(q, i + 1), "SELECT")
  }

  /** What `\)\s*SELECT` matches at `i`: a `)`, some whitespace, then SELECT in any case. */
  ghost predicate CteBoundarySpec(q: string, i: nat) {
    exists j :: i < j <= |q| && q[i] == ')' && AllSpaces(q[i + 1..j]) && CiMatchAt(q, j, "SELECT")
  }

  lemma CteBoundaryAgreesWithRegex(q: string, i: nat)
    ensures CteBoundaryAt(q, i) <==> CteBoundarySpec(q, i)
  {
    if CteBoundaryAt(q, i) {
      var j := SkipSpaces(q, i + 1);
      assert AllSpaces(q[i + 1..j]);
    }
    if CteBoundarySpec(q, i) {
      var j :| i < j <= |q| && q[i] == ')' && AllSpaces(q[i + 1..j]) && CiMatchAt(q, j, "SELECT");
      CiMatchStartsWithNonSpace(q, j, "SELECT");
      forall k | i + 1 <= k < j ensures IsSpace(q[k]) {
        assert q[i + 1..j][k - (i + 1)] == q[k];
      }
      SkipSpacesStopsAt(q, i + 1, j);
    }
  }

  /** `re.search(r"\)\s*SELECT", q[from..])`: the leftmost boundary at or after `from`. */
  function FindCteBoundary(q: string, from: nat): (r: Option<nat>)
    requires from <= |q|
    ensures r.Some? ==> from <= r.value < |q| && CteBoundaryAt(q, r.value)
    ensures forall k :: from <= k < (if r.Some? then r.value else |q|) ==> !CteBoundaryAt(q, k)
    decreases |q| - from
  {
    if from == |q| then None
    else if CteBoundaryAt(q, from) then Some(from)
    else FindCteBoundary(q, from + 1)
  }

  /**
   * Where the WITH block ends: only for text that opens with the word WITH,
   * at the first `)` that is followed by optional whitespace and SELECT.
   */
  function CteSplitPoint(q: string): (p: Option<nat>)
    ensures p.Some? ==> OpensWithWith(q) && CteBoundaryAt(q, p.value)
    ensures p.Some? ==> forall k :: 0 <= k < p.value ==> !CteBoundaryAt(q, k)
    ensures p.None? <==> !OpensWithWith(q) || forall k :: 0 <= k < |q| ==> !CteBoundaryAt(q, k)
  {
    if OpensWithWith(q) then FindCteBoundary(q, 0) else None
  }

  /** The WITH block (possibly empty) and the main query it precedes. */
  datatype Split = Split(cte: string, main: string)

  /**
   * Splitting keeps the WITH block as an unchanged prefix up to and including
   * its closing `)`, and the main query is the rest with leading whitespace removed.
   */
  function SplitCte(q: string): (sp: Split)
    ensures sp.cte == [] <==> CteSplitPoint(q).None?
    ensures CteSplitPoint(q).None? ==> sp.main == q
    ensures CteSplitPoint(q).Some? ==>
      var i := CteSplitPoint(q).value;
      sp.cte == q[..i + 1] && sp.cte[i] == ')' && sp.main == LStrip(q[i + 1..])
  {
    match CteSplitPoint(q)
    case None => Split("", q)
    case Some(i) =>
      var block := q[..i + 1];
      assert block[|block| - 1] == ')';
      RStripOfNonSpaceEnd(block);
      Split(RStrip(block), LStrip(q[i + 1..]))
  }

  // ---------------------------------------------------------------------------
  // Step 3: cut from the first ORDER BY to the end

  /** `\bORDER\s+BY\b` (ignoring case) matches at position `p`. */
  predicate OrderByAt(s: string, p: nat) {
    WordBoundary(s, p) && CiMatchAt(s, p, "ORDER") &&
    var j := SkipSpaces(s, p + 5);
    j > p + 5 && CiMatchAt(s, j, "BY") && WordBoundary(s, j + 2)
  }

  /** What `\bORDER\s+BY\b` matches at `p`. */
  ghost predicate OrderBySpec(s: string, p: nat) {
    exists j :: p + 5 < j <= |s| && WordBoundary(s, p) && CiMatchAt(s, p, "ORDER") &&
      AllSpaces(s[p + 5..j]) && CiMatchAt(s, j, "BY") && WordBoundary(s, j + 2)
  }

  lemma OrderByAgreesWithRegex(s: string, p: nat)
    ensures OrderByAt(s, p) <==> OrderBySpec(s, p)
  {
    if OrderByAt(s, p) {
      var j := SkipSpaces(s, p + 5);
      assert AllSpaces(s[p + 5..j]);
    }
    if OrderBySpec(s, p) {
      var j :| p + 5 < j <= |s| && WordBoundary(s, p) && CiMatchAt(s, p, "ORDER") &&
        AllSpaces(s[p + 5..j]) && CiMatchAt(s, j, "BY") && WordBoundary(s, j + 2);
      CiMatchStartsWithNonSpace(s, j, "BY");
      forall k | p + 5 <= k < j ensures IsSpace(s[k]) {
        assert s[p + 5..j][k - (p + 5)] == s[k];
      }
      SkipSpacesStopsAt(s, p + 5, j);
    }
  }

  /** The leftmost `ORDER BY` at or after `from`. */
  function FindOrderBy(s: string, from: nat): (r: Option<nat>)
    requires from <= |s|
    ensures r.Some? ==> from <= r.value < |s| && OrderByAt(s, r.value)
    ensures forall k :: from <= k < (if r.Some? then r.value else |s|) ==> !OrderByAt(s, k)
    decreases |s| - from
  {
    if from == |s| then None
    else if OrderByAt(s, from) then Some(from)
    else FindOrderBy(s, from + 1)
  }

  /**
   * `re.sub(r"\bORDER\s+BY\b[\s\S]*$", "", m, re.I).rstrip()`: everything from
   * the first ORDER BY on is cut and the rest right-stripped; the text before
   * the cut is unchanged.
   */
  function StripOrderBy(m: string): (r: string)
    ensures |r| <= |m| && r == m[..|r|]
    ensures (forall p :: 0 <= p < |m| ==> !OrderByAt(m, p)) ==> r == RStrip(m)
    ensures forall p :: 0 <= p < |m| && OrderByAt(m, p) && (forall k :: 0 <= k < p ==> !OrderByAt(m, k)) ==>
      r == RStrip(m[..p])
  {
    match FindOrderBy(m, 0)
    case None => RStrip(m)
    case Some(p) =>
      PrefixOfPrefix(m, p, RStrip(m[..p]));
      FirstOrderByIsUnique(m, p);
      RStrip(m[..p])
  }

  lemma PrefixOfPrefix(m: string, p: nat, r: string)
    requires p <= |m| && |r| <= p && r == m[..p][..|r|]
    ensures r == m[..|r|]
  {
  }

  /** The first match is the only position that has no match before it. */
  lemma FirstOrderByIsUnique(m: string, p: nat)
    requires p < |m| && OrderByAt(m, p) && forall k :: 0 <= k < p ==> !OrderByAt(m, k)
    ensures forall p' :: 0 <= p' < |m| && OrderByAt(m, p') && (forall k :: 0 <= k < p' ==> !OrderByAt(m, k)) ==>
      p' == p
  {
  }

  // ---------------------------------------------------------------------------
  // Step 4: the wrapped count query

  function Wrap(main: string): string {
    WrapHead + main + WrapTail
  }

  /** `generate_count_query`: total, and its output always ends with `;`. */
  function GenerateCountQuery(original: string): (r: string)
    ensures |r| > 0 && r[|r| - 1] == ';'
  {
    var q := CleanUp(original);
    var sp := SplitCte(q);
    var wrapped := Wrap(StripOrderBy(sp.main));
    if sp.cte != [] then sp.cte + "\n" + wrapped + ";" else wrapped + ";"
  }

  // ---------------------------------------------------------------------------
  // Properties

  /** The line the WITH block contributes: nothing, or the block and a newline. */
  function CteLine(cte: string): string {
    if cte == [] then [] else cte + "\n"
  }

  lemma AssembleParts(cte: string, m: string)
    ensures (if cte != [] then cte + "\n" + Wrap(m) + ";" else Wrap(m) + ";") ==
      CteLine(cte) + WrapHead + m + WrapTail + ";"
  {
  }

  /** The output is the WITH block line, the count wrapper around the main query, and `;`. */
  lemma CountQueryParts(original: string)
    ensures var sp := SplitCte(CleanUp(original));
      GenerateCountQuery(original) == CteLine(sp.cte) + WrapHead + StripOrderBy(sp.main) + WrapTail + ";"
  {
    var sp := SplitCte(CleanUp(original));
    AssembleParts(sp.cte, StripOrderBy(sp.main));
  }

  lemma WrappedStartsWithCount(m: string)
    ensures (WrapHead + m + WrapTail + ";")[..15] == "SELECT COUNT(*)"
  {
    assert WrapHead[..15] == "SELECT COUNT(*)";
  }

  lemma WrappedHasAlias(pre: string, m: string)
    ensures MatchAt(pre + WrapHead + m + WrapTail + ";", |pre| + 7, "COUNT(*) AS " + TotalRowsAlias)
  {
    var r := pre + WrapHead + m + WrapTail + ";";
    assert WrapHead[7..29] == "COUNT(*) AS " + TotalRowsAlias;
    assert r[|pre| + 7..|pre| + 29] == WrapHead[7..29];
  }

  /**
   * Without a WITH block (the text does not open with the word WITH, or no
   * `)` SELECT boundary follows) the output is the wrapped main query alone,
   * so it starts with SELECT COUNT(*).
   */
  lemma NoCteWrapsWholeQuery(original: string)
    requires var q := CleanUp(original);
      !OpensWithWith(q) || forall k :: 0 <= k < |q| ==> !CteBoundaryAt(q, k)
    ensures var r := GenerateCountQuery(original);
      r == WrapHead + StripOrderBy(CleanUp(original)) + WrapTail + ";" &&
      r[..15] == "SELECT COUNT(*)"
  {
    var q := CleanUp(original);
    assert CteSplitPoint(q).None?;
    WrappedStartsWithCount(StripOrderBy(q));
  }

  /** Only the first boundary can be the split point. */
  lemma SplitAtFirstBoundary(q: string, i: nat)
    requires OpensWithWith(q) && CteBoundaryAt(q, i) && forall k :: 0 <= k < i ==> !CteBoundaryAt(q, k)
    ensures CteSplitPoint(q) == Some(i)
  {
  }

  lemma TakeTransfer(t: string, q: string, r: string, n: nat, b: string, c: string, d: string)
    requires |q| <= |t| && q == t[..|q|] && n <= |q|
    requires r == q[..n] + b + c + d
    ensures n <= |r| && r[..n] == t[..n]
  {
    assert r == q[..n] + (b + c + d);
  }

  /**
   * With a WITH block ending at the first boundary `i`, the output is that
   * block, unchanged, a newline, and the wrapped main query; so the output
   * starts with the trimmed input up to and including the `)` that ends the
   * block, and an ORDER BY inside the block is never removed.
   */
  lemma CteBlockKeptVerbatim(original: string, i: nat)
    requires var q := CleanUp(original);
      OpensWithWith(q) && CteBoundaryAt(q, i) && forall k :: 0 <= k < i ==> !CteBoundaryAt(q, k)
    ensures var q := CleanUp(original);
      GenerateCountQuery(original) == q[..i + 1] + "\n" + Wrap(StripOrderBy(LStrip(q[i + 1..]))) + ";"
    ensures i < |Strip(original)| && GenerateCountQuery(original)[..i + 1] == Strip(original)[..i + 1]
  {
    var q := CleanUp(original);
    SplitAtFirstBoundary(q, i);
    var sp := SplitCte(q);
    assert sp.cte == q[..i + 1] && sp.main == LStrip(q[i + 1..]);
    TakeTransfer(Strip(original), q, GenerateCountQuery(original), i + 1, "\n", Wrap(StripOrderBy(sp.main)), ";");
  }

  /**
   * A statement with no WITH block and no ORDER BY is only trimmed of its
   * terminator and trailing whitespace before it is wrapped.
   */
  lemma PlainQueryIsWrappedAsIs(original: string)
    requires var q := CleanUp(original);
      !OpensWithWith(q) && forall p :: 0 <= p < |q| ==> !OrderByAt(q, p)
    ensures GenerateCountQuery(original) == WrapHead + RStrip(CleanUp(original)) + WrapTail + ";"
  {
    assert CteSplitPoint(CleanUp(original)).None?;
  }

  /** The count is always produced under the alias the caller reads. */
  lemma CountUnderTotalRowsAlias(original: string)
    ensures exists k :: MatchAt(GenerateCountQuery(original), k, "COUNT(*) AS " + TotalRowsAlias)
  {
    var sp := SplitCte(CleanUp(original));
    CountQueryParts(original);
    WrappedHasAlias(CteLine(sp.cte), StripOrderBy(sp.main));
  }
}
