/**
 * Statement formatting (src/firebolt/async_db/_types.py): substituting
 * positional placeholders with SQL literals, and splitting a query into
 * the strings the cursor sends.
 *
 * The SQL tokenizer is external: a statement arrives as its token tree,
 * whose text is the concatenation of its leaves.
 */
module Statements {
  import opened Errors
  import opened Values
  import opened Text
  import opened Types

  /** Whether a leaf token has the placeholder token type (`Name.Placeholder`). */
  datatype TokenKind = Placeholder | OtherKind

  /** A token: a leaf with its text, or a token list with its children. */
  datatype Token = Leaf(kind: TokenKind, text: string) | Group(children: seq<Token>)

  /** `str(token)`: the concatenated text of all leaves. */
  function TokenText(t: Token): string
    decreases t
  {
    match t
    case Leaf(_, s) => s
    case Group(cs) => TokensText(cs)
  }

  function TokensText(cs: seq<Token>): string
    decreases cs
  {
    if cs == [] then "" else TokenText(cs[0]) + TokensText(cs[1..])
  }

  // ---------------------------------------------------------------------
  // Reference definition: the statement as a flat sequence of pieces

  /** A leaf of the flattened statement: a placeholder, or literal text. */
  datatype Piece = Hole | Chunk(text: string)

  /** The leaves of a token tree, depth-first, left to right. */
  function Pieces(t: Token): seq<Piece>
    decreases t
  {
    match t
    case Leaf(Placeholder, _) => [Hole]
    case Leaf(OtherKind, s) => [Chunk(s)]
    case Group(cs) => PiecesOf(cs)
  }

  function PiecesOf(cs: seq<Token>): seq<Piece>
    decreases cs
  {
    if cs == [] then [] else Pieces(cs[0]) + PiecesOf(cs[1..])
  }

  function Holes(ps: seq<Piece>): nat
  {
    if ps == [] then 0 else (if ps[0].Hole? then 1 else 0) + Holes(ps[1..])
  }

  /** The number of placeholders in a statement. */
  function PlaceholderCount(t: Token): nat
  {
    Holes(Pieces(t))
  }

  /** The pieces with the k-th hole replaced by the k-th literal. */
  function Fill(ps: seq<Piece>, lits: seq<string>): string
    requires |lits| == Holes(ps)
  {
    if ps == [] then ""
    else match ps[0]
      case Hole => lits[0] + Fill(ps[1..], lits[1..])
      case Chunk(s) => s + Fill(ps[1..], lits)
  }

  /**
   * `format_value` of each parameter, in order. The substitution consults
   * them one placeholder at a time; they are pure, so computing them up
   * front changes neither the text nor which error is raised first.
   */
  function Formatted(params: seq<Param>): (fs: seq<Result<string>>)
    ensures |fs| == |params|
    ensures forall i | 0 <= i < |params| :: fs[i] == FormatValue(params[i])
  {
    seq(|params|, i requires 0 <= i < |params| => FormatValue(params[i]))
  }

  predicate AllOk(fs: seq<Result<string>>)
  {
    forall i | 0 <= i < |fs| :: fs[i].Ok?
  }

  /** Every parameter can be formatted. */
  predicate AllFormat(params: seq<Param>)
  {
    AllOk(Formatted(params))
  }

  /** The literals, in order. */
  function Literals(fs: seq<Result<string>>): (lits: seq<string>)
    requires AllOk(fs)
    ensures |lits| == |fs|
  {
    seq(|fs|, i requires 0 <= i < |fs| => fs[i].value)
  }

  lemma {:induction false} HolesAppend(a: seq<Piece>, b: seq<Piece>)
    ensures Holes(a + b) == Holes(a) + Holes(b)
  {
    if a == [] {
      assert a + b == b;
    } else {
      HolesAppend(a[1..], b);
      assert (a + b)[1..] == a[1..] + b;
    }
  }

  lemma {:induction false} FillAppend(a: seq<Piece>, b: seq<Piece>, la: seq<string>, lb: seq<string>)
    requires |la| == Holes(a) && |lb| == Holes(b)
    ensures |la + lb| == Holes(a + b)
    ensures Fill(a + b, la + lb) == Fill(a, la) + Fill(b, lb)
  {
    HolesAppend(a, b);
    if a == [] {
      assert a + b == b;
      assert la + lb == lb;
    } else {
      assert (a + b)[1..] == a[1..] + b;
      HolesAppend(a[1..], b);
      match a[0]
      case Hole =>
        assert (la + lb)[1..] == la[1..] + lb;
        FillAppend(a[1..], b, la[1..], lb);
      case Chunk(_) =>
        FillAppend(a[1..], b, la, lb);
    }
  }

  lemma AllOkSplit(fs: seq<Result<string>>, i: nat, j: nat, k: nat)
    requires i <= j <= k <= |fs|
    ensures AllOk(fs[i..k]) <==> AllOk(fs[i..j]) && AllOk(fs[j..k])
    ensures AllOk(fs[i..k]) ==> Literals(fs[i..k]) == Literals(fs[i..j]) + Literals(fs[j..k])
  {
    assert fs[i..k] == fs[i..j] + fs[j..k];
    if AllOk(fs[i..j]) && AllOk(fs[j..k]) {
      forall x | 0 <= x < k - i ensures fs[i..k][x].Ok? {
        if x < j - i { assert fs[i..k][x] == fs[i..j][x]; }
        else { assert fs[i..k][x] == fs[j..k][x - (j - i)]; }
      }
    }
    if AllOk(fs[i..k]) {
      forall x | 0 <= x < j - i ensures fs[i..j][x].Ok? {
        assert fs[i..j][x] == fs[i..k][x];
      }
      forall x | 0 <= x < k - j ensures fs[j..k][x].Ok? {
        assert fs[j..k][x] == fs[i..k][x + (j - i)];
      }
    }
  }

  // ---------------------------------------------------------------------
  // The substitution, with the parameter counter threaded through

  /**
   * `process_token`, given the parameters' `format_value` results `fs`:
   * returns the token's text after substitution and the counter after it. A placeholder with no parameter left raises
   * DataError; one whose parameter cannot be formatted raises that error.
   */
  function ProcessToken(t: Token, fs: seq<Result<string>>, idx: nat): (r: Result<(string, nat)>)
    ensures r.Ok? ==> idx <= r.value.1 && (r.value.1 == idx || r.value.1 <= |fs|)
    ensures r.Err? ==>
      (r.error == DataError(NotEnoughParameters(|fs|)) || exists i | idx <= i < |fs| :: fs[i] == Err(r.error))
    decreases t
  {
    match t
    case Leaf(Placeholder, _) =>
      if idx >= |fs| then Err(DataError(NotEnoughParameters(|fs|)))
      else (match fs[idx] case Ok(lit) => Ok((lit, idx + 1)) case Err(e) => Err(e))
    case Leaf(OtherKind, s) => Ok((s, idx))
    case Group(cs) => ProcessTokens(cs, fs, idx)
  }

  /** The children of a token list, left to right. */
  function ProcessTokens(cs: seq<Token>, fs: seq<Result<string>>, idx: nat): (r: Result<(string, nat)>)
    ensures r.Ok? ==> idx <= r.value.1 && (r.value.1 == idx || r.value.1 <= |fs|)
    ensures r.Err? ==>
      (r.error == DataError(NotEnoughParameters(|fs|)) || exists i | idx <= i < |fs| :: fs[i] == Err(r.error))
    decreases cs
  {
    if cs == [] then Ok(("", idx))
    else match ProcessToken(cs[0], fs, idx)
      case Err(e) => Err(e)
      case Ok((a, mid)) =>
        match ProcessTokens(cs[1..], fs, mid)
        case Err(e) => Err(e)
        case Ok((b, end)) => Ok((a + b, end))
  }

  /** One step of `ProcessTokens`: the head first, then the rest from the head's counter. */
  lemma ProcessTokensStep(cs: seq<Token>, fs: seq<Result<string>>, idx: nat)
    requires cs != []
    ensures var r, r0 := ProcessTokens(cs, fs, idx), ProcessToken(cs[0], fs, idx);
      && (r0.Err? ==> r == Err(r0.error))
      && (r0.Ok? ==> var r1 := ProcessTokens(cs[1..], fs, r0.value.1);
           && (r1.Err? ==> r == Err(r1.error))
           && (r1.Ok? ==> r == Ok((r0.value.0 + r1.value.0, r1.value.1))))
  {
  }

  /**
   * What substituting into the pieces `ps` from counter `idx` must give:
   * success only with one formattable parameter per hole, producing the
   * reference text and the advanced counter.
   */
  ghost predicate SucceedsAsFill(r: Result<(string, nat)>, ps: seq<Piece>, fs: seq<Result<string>>, idx: nat)
  {
    var n := Holes(ps);
    r.Ok? ==> idx + n <= |fs| && AllOk(fs[idx..idx + n])
              && r.value == (Fill(ps, Literals(fs[idx..idx + n])), idx + n)
  }

  /** Enough formattable parameters guarantee success. */
  ghost predicate SucceedsWhenEnough(r: Result<(string, nat)>, ps: seq<Piece>, fs: seq<Result<string>>, idx: nat)
  {
    var n := Holes(ps);
    idx + n <= |fs| && AllOk(fs[idx..idx + n]) ==> r.Ok?
  }

  /** Too few parameters, all formattable, raise "not enough". */
  ghost predicate FailsWhenShort(r: Result<(string, nat)>, ps: seq<Piece>, fs: seq<Result<string>>, idx: nat)
    requires idx <= |fs|
  {
    var n := Holes(ps);
    idx + n > |fs| && AllOk(fs[idx..]) ==> r == Err(DataError(NotEnoughParameters(|fs|)))
  }

  /** A success moves the counter past the pieces' holes. */
  ghost predicate Advances(r: Result<(string, nat)>, ps: seq<Piece>, idx: nat)
  {
    r.Ok? ==> r.value.1 == idx + Holes(ps)
  }

  ghost predicate MeetsFill(r: Result<(string, nat)>, ps: seq<Piece>, fs: seq<Result<string>>, idx: nat)
    requires idx <= |fs|
  {
    SucceedsAsFill(r, ps, fs, idx) && SucceedsWhenEnough(r, ps, fs, idx)
    && FailsWhenShort(r, ps, fs, idx)
  }

  /**
   * The substitution against the flat reference: placeholders take the
   * parameters from `idx` on, one each, depth-first and left to right; it
   * succeeds exactly when there are enough and each formats, and runs out
   * with "not enough" when the parameters that are there all format.
   */
  lemma {:induction false} ProcessTokenMeetsFill(t: Token, fs: seq<Result<string>>, idx: nat)
    requires idx <= |fs|
    ensures MeetsFill(ProcessToken(t, fs, idx), Pieces(t), fs, idx)
    decreases t
  {
    match t
    case Leaf(Placeholder, _) =>
      assert Holes([Hole]) == 1 by { assert [Hole][1..] == []; }
      if idx < |fs| {
        assert fs[idx..idx + 1] == [fs[idx]];
        assert fs[idx..idx + 1][0] == fs[idx];
        if fs[idx].Ok? {
          assert Literals(fs[idx..idx + 1]) == [fs[idx].value];
        }
        assert forall lit :: Fill([Hole], [lit]) == lit by {
          forall lit ensures Fill([Hole], [lit]) == lit {
            assert [Hole][1..] == [] && [lit][1..] == [];
          }
        }
      }
    case Leaf(OtherKind, s) =>
      assert Holes([Chunk(s)]) == 0 by { assert [Chunk(s)][1..] == []; }
      assert Fill([Chunk(s)], []) == s by { assert [Chunk(s)][1..] == []; }
      assert fs[idx..idx] == [];
    case Group(cs) =>
      ProcessTokensMeetsFill(cs, fs, idx);
  }

  lemma {:induction false} ProcessTokensMeetsFill(cs: seq<Token>, fs: seq<Result<string>>, idx: nat)
    requires idx <= |fs|
    ensures MeetsFill(ProcessTokens(cs, fs, idx), PiecesOf(cs), fs, idx)
    decreases cs
  {
    if cs == [] {
      assert fs[idx..idx] == [];
    } else {
      var head, tail := Pieces(cs[0]), PiecesOf(cs[1..]);
      var mid := idx + Holes(head);
      ProcessTokenMeetsFill(cs[0], fs, idx);
      if mid <= |fs| {
        ProcessTokensMeetsFill(cs[1..], fs, mid);
      }
      ProcessTokensStep(cs, fs, idx);
      assert PiecesOf(cs) == head + tail;
      MeetsFillConcat(ProcessTokens(cs, fs, idx), ProcessToken(cs[0], fs, idx),
                      ProcessTokens(cs[1..], fs, mid), head, tail, fs, idx);
    }
  }

  /**
   * `r` runs `r0` and then, from counter `mid`, `r1`: the first failure
   * wins, and two successes concatenate their texts.
   */
  ghost predicate Sequenced(r: Result<(string, nat)>, r0: Result<(string, nat)>, r1: Result<(string, nat)>, mid: nat)
  {
    && (r0.Err? ==> r == Err(r0.error))
    && (r0.Ok? && r0.value.1 == mid ==>
         && (r1.Err? ==> r == Err(r1.error))
         && (r1.Ok? ==> r == Ok((r0.value.0 + r1.value.0, r1.value.1))))
  }

  /** The reference holds for a concatenation when it holds for both parts run in sequence. */
  lemma MeetsFillConcat(r: Result<(string, nat)>, r0: Result<(string, nat)>, r1: Result<(string, nat)>,
                        head: seq<Piece>, tail: seq<Piece>, fs: seq<Result<string>>, idx: nat)
    requires idx <= |fs|
    requires MeetsFill(r0, head, fs, idx) && Advances(r0, head, idx)
    requires var mid := idx + Holes(head); mid <= |fs| ==> MeetsFill(r1, tail, fs, mid)
    requires Sequenced(r, r0, r1, idx + Holes(head))
    ensures MeetsFill(r, head + tail, fs, idx)
  {
    SucceedsConcat(r, r0, r1, head, tail, fs, idx);
    EnoughConcat(r, r0, r1, head, tail, fs, idx);
    ShortConcat(r, r0, r1, head, tail, fs, idx);
  }

  lemma SucceedsConcat(r: Result<(string, nat)>, r0: Result<(string, nat)>, r1: Result<(string, nat)>,
                       head: seq<Piece>, tail: seq<Piece>, fs: seq<Result<string>>, idx: nat)
    requires idx <= |fs|
    requires SucceedsAsFill(r0, head, fs, idx)
    requires var mid := idx + Holes(head); mid <= |fs| ==> SucceedsAsFill(r1, tail, fs, mid)
    requires Sequenced(r, r0, r1, idx + Holes(head))
    ensures SucceedsAsFill(r, head + tail, fs, idx)
  {
    if r.Ok? {
      var mid := idx + Holes(head);
      assert r0.Ok? && r0.value.1 == mid;
      var a := r0.value.0;
      assert AllOk(fs[idx..mid]) && a == Fill(head, Literals(fs[idx..mid]));
      var end := mid + Holes(tail);
      assert r1.Ok? && r == Ok((a + r1.value.0, end));
      FillJoin(head, tail, fs, idx, mid, end, a, r1.value.0);
    }
  }

  /** Two filled neighbours, with their literal ranges adjacent, fill their concatenation. */
  lemma FillJoin(head: seq<Piece>, tail: seq<Piece>, fs: seq<Result<string>>, idx: nat, mid: nat, end: nat,
                 a: string, b: string)
    requires idx <= mid <= end <= |fs| && mid == idx + Holes(head) && end == mid + Holes(tail)
    requires AllOk(fs[idx..mid]) && a == Fill(head, Literals(fs[idx..mid]))
    requires AllOk(fs[mid..end]) && b == Fill(tail, Literals(fs[mid..end]))
    ensures SucceedsAsFill(Ok((a + b, end)), head + tail, fs, idx)
  {
    AllOkSplit(fs, idx, mid, end);
    FillAppend(head, tail, Literals(fs[idx..mid]), Literals(fs[mid..end]));
  }

  lemma EnoughConcat(r: Result<(string, nat)>, r0: Result<(string, nat)>, r1: Result<(string, nat)>,
                     head: seq<Piece>, tail: seq<Piece>, fs: seq<Result<string>>, idx: nat)
    requires idx <= |fs|
    requires SucceedsWhenEnough(r0, head, fs, idx) && Advances(r0, head, idx)
    requires var mid := idx + Holes(head); mid <= |fs| ==> SucceedsWhenEnough(r1, tail, fs, mid)
    requires Sequenced(r, r0, r1, idx + Holes(head))
    ensures SucceedsWhenEnough(r, head + tail, fs, idx)
  {
    var mid := idx + Holes(head);
    var end := mid + Holes(tail);
    HolesAppend(head, tail);
    if end <= |fs| && AllOk(fs[idx..end]) {
      AllOkSplit(fs, idx, mid, end);
    }
  }

  lemma ShortConcat(r: Result<(string, nat)>, r0: Result<(string, nat)>, r1: Result<(string, nat)>,
                    head: seq<Piece>, tail: seq<Piece>, fs: seq<Result<string>>, idx: nat)
    requires idx <= |fs|
    requires SucceedsWhenEnough(r0, head, fs, idx) && Advances(r0, head, idx) && FailsWhenShort(r0, head, fs, idx)
    requires var mid := idx + Holes(head); mid <= |fs| ==> FailsWhenShort(r1, tail, fs, mid)
    requires Sequenced(r, r0, r1, idx + Holes(head))
    ensures FailsWhenShort(r, head + tail, fs, idx)
  {
    var n0 := Holes(head);
    HolesAppend(head, tail);
    if n0 + Holes(tail) > |fs| - idx && AllOk(fs[idx..]) && idx + n0 <= |fs| {
      var mid := idx + n0;
      AllOkSplit(fs, idx, mid, |fs|);
      assert fs[idx..] == fs[idx..|fs|];
      assert fs[mid..] == fs[mid..|fs|];
    }
  }

  /**
   * `format_statement`: substitute every placeholder, then strip trailing
   * semicolons; raises DataError when parameters are left unused.
   */
  function FormatStatement(statement: Token, params: seq<Param>): (r: Result<string>)
    ensures r.Err? ==> r.error.DataError?
    ensures r.Ok? ==> r.value == [] || r.value[|r.value| - 1] != ';'
  {
    match ProcessToken(statement, Formatted(params), 0)
    case Err(e) => Err(e)
    case Ok((text, used)) =>
      if used < |params| then Err(DataError(TooManyParameters(|params|, used)))
      else Ok(RStripSemicolons(text))
  }

  /**
   * A statement formats exactly when there is one formattable parameter
   * per placeholder, into the reference text; too few parameters raise
   * "not enough", too many raise "too many".
   */
  lemma FormatStatementCounts(statement: Token, params: seq<Param>)
    ensures var n := PlaceholderCount(statement); var r := FormatStatement(statement, params);
      && (r.Ok? <==> |params| == n && AllFormat(params))
      && (r.Ok? ==> r.value == RStripSemicolons(Fill(Pieces(statement), Literals(Formatted(params)))))
      && (AllFormat(params) && |params| < n ==> r == Err(DataError(NotEnoughParameters(|params|))))
      && (AllFormat(params) && |params| > n ==> r == Err(DataError(TooManyParameters(|params|, n))))
  {
    var n, fs := PlaceholderCount(statement), Formatted(params);
    ProcessTokenMeetsFill(statement, fs, 0);
    assert MeetsFill(ProcessToken(statement, fs, 0), Pieces(statement), fs, 0);
    assert fs[0..] == fs;
    if n <= |fs| {
      AllOkSplit(fs, 0, n, |fs|);
      assert fs[0..|fs|] == fs;
    }
  }

  lemma {:induction false} FillNoHolesIsText(t: Token)
    requires PlaceholderCount(t) == 0
    ensures Fill(Pieces(t), []) == TokenText(t)
    decreases t
  {
    match t
    case Leaf(_, _) =>
    case Group(cs) => FillNoHolesIsTexts(cs);
  }

  lemma {:induction false} FillNoHolesIsTexts(cs: seq<Token>)
    requires Holes(PiecesOf(cs)) == 0
    ensures Fill(PiecesOf(cs), []) == TokensText(cs)
    decreases cs
  {
    if cs != [] {
      HolesAppend(Pieces(cs[0]), PiecesOf(cs[1..]));
      FillNoHolesIsText(cs[0]);
      FillNoHolesIsTexts(cs[1..]);
      FillAppend(Pieces(cs[0]), PiecesOf(cs[1..]), [], []);
    }
  }

  /** A statement without placeholders and without parameters is its own text. */
  lemma FormatWithoutPlaceholders(statement: Token)
    requires PlaceholderCount(statement) == 0
    ensures FormatStatement(statement, []) == Ok(RStripSemicolons(TokenText(statement)))
  {
    FormatStatementCounts(statement, []);
    FillNoHolesIsText(statement);
  }

  // ---------------------------------------------------------------------
  // Splitting

  /** The results of a list comprehension, in order: all the values, or the first failure. */
  function Collect(fs: seq<Result<string>>): (r: Result<seq<string>>)
    ensures r.Ok? <==> AllOk(fs)
    ensures r.Ok? ==> |r.value| == |fs| && forall i | 0 <= i < |fs| :: fs[i] == Ok(r.value[i])
    ensures r.Err? ==> exists i | 0 <= i < |fs| :: fs[i] == Err(r.error) && AllOk(fs[..i])
  {
    if fs == [] then Ok([])
    else match fs[0]
      case Err(e) =>
        assert fs[..0] == [];
        Err(e)
      case Ok(q) =>
        match Collect(fs[1..])
        case Err(e) =>
          ghost var i :| 0 <= i < |fs[1..]| && fs[1..][i] == Err(e) && AllOk(fs[1..][..i]);
          assert fs[..i + 1] == [fs[0]] + fs[1..][..i];
          Err(e)
        case Ok(qs) => Ok([q] + qs)
  }

  /** `format_statement` applied to each parameter set. */
  function FormatAll(statement: Token, paramSets: seq<seq<Param>>): (fs: seq<Result<string>>)
    ensures |fs| == |paramSets|
    ensures forall i | 0 <= i < |paramSets| :: fs[i] == FormatStatement(statement, paramSets[i])
  {
    seq(|paramSets|, i requires 0 <= i < |paramSets| => FormatStatement(statement, paramSets[i]))
  }

  /** `[format_statement(statement, ps) for ps in param_sets]`: the first failure wins. */
  function FormatEach(statement: Token, paramSets: seq<seq<Param>>): (r: Result<seq<string>>)
    ensures r.Ok? <==> forall i | 0 <= i < |paramSets| :: FormatStatement(statement, paramSets[i]).Ok?
    ensures r.Ok? ==> (|r.value| == |paramSets| &&
      forall i | 0 <= i < |paramSets| :: FormatStatement(statement, paramSets[i]) == Ok(r.value[i]))
    ensures r.Err? ==> exists i | 0 <= i < |paramSets| ::
      FormatStatement(statement, paramSets[i]) == Err(r.error) &&
      forall j | 0 <= j < i :: FormatStatement(statement, paramSets[j]).Ok?
  {
    var fs := FormatAll(statement, paramSets);
    var r := Collect(fs);
    if r.Err? then
      ghost var i :| 0 <= i < |fs| && fs[i] == Err(r.error) && AllOk(fs[..i]);
      assert forall j | 0 <= j < i :: fs[..i][j] == fs[j];
      r
    else r
  }

  /** `str(st).strip().rstrip(";")`. */
  function StatementText(statement: Token): (s: string)
    ensures s <= Strip(TokenText(statement))
    ensures s == [] || s[|s| - 1] != ';'
    ensures forall i | |s| <= i < |Strip(TokenText(statement))| :: Strip(TokenText(statement))[i] == ';'
  {
    RStripSemicolons(Strip(TokenText(statement)))
  }

  /**
   * `split_format_sql`: the strings to send for `query`, whose statements
   * the tokenizer found. No statement: the query itself. Parameter sets
   * with several statements: NotSupportedError. Parameter sets with one
   * statement: one formatted string per set. No parameter sets: one
   * trimmed string per statement.
   */
  function SplitFormatSql(query: string, statements: seq<Token>, paramSets: seq<seq<Param>>)
    : (r: Result<seq<string>>)
    ensures statements == [] ==> r == Ok([query])
    ensures |statements| > 1 && paramSets != [] ==> r == Err(NotSupportedError)
    ensures |statements| == 1 && paramSets != [] ==>
      && (r.Ok? <==> forall i | 0 <= i < |paramSets| :: FormatStatement(statements[0], paramSets[i]).Ok?)
      && (r.Ok? ==> (|r.value| == |paramSets| &&
           forall i | 0 <= i < |paramSets| :: FormatStatement(statements[0], paramSets[i]) == Ok(r.value[i])))
    ensures statements != [] && paramSets == [] ==>
      r.Ok? && |r.value| == |statements| &&
      forall i | 0 <= i < |statements| :: r.value[i] == StatementText(statements[i])
    ensures r.Ok? ==> |r.value| > 0
  {
    if statements == [] then Ok([query])
    else if paramSets != [] then
      if |statements| > 1 then Err(NotSupportedError)
      else FormatEach(statements[0], paramSets)
    else Ok(seq(|statements|, i requires 0 <= i < |statements| => StatementText(statements[i])))
  }
}
