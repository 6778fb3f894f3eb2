/** The SQL statement splitter of the migration manager
    (`splitSqlStatements` in src/infrastructure/database/MigrationManager.ts).

    The text is first cleaned of comments: every `--` up to the end of its line, then
    every block comment (from slash-star to the first star-slash after it). The cleaned
    text is scanned one character at a time; a quote toggles "in string", and outside a string the words `BEGIN` and `END`
    open and close a block. A `;` outside both ends the current statement and is
    dropped; every other character is kept. Each statement is trimmed and blank ones are
    dropped.

    The scan is specified position by position: `Modes(c, n)` is the pair of flags after
    the first `n` characters, a separator is a `;` read with both flags off, and
    `Scanned(c, sep, n)`, over the mask `sep` of separator positions, records the start
    of the open statement and the bounds of the
    statements already closed. */
module SqlSplit {
  import opened Wrappers
  import opened Text

  // ---------------------------------------------------------------- comments

  /** Length of the run before the first line terminator: what `[^\r\n]*` matches. */
  function LineRest(s: string): (k: nat)
    ensures k <= |s|
    ensures forall i :: 0 <= i < k ==> s[i] != '\r' && s[i] != '\n'
    ensures k < |s| ==> s[k] == '\r' || s[k] == '\n'
  {
    if s == [] || s[0] == '\r' || s[0] == '\n' then 0 else 1 + LineRest(s[1..])
  }

  // The replacement of the line-comment pattern: each `--` and the rest of its line are
  // removed; the line terminator stays. No `--` is left in the result.
  function StripLineComments(s: string): (r: string)
    decreases |s|
    ensures |r| <= |s|
    ensures s != [] && !StartsWith(s, "--") ==> r != [] && r[0] == s[0]
    ensures r != [] && r[0] == '-' ==> s != [] && s[0] == '-' && !StartsWith(s, "--")
    ensures forall i :: 0 <= i < |r| - 1 ==> !(r[i] == '-' && r[i + 1] == '-')
  {
    if s == [] then []
    else if StartsWith(s, "--") then
      var rest := s[2..];
      StripLineComments(rest[LineRest(rest)..])
    else
      var tail := StripLineComments(s[1..]);
      assert |s| > 1 ==> s[..2] == [s[0], s[1]];
      assert s[0] == '-' && |s| > 1 ==> !StartsWith(s[1..], "--");
      [s[0]] + tail
  }

  /** No `*` immediately followed by `/` in `s`. */
  predicate NoCloser(s: string) {
    forall i :: 0 <= i < |s| - 1 ==> !(s[i] == '*' && s[i + 1] == '/')
  }

  // Index of the first star-slash in `s`, if any.
  function FindCloser(s: string): (r: Option<nat>)
    ensures r.None? <==> NoCloser(s)
    ensures r.Some? ==> r.value + 2 <= |s| && s[r.value] == '*' && s[r.value + 1] == '/'
                        && NoCloser(s[..r.value + 1])
  {
    if |s| < 2 then None
    else if s[0] == '*' && s[1] == '/' then Some(0)
    else
      match FindCloser(s[1..])
      case None => None
      case Some(k) =>
        assert s[..k + 2] == [s[0]] + s[1..][..k + 1];
        Some(k + 1)
  }

  // The replacement of the block-comment pattern (non-greedy): each slash-star that has a
  // later star-slash is removed up to and including the first such star-slash; a
  // slash-star without one stays.
  function StripBlockComments(s: string): (r: string)
    decreases |s|
    ensures |r| <= |s|
  {
    if s == [] then []
    else if StartsWith(s, "/*") && FindCloser(s[2..]).Some? then
      StripBlockComments(s[2 + FindCloser(s[2..]).value + 2..])
    else [s[0]] + StripBlockComments(s[1..])
  }

  // Text without any star-slash has no complete block comment and is left unchanged.
  lemma {:induction false} NoCloserUnchanged(s: string)
    requires NoCloser(s)
    ensures StripBlockComments(s) == s
  {
    if s != [] {
      assert NoCloser(s[1..]);
      if StartsWith(s, "/*") {
        assert NoCloser(s[2..]);
      }
      NoCloserUnchanged(s[1..]);
    }
  }

  /** The text the splitter scans: line comments removed, then block comments. */
  function Cleaned(sql: string): string {
    StripBlockComments(StripLineComments(sql))
  }

  // ---------------------------------------------------------------- the scan

  /** `cleaned.slice(i, i + |w|) === w`. */
  predicate WordAt(c: string, i: nat, w: string) {
    i + |w| <= |c| && c[i..i + |w|] == w
  }

  datatype Mode = Mode(inString: bool, inBlock: bool)

  /** The flags after reading the first `n` characters of `c`. A quote toggles the string
      flag; outside a string `BEGIN` sets the block flag and `END` clears it. */
  function Modes(c: string, n: nat): Mode
    requires n <= |c|
  {
    if n == 0 then Mode(false, false)
    else
      var m := Modes(c, n - 1);
      var i := n - 1;
      if c[i] == '\'' then Mode(!m.inString, m.inBlock)
      else if m.inString then m
      else if WordAt(c, i, "BEGIN") then Mode(false, true)
      else if WordAt(c, i, "END") then Mode(false, false)
      else m
  }

  /** Position `i` holds a `;` read outside every string and block: it ends a statement. */
  predicate IsSeparator(c: string, i: nat)
    requires i < |c|
  {
    c[i] == ';' && !Modes(c, i + 1).inString && !Modes(c, i + 1).inBlock
  }

  /** Which positions of `c` are separators: the mask the scan reads. */
  function Separators(c: string): (sep: seq<bool>)
    ensures |sep| == |c|
    ensures forall j :: 0 <= j < |c| ==> (sep[j] <==> IsSeparator(c, j))
  {
    seq(|c|, j requires 0 <= j < |c| => IsSeparator(c, j))
  }

  /** Every bound `(a, b)` is a slice `a <= b <= limit`. */
  predicate InRange(bounds: seq<(nat, nat)>, limit: nat) {
    forall k :: 0 <= k < |bounds| ==> bounds[k].0 <= bounds[k].1 <= limit
  }

  /** Every bound ends strictly before `x`. */
  predicate EndsBefore(bounds: seq<(nat, nat)>, x: nat) {
    forall k :: 0 <= k < |bounds| ==> bounds[k].1 < x
  }

  /** Bounds `(a, b)` of pieces of a text of length `limit`, in order, each one ending
      strictly before the next starts. */
  predicate OrderedBounds(bounds: seq<(nat, nat)>, limit: nat) {
    && InRange(bounds, limit)
    && (forall k, l :: 0 <= k < l < |bounds| ==> bounds[k].1 < bounds[l].0)
  }

  lemma InRangeSnoc(bounds: seq<(nat, nat)>, limit: nat, limit': nat, a: nat, b: nat)
    requires InRange(bounds, limit) && limit <= limit' && a <= b <= limit'
    ensures InRange(bounds + [(a, b)], limit')
  {
    var all := bounds + [(a, b)];
    forall k | 0 <= k < |all| ensures all[k].0 <= all[k].1 <= limit' {
      if k < |bounds| {
        assert all[k] == bounds[k];
      }
    }
  }

  lemma OrderedSnoc(bounds: seq<(nat, nat)>, limit: nat, a: nat, b: nat)
    requires OrderedBounds(bounds, limit) && EndsBefore(bounds, a)
    requires limit <= a <= b
    ensures OrderedBounds(bounds + [(a, b)], b)
  {
    var all := bounds + [(a, b)];
    InRangeSnoc(bounds, limit, b, a, b);
    forall k, l | 0 <= k < l < |all| ensures all[k].1 < all[l].0 {
      assert all[k] == bounds[k];
      if l < |bounds| {
        assert all[l] == bounds[l];
      }
    }
  }

  /** The scan after `n` characters: where the open statement starts and the bounds of the
      non-blank statements already closed. */
  datatype Progress = Progress(start: nat, closed: seq<(nat, nat)>)

  /** The scan of `c` after `n` characters, where `sep` marks the separators. */
  function Scanned(c: string, sep: seq<bool>, n: nat): (p: Progress)
    requires n <= |c| == |sep|
    ensures p.start <= n
    ensures InRange(p.closed, p.start)
  {
    if n == 0 then Progress(0, [])
    else
      var p := Scanned(c, sep, n - 1);
      var i := n - 1;
      if sep[i] then
        if AllWhitespace(c[p.start..i]) then Progress(n, p.closed)
        else
          InRangeSnoc(p.closed, p.start, n, p.start, i);
          Progress(n, p.closed + [(p.start, i)])
      else p
  }

  /** The closed statements lie in order, all before the open one. */
  lemma {:induction false} ScannedOrdered(c: string, sep: seq<bool>, n: nat)
    requires n <= |c| == |sep|
    ensures var p := Scanned(c, sep, n);
      OrderedBounds(p.closed, p.start) && EndsBefore(p.closed, p.start)
  {
    if n > 0 {
      ScannedOrdered(c, sep, n - 1);
      var q := Scanned(c, sep, n - 1);
      var i := n - 1;
      if sep[i] && !AllWhitespace(c[q.start..i]) {
        OrderedSnoc(q.closed, q.start, q.start, i);
        assert EndsBefore(q.closed + [(q.start, i)], n) by {
          var all := q.closed + [(q.start, i)];
          forall k | 0 <= k < |all| ensures all[k].1 < n {
            if k < |q.closed| {
              assert all[k] == q.closed[k];
            }
          }
        }
      } else if sep[i] {
        assert EndsBefore(q.closed, n);
      }
    }
  }

  lemma InRangeWeaken(bounds: seq<(nat, nat)>, limit: nat, limit': nat)
    requires InRange(bounds, limit) && limit <= limit'
    ensures InRange(bounds, limit')
  {
  }

  /** The bounds of every statement: the closed ones and the trailing one when it is not
      blank. */
  function StatementBounds(c: string, sep: seq<bool>): (bounds: seq<(nat, nat)>)
    requires |c| == |sep|
    ensures InRange(bounds, |c|)
  {
    var p := Scanned(c, sep, |c|);
    if AllWhitespace(c[p.start..]) then
      InRangeWeaken(p.closed, p.start, |c|);
      p.closed
    else
      InRangeSnoc(p.closed, p.start, |c|, p.start, |c|);
      p.closed + [(p.start, |c|)]
  }

  /** The statement bounds lie in order within the text. */
  lemma BoundsOrdered(c: string, sep: seq<bool>)
    requires |c| == |sep|
    ensures OrderedBounds(StatementBounds(c, sep), |c|)
  {
    ScannedOrdered(c, sep, |c|);
    var p := Scanned(c, sep, |c|);
    if AllWhitespace(c[p.start..]) {
      InRangeWeaken(p.closed, p.start, |c|);
    } else {
      OrderedSnoc(p.closed, p.start, p.start, |c|);
    }
  }

  /** The trimmed text of each piece. */
  function Pieces(c: string, bounds: seq<(nat, nat)>): (r: seq<string>)
    requires InRange(bounds, |c|)
    ensures |r| == |bounds|
  {
    seq(|bounds|, k requires 0 <= k < |bounds| => Trim(c[bounds[k].0..bounds[k].1]))
  }

  /** What `splitSqlStatements` returns for the cleaned text `c`. */
  function SplitCleaned(c: string): seq<string> {
    Pieces(c, StatementBounds(c, Separators(c)))
  }

  /** No separator at any position in `[a, b)`. */
  predicate SeparatorFree(sep: seq<bool>, a: nat, b: nat)
    requires a <= b <= |sep|
  {
    forall j :: a <= j < b ==> !sep[j]
  }

  /** `c[a..b]` is a statement piece: it begins at the start of the text or just after a
      separator, ends at a separator or at the end of the text, holds no separator and is
      not blank. */
  predicate PieceOk(c: string, sep: seq<bool>, a: nat, b: nat)
    requires |c| == |sep|
  {
    && a <= b <= |c|
    && (a == 0 || sep[a - 1])
    && (b == |c| || sep[b])
    && SeparatorFree(sep, a, b)
    && !AllWhitespace(c[a..b])
  }

  /** Every bound in `bounds` is a statement piece. */
  predicate AllPieces(c: string, sep: seq<bool>, bounds: seq<(nat, nat)>)
    requires |c| == |sep|
  {
    forall k :: 0 <= k < |bounds| ==> PieceOk(c, sep, bounds[k].0, bounds[k].1)
  }

  /** Some piece covers position `j`. */
  predicate Covered(bounds: seq<(nat, nat)>, j: nat) {
    exists k :: 0 <= k < |bounds| && bounds[k].0 <= j < bounds[k].1
  }

  /** Every position before `m` that is neither a separator nor whitespace is covered. */
  predicate CoveredUpTo(c: string, sep: seq<bool>, bounds: seq<(nat, nat)>, m: nat)
    requires m <= |c| == |sep|
  {
    forall j :: 0 <= j < m && !sep[j] && !IsWhitespace(c[j]) ==> Covered(bounds, j)
  }

  /** The open statement begins at the start of the text or just after a separator, and
      holds no separator. */
  lemma {:induction false} OpenShape(c: string, sep: seq<bool>, n: nat)
    requires n <= |c| == |sep|
    ensures var p := Scanned(c, sep, n);
      (p.start == 0 || sep[p.start - 1]) && SeparatorFree(sep, p.start, n)
  {
    if n > 0 {
      OpenShape(c, sep, n - 1);
    }
  }

  lemma AllPiecesSnoc(c: string, sep: seq<bool>, bounds: seq<(nat, nat)>, a: nat, b: nat)
    requires |c| == |sep|
    requires AllPieces(c, sep, bounds) && PieceOk(c, sep, a, b)
    ensures AllPieces(c, sep, bounds + [(a, b)])
  {
    var all := bounds + [(a, b)];
    forall k | 0 <= k < |all| ensures PieceOk(c, sep, all[k].0, all[k].1) {
      if k < |bounds| {
        assert all[k] == bounds[k];
      } else {
        assert all[k] == (a, b);
      }
    }
  }

  /** Every closed piece is a statement piece. */
  lemma {:induction false} ClosedShape(c: string, sep: seq<bool>, n: nat)
    requires n <= |c| == |sep|
    ensures AllPieces(c, sep, Scanned(c, sep, n).closed)
  {
    if n > 0 {
      ClosedShape(c, sep, n - 1);
      var q := Scanned(c, sep, n - 1);
      var i := n - 1;
      if sep[i] && !AllWhitespace(c[q.start..i]) {
        OpenShape(c, sep, n - 1);
        assert PieceOk(c, sep, q.start, i);
        AllPiecesSnoc(c, sep, q.closed, q.start, i);
      }
    }
  }

  /** Skipping positions that are separators or whitespace loses nothing. */
  lemma CoverBlank(c: string, sep: seq<bool>, closed: seq<(nat, nat)>, start: nat, e: nat)
    requires start <= e <= |c| == |sep|
    requires CoveredUpTo(c, sep, closed, start)
    requires forall j :: start <= j < e ==> sep[j] || IsWhitespace(c[j])
    ensures CoveredUpTo(c, sep, closed, e)
  {
  }

  /** Adding the piece `[start, b)` and then skipping separators up to `e` loses nothing. */
  lemma CoverPiece(c: string, sep: seq<bool>, closed: seq<(nat, nat)>, start: nat, b: nat, e: nat)
    requires start <= b <= e <= |c| == |sep|
    requires CoveredUpTo(c, sep, closed, start)
    requires forall j :: b <= j < e ==> sep[j]
    ensures CoveredUpTo(c, sep, closed + [(start, b)], e)
  {
    var bounds := closed + [(start, b)];
    forall j | 0 <= j < e && !sep[j] && !IsWhitespace(c[j])
      ensures Covered(bounds, j)
    {
      if j < start {
        var k :| 0 <= k < |closed| && closed[k].0 <= j < closed[k].1;
        assert bounds[k] == closed[k];
      } else {
        assert bounds[|closed|] == (start, b);
      }
    }
  }

  /** Every position of a blank slice `c[a..b]` holds whitespace. */
  lemma BlankSlice(c: string, a: nat, b: nat)
    requires a <= b <= |c| && AllWhitespace(c[a..b])
    ensures forall j :: a <= j < b ==> IsWhitespace(c[j])
  {
    forall j | a <= j < b ensures IsWhitespace(c[j]) {
      assert c[j] == c[a..b][j - a];
    }
  }

  /** Nothing before the open statement is lost but whitespace and separators. */
  lemma {:induction false} CoverShape(c: string, sep: seq<bool>, n: nat)
    requires n <= |c| == |sep|
    ensures var p := Scanned(c, sep, n); CoveredUpTo(c, sep, p.closed, p.start)
  {
    if n > 0 {
      CoverShape(c, sep, n - 1);
      var q := Scanned(c, sep, n - 1);
      var i := n - 1;
      if sep[i] {
        if AllWhitespace(c[q.start..i]) {
          BlankSlice(c, q.start, i);
          CoverBlank(c, sep, q.closed, q.start, i + 1);
        } else {
          CoverPiece(c, sep, q.closed, q.start, i, i + 1);
        }
      }
    }
  }

  /** The statement bounds are statement pieces. */
  lemma BoundsArePieces(c: string, sep: seq<bool>)
    requires |c| == |sep|
    ensures AllPieces(c, sep, StatementBounds(c, sep))
  {
    OpenShape(c, sep, |c|);
    ClosedShape(c, sep, |c|);
    var p := Scanned(c, sep, |c|);
    if !AllWhitespace(c[p.start..]) {
      assert c[p.start..|c|] == c[p.start..];
      assert PieceOk(c, sep, p.start, |c|);
      AllPiecesSnoc(c, sep, p.closed, p.start, |c|);
    }
  }

  /** The statement bounds cover every character but whitespace and separators. */
  lemma BoundsCoverText(c: string, sep: seq<bool>)
    requires |c| == |sep|
    ensures CoveredUpTo(c, sep, StatementBounds(c, sep), |c|)
  {
    CoverShape(c, sep, |c|);
    var p := Scanned(c, sep, |c|);
    if AllWhitespace(c[p.start..]) {
      assert c[p.start..] == c[p.start..|c|];
      BlankSlice(c, p.start, |c|);
      CoverBlank(c, sep, p.closed, p.start, |c|);
    } else {
      CoverPiece(c, sep, p.closed, p.start, |c|, |c|);
    }
  }

  /** The trimmed pieces of statement pieces are non-empty and trimmed. */
  lemma PiecesTrimmed(c: string, sep: seq<bool>, bounds: seq<(nat, nat)>)
    requires |c| == |sep| && InRange(bounds, |c|)
    requires AllPieces(c, sep, bounds)
    ensures forall s :: s in Pieces(c, bounds) ==> s != [] && IsTrimmed(s)
  {
    var r := Pieces(c, bounds);
    forall s | s in r ensures s != [] && IsTrimmed(s) {
      var k :| 0 <= k < |r| && r[k] == s;
      assert PieceOk(c, sep, bounds[k].0, bounds[k].1);
    }
  }

  /** `splitSqlStatements` on cleaned text, fully characterised: the statements are the
      trimmed pieces between separators, in order, each non-empty and trimmed; and every
      character that is neither whitespace nor a separator ends up in some piece, so nothing
      but whitespace, separators and blank pieces is lost. */
  lemma SplitCleanedSpec(c: string)
    ensures var sep := Separators(c);
      var bounds := StatementBounds(c, sep);
      var r := SplitCleaned(c);
      && |r| == |bounds|
      && OrderedBounds(bounds, |c|)
      && (forall k :: 0 <= k < |r| ==> r[k] == Trim(c[bounds[k].0..bounds[k].1]))
      && (forall s :: s in r ==> s != [] && IsTrimmed(s))
      && AllPieces(c, sep, bounds)
      && CoveredUpTo(c, sep, bounds, |c|)
  {
    var sep := Separators(c);
    BoundsOrdered(c, sep);
    BoundsArePieces(c, sep);
    BoundsCoverText(c, sep);
    PiecesTrimmed(c, sep, StatementBounds(c, sep));
  }

  /** Text without any `;` has no separator, so it yields at most one statement. */
  lemma NoSemicolonAtMostOne(c: string)
    requires forall i :: 0 <= i < |c| ==> c[i] != ';'
    ensures |SplitCleaned(c)| <= 1
  {
    NoSeparatorNoneClosed(c, Separators(c), |c|);
  }

  lemma {:induction false} NoSeparatorNoneClosed(c: string, sep: seq<bool>, n: nat)
    requires n <= |c| == |sep|
    requires forall i :: 0 <= i < |sep| ==> !sep[i]
    ensures Scanned(c, sep, n).closed == []
  {
    if n > 0 {
      NoSeparatorNoneClosed(c, sep, n - 1);
    }
  }

  /** One step of the scan: a separator closes the open statement (kept only when it is
      not blank) and opens a new one after it; any other character extends the open one. */
  lemma ScanStep(c: string, sep: seq<bool>, i: nat)
    requires i < |c| == |sep|
    ensures var q := Scanned(c, sep, i); var p := Scanned(c, sep, i + 1);
      if sep[i] then
        && p.start == i + 1
        && Pieces(c, p.closed) == Pieces(c, q.closed) + (if AllWhitespace(c[q.start..i]) then [] else [Trim(c[q.start..i])])
      else p == q
  {
    var q := Scanned(c, sep, i);
    if sep[i] && !AllWhitespace(c[q.start..i]) {
      PiecesAppend(c, q.closed, (q.start, i));
    }
  }

  /** `cleaned.slice(i, i + |w|) === w` with the slice cut at the end of the text. */
  lemma SliceWord(c: string, i: nat, w: string)
    requires i < |c| && |w| >= 2
    ensures var e := if i + |w| <= |c| then i + |w| else |c|;
      (c[i..e] == w <==> WordAt(c, i, w))
    ensures WordAt(c, i, w) ==> i + 1 < |c| && c[i] == w[0] && c[i + 1] == w[1]
  {
    var e := if i + |w| <= |c| then i + |w| else |c|;
    if c[i..e] == w {
      assert |c[i..e]| == |w|;
    }
    if WordAt(c, i, w) {
      assert c[i..i + |w|][0] == c[i] && c[i..i + |w|][1] == c[i + 1];
    }
  }

  /** A blank trailing statement is dropped. */
  lemma LastStatementBlank(c: string, sep: seq<bool>)
    requires |c| == |sep|
    ensures var p := Scanned(c, sep, |c|);
      AllWhitespace(c[p.start..]) ==> StatementBounds(c, sep) == p.closed
  {
  }

  /** A trailing statement that is not blank is added after the scan. */
  lemma LastStatementKept(c: string, sep: seq<bool>)
    requires |c| == |sep|
    ensures var p := Scanned(c, sep, |c|); var rest := c[p.start..];
      !AllWhitespace(rest) ==>
        Pieces(c, StatementBounds(c, sep)) == Pieces(c, p.closed) + [Trim(rest)]
  {
    var p := Scanned(c, sep, |c|);
    var rest := c[p.start..];
    if !AllWhitespace(rest) {
      assert c[p.start..|c|] == rest;
      PiecesAppend(c, p.closed, (p.start, |c|));
    }
  }

  lemma PiecesAppend(c: string, bounds: seq<(nat, nat)>, x: (nat, nat))
    requires x.0 <= x.1 <= |c|
    requires InRange(bounds, |c|)
    ensures InRange(bounds + [x], |c|)
    ensures Pieces(c, bounds + [x]) == Pieces(c, bounds) + [Trim(c[x.0..x.1])]
  {
    var all := bounds + [x];
    InRangeSnoc(bounds, |c|, |c|, x.0, x.1);
    var left := Pieces(c, all);
    var right := Pieces(c, bounds) + [Trim(c[x.0..x.1])];
    forall k | 0 <= k < |left| ensures left[k] == right[k] {
      if k < |bounds| {
        assert all[k] == bounds[k];
      }
    }
  }

  /** Every statement is non-empty and trimmed. */
  lemma StatementsNonEmpty(c: string)
    ensures forall s :: s in SplitCleaned(c) ==> s != [] && IsTrimmed(s)
  {
    SplitCleanedSpec(c);
  }

  lemma SliceExtend(s: string, a: nat, b: nat)
    requires a <= b < |s|
    ensures s[a..b + 1] == s[a..b] + [s[b]]
  {
  }

  /** The flag update of the loop in `splitSqlStatements` for the character at `i`: a
      quote toggles the string flag; outside a string `BEGIN` opens a block and `END`
      closes it. */
  method ReadFlags(cleaned: string, i: nat, inString: bool, inBlock: bool)
    returns (inString': bool, inBlock': bool)
    requires i < |cleaned|
    requires Mode(inString, inBlock) == Modes(cleaned, i)
    ensures Mode(inString', inBlock') == Modes(cleaned, i + 1)
  {
    var ch := cleaned[i];
    var nextChar: Option<char> := if i + 1 < |cleaned| then Some(cleaned[i + 1]) else None;
    var end5 := if i + 5 <= |cleaned| then i + 5 else |cleaned|;
    var end3 := if i + 3 <= |cleaned| then i + 3 else |cleaned|;
    SliceWord(cleaned, i, "BEGIN");
    SliceWord(cleaned, i, "END");
    inString', inBlock' := inString, inBlock;

    if ch == '\'' && !inString {
      inString' := true;
    } else if ch == '\'' && inString {
      inString' := false;
    } else if !inString {
      if ch == 'B' && nextChar == Some('E') && cleaned[i..end5] == "BEGIN" {
        inBlock' := true;
      } else if ch == 'E' && nextChar == Some('N') && cleaned[i..end3] == "END" {
        inBlock' := false;
      }
    }
  }

  /** One iteration of the loop in `splitSqlStatements` keeps the open statement and the
      closed statements equal to the scan's. */
  lemma LoopStep(c: string, sep: seq<bool>, i: nat, current: string, statements: seq<string>)
    requires i < |c| == |sep|
    requires current == c[Scanned(c, sep, i).start..i]
    requires statements == Pieces(c, Scanned(c, sep, i).closed)
    ensures var p := Scanned(c, sep, i + 1);
      if sep[i] then
        && "" == c[p.start..i + 1]
        && (if Trim(current) != [] then statements + [Trim(current)] else statements)
           == Pieces(c, p.closed)
      else
        && current + [c[i]] == c[p.start..i + 1]
        && statements == Pieces(c, p.closed)
  {
    ScanStep(c, sep, i);
    if !sep[i] {
      SliceExtend(c, Scanned(c, sep, i).start, i);
    }
  }

  /** After the loop, adding the trailing statement when it is not blank gives the pieces
      of the statement bounds. */
  lemma LoopEnd(c: string, sep: seq<bool>, current: string, statements: seq<string>)
    requires |c| == |sep|
    requires current == c[Scanned(c, sep, |c|).start..|c|]
    requires statements == Pieces(c, Scanned(c, sep, |c|).closed)
    ensures (if Trim(current) != [] then statements + [Trim(current)] else statements)
            == Pieces(c, StatementBounds(c, sep))
  {
    var p := Scanned(c, sep, |c|);
    assert current == c[p.start..];
    LastStatementKept(c, sep);
    LastStatementBlank(c, sep);
  }

  /** `splitSqlStatements(sql)`. */
  method SplitSqlStatements(sql: string) returns (statements: seq<string>)
    ensures statements == SplitCleaned(Cleaned(sql))
    ensures forall s :: s in statements ==> s != [] && IsTrimmed(s)
  {
    var cleaned := StripBlockComments(StripLineComments(sql));
    ghost var sep := Separators(cleaned);
    statements := [];
    var current := "";
    var inString := false;
    var inBlock := false;

    for i := 0 to |cleaned|
      invariant Mode(inString, inBlock) == Modes(cleaned, i)
      invariant current == cleaned[Scanned(cleaned, sep, i).start..i]
      invariant statements == Pieces(cleaned, Scanned(cleaned, sep, i).closed)
    {
      var ch := cleaned[i];
      inString, inBlock := ReadFlags(cleaned, i, inString, inBlock);
      LoopStep(cleaned, sep, i, current, statements);

      if ch == ';' && !inString && !inBlock {
        if Trim(current) != [] {
          statements := statements + [Trim(current)];
        }
        current := "";
      } else {
        current := current + [ch];
      }
    }

    LoopEnd(cleaned, sep, current, statements);
    if Trim(current) != [] {
      statements := statements + [Trim(current)];
    }
    StatementsNonEmpty(cleaned);
  }
}
