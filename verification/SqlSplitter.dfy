/** The statement splitter `_execute` of the migration scripts.

    A script is split at every `$$`; the odd parts are dollar-quoted bodies and are kept whole, the
    even parts are split at every `;`.  The result is compared with a scanner that reads the text
    once, toggles at each `$$` and cuts at each `;` outside quotes. */
module SqlSplitter {

  const MARK := "$$"

  predicate StartsWithMark(s: string) {
    |s| >= 2 && s[..2] == MARK
  }

  /** `sql.split("$$")`: leftmost, non-overlapping. */
  function SplitMarks(s: string): (parts: seq<string>)
    ensures |parts| > 0
  {
    if s == [] then [""]
    else if StartsWithMark(s) then [""] + SplitMarks(s[2..])
    else
      var rest := SplitMarks(s[1..]);
      [[s[0]] + rest[0]] + rest[1..]
  }

  /** `part.split(";")`. */
  function SplitSemicolons(s: string): (parts: seq<string>)
    ensures |parts| > 0
  {
    if s == [] then [""]
    else
      var rest := SplitSemicolons(s[1..]);
      if s[0] == ';' then [""] + rest else [[s[0]] + rest[0]] + rest[1..]
  }

  /** The number of `$$` in a script. */
  function Marks(s: string): nat {
    |SplitMarks(s)| - 1
  }

  predicate Balanced(s: string) {
    Marks(s) % 2 == 0
  }

  /** The white space that `str.strip` removes. */
  predicate IsSpace(c: char) {
    var code := c as int;
    || 0x09 <= code <= 0x0D || 0x1C <= code <= 0x20 || code == 0x85 || code == 0xA0
    || code == 0x1680 || 0x2000 <= code <= 0x200A || code == 0x2028 || code == 0x2029
    || code == 0x202F || code == 0x205F || code == 0x3000
  }

  /** The test `if pending.strip()`. */
  predicate HasText(s: string) {
    exists i :: 0 <= i < |s| && !IsSpace(s[i])
  }

  /** `pending.replace(":", r"\:")`. */
  function EscapeColons(s: string): string {
    if s == [] then ""
    else (if s[0] == ':' then "\\:" else [s[0]]) + EscapeColons(s[1..])
  }

  /** What is sent to the database for a list of pieces: blank pieces are skipped. */
  function Executed(pieces: seq<string>): seq<string> {
    if pieces == [] then []
    else (if HasText(pieces[0]) then [EscapeColons(pieces[0])] else []) + Executed(pieces[1..])
  }

  /** The reference: one pass over the text. */
  function Scan(s: string, quoted: bool, current: string): (pieces: seq<string>)
    ensures |pieces| > 0
    decreases |s|
  {
    if s == [] then [current]
    else if StartsWithMark(s) then Scan(s[2..], !quoted, current + MARK)
    else if s[0] == ';' && !quoted then [current] + Scan(s[1..], false, "")
    else Scan(s[1..], quoted, current + [s[0]])
  }

  /** The pieces that the loop of `_execute` forms from the remaining parts. */
  function Pieces(parts: seq<string>, quoted: bool, pending: string): (pieces: seq<string>)
    ensures |pieces| > 0
    decreases |parts|, 0
  {
    if parts == [] then [pending]
    else if quoted then Pieces(parts[1..], false, pending + MARK + parts[0] + MARK)
    else Cut(SplitSemicolons(parts[0]), parts[1..], pending)
  }

  function Cut(statements: seq<string>, rest: seq<string>, pending: string): (pieces: seq<string>)
    requires |statements| > 0
    ensures |pieces| > 0
    decreases |rest|, |statements| + 1
  {
    if |statements| == 1 then Pieces(rest, true, pending + statements[0])
    else [pending + statements[0]] + Cut(statements[1..], rest, "")
  }

  function ScriptPieces(sql: string): seq<string> {
    Pieces(SplitMarks(sql), false, "")
  }

  /** Text pending from earlier parts joins the first statement of a part. */
  lemma CutTakesPending(statements: seq<string>, rest: seq<string>, pending: string)
    requires |statements| > 0
    ensures Cut(statements, rest, pending) == Cut([pending + statements[0]] + statements[1..], rest, "")
  {
    var joined := [pending + statements[0]] + statements[1..];
    assert joined[1..] == statements[1..];
    assert "" + joined[0] == joined[0];
  }

  function Sent(pending: string): seq<string> {
    if HasText(pending) then [EscapeColons(pending)] else []
  }

  /** Sending the pending text takes one piece off the front of what is still to come. */
  lemma SendPending(sent: seq<string>, pending: string, statements: seq<string>, rest: seq<string>)
    requires |statements| > 0
    ensures sent + Executed(Cut([pending] + statements, rest, ""))
            == sent + Sent(pending) + Executed(Cut(statements, rest, ""))
  {
    assert ([pending] + statements)[1..] == statements;
    assert "" + pending == pending;
    assert ([pending] + Cut(statements, rest, ""))[1..] == Cut(statements, rest, "");
  }

  /** The statements of one even part: all but the last are sent, the last stays pending. */
  method SendStatements(statements: seq<string>, rest: seq<string>, already: seq<string>, text: string)
    returns (sent: seq<string>, pending: string)
    requires |statements| > 0
    ensures sent + Executed(Pieces(rest, true, pending)) == already + Executed(Cut(statements, rest, text))
  {
    sent := already;
    CutTakesPending(statements, rest, text);
    pending := text + statements[0];
    var k := 1;
    while k < |statements|
      invariant 1 <= k <= |statements|
      invariant sent + Executed(Cut([pending] + statements[k..], rest, "")) == already + Executed(Cut(statements, rest, text))
    {
      SendPending(sent, pending, statements[k..], rest);
      assert statements[k..] == [statements[k]] + statements[k + 1..];
      if HasText(pending) {
        sent := sent + [EscapeColons(pending)];
      }
      pending := statements[k];
      k := k + 1;
    }
    assert [pending] + statements[k..] == [pending];
    assert "" + pending == pending;
  }

  /** What the loop still sends from a part on. */
  function Rest(parts: seq<string>, index: nat, pending: string): seq<string>
    requires index <= |parts|
  {
    Executed(Pieces(parts[index..], index % 2 == 1, pending))
  }

  lemma RestAtQuoted(parts: seq<string>, index: nat, pending: string)
    requires index < |parts| && index % 2 == 1
    ensures Rest(parts, index, pending) == Rest(parts, index + 1, pending + MARK + parts[index] + MARK)
  {
    assert parts[index..][1..] == parts[index + 1..];
  }

  lemma RestAtPlain(parts: seq<string>, index: nat, pending: string)
    requires index < |parts| && index % 2 == 0
    ensures Rest(parts, index, pending) == Executed(Cut(SplitSemicolons(parts[index]), parts[index + 1..], pending))
  {
    assert parts[index..][1..] == parts[index + 1..];
  }

  lemma RestAtEnd(parts: seq<string>, pending: string)
    ensures Rest(parts, |parts|, pending) == Sent(pending)
  {
    assert parts[|parts|..] == [];
    assert Pieces([], |parts| % 2 == 1, pending) == [pending] && [pending][1..] == [];
    assert Executed([pending]) == Sent(pending) + Executed([]);
  }

  lemma RestAtStart(sql: string)
    ensures Rest(SplitMarks(sql), 0, "") == Executed(ScriptPieces(sql))
    ensures Balanced(sql) ==> Executed(ScriptPieces(sql)) == Executed(Scan(sql, false, ""))
  {
    assert SplitMarks(sql)[0..] == SplitMarks(sql);
    if Balanced(sql) {
      BalancedPiecesAreScan(sql, "");
    }
  }

  /** `_execute`, with the statements it sends in order. */
  method Execute(sql: string) returns (sent: seq<string>)
    ensures sent == Executed(ScriptPieces(sql))
    ensures Balanced(sql) ==> sent == Executed(Scan(sql, false, ""))
  {
    sent := [];
    var pending := "";
    var parts := SplitMarks(sql);
    var index := 0;
    ghost var all := Rest(parts, 0, "");
    while index < |parts|
      invariant 0 <= index <= |parts|
      invariant sent + Rest(parts, index, pending) == all
    {
      if index % 2 == 1 {
        RestAtQuoted(parts, index, pending);
        pending := pending + MARK + parts[index] + MARK;
      } else {
        RestAtPlain(parts, index, pending);
        sent, pending := SendStatements(SplitSemicolons(parts[index]), parts[index + 1..], sent, pending);
      }
      index := index + 1;
    }
    RestAtEnd(parts, pending);
    if HasText(pending) {
      sent := sent + [EscapeColons(pending)];
    }
    RestAtStart(sql);
  }

  /** A leading `;` ends the piece begun so far. */
  lemma PiecesAtSemicolon(tail: string, rest: seq<string>, pending: string)
    ensures Pieces([";" + tail] + rest, false, pending) == [pending] + Pieces([tail] + rest, false, "")
  {
    assert (";" + tail)[1..] == tail;
    assert pending + "" == pending;
    assert ([tail] + rest)[1..] == rest == ([";" + tail] + rest)[1..];
  }

  /** Any other leading character joins the piece begun so far. */
  lemma PiecesAtCharacter(c: char, tail: string, rest: seq<string>, pending: string)
    requires c != ';'
    ensures Pieces([[c] + tail] + rest, false, pending) == Pieces([tail] + rest, false, pending + [c])
  {
    assert ([c] + tail)[1..] == tail;
    var t := SplitSemicolons(tail);
    assert pending + ([c] + t[0]) == (pending + [c]) + t[0];
    assert ([tail] + rest)[1..] == rest == ([[c] + tail] + rest)[1..];
  }

  function ExtendLast(pieces: seq<string>, suffix: string): (r: seq<string>)
    requires pieces != []
    ensures |r| == |pieces| && r[|r| - 1] == pieces[|r| - 1] + suffix
  {
    if |pieces| == 1 then [pieces[0] + suffix] else [pieces[0]] + ExtendLast(pieces[1..], suffix)
  }

  /** The scanner's pieces, of which the last gains a `$$` when the text ends inside quotes. */
  ghost function Closed(s: string, quoted: bool, current: string): (pieces: seq<string>)
    ensures pieces != []
  {
    if Balanced(s) == quoted then ExtendLast(Scan(s, quoted, current), MARK) else Scan(s, quoted, current)
  }

  lemma MarksAtMark(s: string)
    requires StartsWithMark(s)
    ensures Marks(s) == Marks(s[2..]) + 1
  {
  }

  lemma ClosedAtMark(s: string, quoted: bool, current: string)
    requires StartsWithMark(s)
    ensures Closed(s, quoted, current) == Closed(s[2..], !quoted, current + MARK)
  {
    MarksAtMark(s);
    assert Scan(s, quoted, current) == Scan(s[2..], !quoted, current + MARK);
  }

  lemma ExtendLastOn(first: string, rest: seq<string>, suffix: string)
    requires rest != []
    ensures ExtendLast([first] + rest, suffix) == [first] + ExtendLast(rest, suffix)
  {
    assert ([first] + rest)[1..] == rest;
  }

  /** A character that is no mark leaves the number of marks. */
  lemma MarksAtCharacter(s: string)
    requires s != [] && !StartsWithMark(s)
    ensures Marks(s) == Marks(s[1..])
  {
  }

  lemma ClosedAtSemicolon(s: string, current: string)
    requires s != [] && s[0] == ';'
    ensures Closed(s, false, current) == [current] + Closed(s[1..], false, "")
  {
    MarksAtCharacter(s);
    ExtendLastOn(current, Scan(s[1..], false, ""), MARK);
  }

  lemma ClosedAtCharacter(s: string, quoted: bool, current: string)
    requires s != [] && !StartsWithMark(s) && (s[0] != ';' || quoted)
    ensures Closed(s, quoted, current) == Closed(s[1..], quoted, current + [s[0]])
  {
    MarksAtCharacter(s);
  }

  /** A part without text opens a quoted body at once. */
  lemma PiecesAtMark(rest: seq<string>, current: string)
    requires rest != []
    ensures Pieces([""] + rest, false, current) == Pieces(rest[1..], false, current + MARK + rest[0] + MARK)
  {
    assert ([""] + rest)[1..] == rest;
    assert SplitSemicolons("") == [""];
    assert current + "" == current;
    assert Pieces([""] + rest, false, current) == Cut([""], rest, current) == Pieces(rest, true, current);
  }

  /** Outside quotes the loop forms the pieces of the scanner. */
  lemma {:induction false} UnquotedPieces(s: string, current: string)
    ensures Pieces(SplitMarks(s), false, current) == Closed(s, false, current)
    decreases |s|
  {
    if s == [] {
      assert current + "" == current;
    } else if StartsWithMark(s) {
      PiecesAtMark(SplitMarks(s[2..]), current);
      QuotedPieces(s[2..], current + MARK);
      ClosedAtMark(s, false, current);
    } else {
      var rest := SplitMarks(s[1..]);
      assert rest == [rest[0]] + rest[1..];
      assert SplitMarks(s) == [[s[0]] + rest[0]] + rest[1..];
      if s[0] == ';' {
        PiecesAtSemicolon(rest[0], rest[1..], current);
        UnquotedPieces(s[1..], "");
        ClosedAtSemicolon(s, current);
      } else {
        PiecesAtCharacter(s[0], rest[0], rest[1..], current);
        UnquotedPieces(s[1..], current + [s[0]]);
        ClosedAtCharacter(s, false, current);
      }
    }
  }

  /** Inside quotes everything up to the next `$$` is kept whole. */
  lemma {:induction false} QuotedPieces(s: string, current: string)
    ensures Pieces(SplitMarks(s)[1..], false, current + SplitMarks(s)[0] + MARK) == Closed(s, true, current)
    decreases |s|
  {
    var parts := SplitMarks(s);
    if s == [] {
      assert current + "" + MARK == current + MARK;
    } else if StartsWithMark(s) {
      assert parts[1..] == SplitMarks(s[2..]);
      assert current + "" + MARK == current + MARK;
      UnquotedPieces(s[2..], current + MARK);
      ClosedAtMark(s, true, current);
    } else {
      var rest := SplitMarks(s[1..]);
      assert parts[0] == [s[0]] + rest[0] && parts[1..] == rest[1..];
      QuotedPieces(s[1..], current + [s[0]]);
      assert (current + [s[0]]) + rest[0] + MARK == current + parts[0] + MARK;
      ClosedAtCharacter(s, true, current);
    }
  }

  lemma BalancedPiecesAreScan(sql: string, current: string)
    requires Balanced(sql)
    ensures Pieces(SplitMarks(sql), false, current) == Scan(sql, false, current)
  {
    UnquotedPieces(sql, current);
  }

  /** Splitting agrees with the scanner exactly for scripts whose `$$` are balanced. */
  lemma SplitterMatchesScanner(sql: string)
    ensures ScriptPieces(sql) == Scan(sql, false, "") <==> Balanced(sql)
  {
    UnquotedPieces(sql, "");
    var scanned := Scan(sql, false, "");
    assert |scanned[|scanned| - 1] + MARK| != |scanned[|scanned| - 1]|;
  }

  /** `";".join(pieces)`. */
  function Join(pieces: seq<string>): string
    requires pieces != []
  {
    if |pieces| == 1 then pieces[0] else pieces[0] + ";" + Join(pieces[1..])
  }

  lemma Associates(a: string, b: string, c: string)
    ensures (a + b) + c == a + (b + c)
  {
  }

  lemma JoinOn(first: string, rest: seq<string>)
    requires rest != []
    ensures Join([first] + rest) == first + ";" + Join(rest)
  {
    assert ([first] + rest)[1..] == rest;
  }

  lemma {:induction false} ScanLosesNothing(s: string, quoted: bool, current: string)
    ensures Join(Scan(s, quoted, current)) == current + s
    decreases |s|
  {
    if s == [] {
      assert current + s == current;
    } else if StartsWithMark(s) {
      ScanLosesNothing(s[2..], !quoted, current + MARK);
      assert s == MARK + s[2..];
      Associates(current, MARK, s[2..]);
    } else if s[0] == ';' && !quoted {
      ScanLosesNothing(s[1..], false, "");
      JoinOn(current, Scan(s[1..], false, ""));
      assert s == ";" + s[1..];
      Associates(current, ";", s[1..]);
    } else {
      ScanLosesNothing(s[1..], quoted, current + [s[0]]);
      assert s == [s[0]] + s[1..];
      Associates(current, [s[0]], s[1..]);
    }
  }

  lemma {:induction false} JoinExtendLast(pieces: seq<string>, suffix: string)
    requires pieces != []
    ensures Join(ExtendLast(pieces, suffix)) == Join(pieces) + suffix
  {
    if |pieces| > 1 {
      JoinExtendLast(pieces[1..], suffix);
      JoinOn(pieces[0], ExtendLast(pieces[1..], suffix));
      Associates(pieces[0] + ";", Join(pieces[1..]), suffix);
    }
  }

  /** Rejoining the uncut pieces gives back the script, up to the `$$` that an unbalanced script
      gains; so nothing is lost exactly when the script is balanced. */
  lemma RejoiningRestoresScript(sql: string)
    ensures Join(ScriptPieces(sql)) == if Balanced(sql) then sql else sql + MARK
    ensures Join(ScriptPieces(sql)) == sql <==> Balanced(sql)
  {
    UnquotedPieces(sql, "");
    ScanLosesNothing(sql, false, "");
    assert "" + sql == sql;
    if !Balanced(sql) {
      JoinExtendLast(Scan(sql, false, ""), MARK);
      assert |sql + MARK| != |sql|;
    }
  }

  // ---- the parts ------------------------------------------------------------------------------------

  function JoinWith(parts: seq<string>, mark: string): string
    requires parts != []
  {
    if |parts| == 1 then parts[0] else parts[0] + mark + JoinWith(parts[1..], mark)
  }

  /** Two dollar signs stand at the place. */
  predicate HasMarkAt(s: string, i: nat) {
    i + 1 < |s| && s[i] == '$' && s[i + 1] == '$'
  }

  lemma StartsIff(s: string)
    ensures StartsWithMark(s) <==> HasMarkAt(s, 0)
  {
    assert MARK == ['$', '$'];
    if |s| >= 2 { assert s[..2] == [s[0], s[1]]; }
  }

  lemma JoinOne(first: char, parts: seq<string>, mark: string)
    requires parts != []
    ensures JoinWith([[first] + parts[0]] + parts[1..], mark) == [first] + JoinWith(parts, mark)
  {
    var longer := [[first] + parts[0]] + parts[1..];
    assert longer[1..] == parts[1..];
    if |parts| > 1 {
      var rest := JoinWith(parts[1..], mark);
      assert ([first] + parts[0]) + mark + rest == [first] + (parts[0] + mark + rest);
    }
  }

  /** The parts, with a double dollar sign between them, are the script, and none of them holds one. */
  lemma {:induction false} MarksAreBetweenParts(s: string)
    ensures JoinWith(SplitMarks(s), "$$") == s
    decreases |s|
  {
    StartsIff(s);
    if s != "" {
      if StartsWithMark(s) {
        var rest := SplitMarks(s[2..]);
        MarksAreBetweenParts(s[2..]);
        assert ([""] + rest)[1..] == rest;
        assert "" + "$$" + s[2..] == s;
      } else {
        MarksAreBetweenParts(s[1..]);
        JoinOne(s[0], SplitMarks(s[1..]), "$$");
        assert [s[0]] + s[1..] == s;
      }
    }
  }

  lemma {:induction false} FirstPartIsPrefix(s: string)
    ensures SplitMarks(s)[0] <= s
    decreases |s|
  {
    if s != "" && !StartsWithMark(s) {
      FirstPartIsPrefix(s[1..]);
    }
  }

  lemma {:induction false} PartsHoldNoMark(s: string, k: nat, i: nat)
    requires k < |SplitMarks(s)|
    ensures !HasMarkAt(SplitMarks(s)[k], i)
    decreases |s|
  {
    StartsIff(s);
    if s != "" {
      if StartsWithMark(s) {
        if k > 0 { PartsHoldNoMark(s[2..], k - 1, i); }
      } else {
        var rest := SplitMarks(s[1..]);
        if k > 0 {
          PartsHoldNoMark(s[1..], k, i);
        } else if i > 0 {
          PartsHoldNoMark(s[1..], 0, i - 1);
        } else {
          FirstPartIsPrefix(s);
        }
      }
    }
  }

  /** The statements, with a semicolon between them, are the part, and none of them holds one. */
  lemma {:induction false} SemicolonsAreBetweenStatements(s: string)
    ensures JoinWith(SplitSemicolons(s), ";") == s
    ensures forall k :: 0 <= k < |SplitSemicolons(s)| ==> ';' !in SplitSemicolons(s)[k]
  {
    if s != "" {
      var rest := SplitSemicolons(s[1..]);
      SemicolonsAreBetweenStatements(s[1..]);
      assert s == [s[0]] + s[1..];
      if s[0] == ';' {
        assert ([""] + rest)[1..] == rest;
        assert "" + ";" + s[1..] == s;
      } else {
        JoinOne(s[0], rest, ";");
      }
    }
  }

  // ---- what is sent -------------------------------------------------------------------------------

  /** Takes back a backslash before a colon. */
  function Unescape(s: string): string {
    if s == "" then ""
    else if s[0] == '\\' && |s| > 1 && s[1] == ':' then ":" + Unescape(s[2..])
    else [s[0]] + Unescape(s[1..])
  }

  /** No colon is left that could name a parameter: a backslash stands before each. */
  lemma {:induction false} ColonsAreEscaped(s: string)
    ensures forall i :: 0 <= i < |EscapeColons(s)| && EscapeColons(s)[i] == ':' ==> i > 0 && EscapeColons(s)[i - 1] == '\\'
  {
    if s != "" {
      ColonsAreEscaped(s[1..]);
      var rest, first := EscapeColons(s[1..]), |EscapeColons(s)| - |EscapeColons(s[1..])|;
      assert forall i :: first < i < |EscapeColons(s)| ==> EscapeColons(s)[i] == rest[i - first];
      assert EscapeColons(s)[first..] == rest;
    }
  }

  /** The database, which takes the backslashes back, gets the statement as it stands in the script. */
  lemma {:induction false} EscapingIsUndone(s: string)
    ensures Unescape(EscapeColons(s)) == s
  {
    if s != "" {
      EscapingIsUndone(s[1..]);
      ColonsAreEscaped(s[1..]);
      var rest := EscapeColons(s[1..]);
      if s[0] == ':' {
        assert EscapeColons(s)[2..] == rest;
      } else {
        assert EscapeColons(s)[1..] == rest;
      }
    }
  }

  /** Tab to carriage return, the separators from 28 on, the blank, and the blanks of Unicode. */
  lemma SpaceIff(c: char)
    ensures IsSpace(c) <==> c as int in {9, 10, 11, 12, 13, 28, 29, 30, 31, 32, 133, 160, 5760, 8192, 8193, 8194, 8195, 8196, 8197,
                                         8198, 8199, 8200, 8201, 8202, 8232, 8233, 8239, 8287, 12288}
  {
  }

  /** Each piece is sent in its turn, unless it is all white space. */
  lemma {:induction false} SentInTurn(pieces: seq<string>, piece: string)
    ensures Executed([]) == []
    ensures Executed(pieces + [piece]) ==
              Executed(pieces) + if forall i :: 0 <= i < |piece| ==> IsSpace(piece[i]) then [] else [EscapeColons(piece)]
  {
    if pieces == [] {
      assert (pieces + [piece])[1..] == [];
    } else {
      SentInTurn(pieces[1..], piece);
      assert (pieces + [piece])[1..] == pieces[1..] + [piece];
    }
  }
}
