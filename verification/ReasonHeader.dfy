/** Splitting a `Reason` header (section 2 of RFC 3326) outside quoted strings: `split_unquoted` of
    `pjsua-safe/src/endpoint.rs`. */
module ReasonHeader {
  // ----- the scanner ----------------------------------------------------

  datatype Scan = Scan(quoted: bool, escaped: bool)

  const START: Scan := Scan(false, false)
  const QUOTED: Scan := Scan(true, false)

  function Advance(st: Scan, ch: char): Scan {
    if st.escaped then st.(escaped := false)
    else if st.quoted && ch == '\\' then st.(escaped := true)
    else if ch == '"' then st.(quoted := !st.quoted)
    else st
  }

  /** The scanner splits at this character. */
  predicate Splits(st: Scan, ch: char, sep: char) { !st.escaped && ch != '"' && ch == sep && !st.quoted }

  function StateAfter(st: Scan, s: string): Scan
    decreases |s|
  {
    if s == [] then st else StateAfter(Advance(st, s[0]), s[1..])
  }

  /** Scanning `s` from `st` never splits. */
  predicate Whole(st: Scan, s: string, sep: char)
    decreases |s|
  {
    s == [] || (!Splits(st, s[0], sep) && Whole(Advance(st, s[0]), s[1..], sep))
  }

  function Glue(prefix: string, parts: seq<string>): (r: seq<string>)
    requires parts != []
    ensures |r| == |parts|
  {
    [prefix + parts[0]] + parts[1..]
  }

  /** The pieces of `s` when the scanner starts in `st`. */
  function Pieces(st: Scan, s: string, sep: char): (r: seq<string>)
    ensures r != []
    decreases |s|
  {
    if s == [] then [[]]
    else
      var rest := Pieces(Advance(st, s[0]), s[1..], sep);
      if Splits(st, s[0], sep) then [[]] + rest else Glue([s[0]], rest)
  }

  // ----- the loop -------------------------------------------------------

  /** What the loop keeps: `parts` is done, `value[start..i]` is the piece being read. */
  ghost predicate Progress(value: string, sep: char, parts: seq<string>, start: nat, i: nat, st: Scan) {
    && start <= i <= |value|
    && Pieces(START, value, sep) == parts + Glue(value[start..i], Pieces(st, value[i..], sep))
  }

  lemma {:induction false} ProgressStarts(value: string, sep: char)
    ensures Progress(value, sep, [], 0, 0, START)
  {
    var all := Pieces(START, value, sep);
    assert value[0..] == value && value[0..0] == [];
    assert [] + all[0] == all[0] && [all[0]] + all[1..] == all;
  }

  lemma {:induction false} ProgressSplits(value: string, sep: char, parts: seq<string>, start: nat, i: nat, st: Scan)
    requires Progress(value, sep, parts, start, i, st) && i < |value| && Splits(st, value[i], sep)
    ensures Progress(value, sep, parts + [value[start..i]], i + 1, i + 1, st)
  {
    var piece, rest := value[start..i], Pieces(st, value[i + 1..], sep);
    assert value[i..][0] == value[i] && value[i..][1..] == value[i + 1..];
    assert Advance(st, value[i]) == st;
    assert piece + [] == piece && ([[]] + rest)[1..] == rest;
    assert Glue(piece, [[]] + rest) == [piece] + rest;
    assert value[i + 1..i + 1] + rest[0] == rest[0];
    assert Glue(value[i + 1..i + 1], rest) == rest;
    assert parts + ([piece] + rest) == parts + [piece] + rest;
  }

  lemma {:induction false} ProgressReads(value: string, sep: char, parts: seq<string>, start: nat, i: nat, st: Scan)
    requires Progress(value, sep, parts, start, i, st) && i < |value| && !Splits(st, value[i], sep)
    ensures Progress(value, sep, parts, start, i + 1, Advance(st, value[i]))
  {
    var ch, rest := value[i], Pieces(Advance(st, value[i]), value[i + 1..], sep);
    assert value[i..][0] == ch && value[i..][1..] == value[i + 1..];
    assert value[start..i + 1] == value[start..i] + [ch];
    assert value[start..i] + ([ch] + rest[0]) == value[start..i + 1] + rest[0];
  }

  lemma {:induction false} ProgressEnds(value: string, sep: char, parts: seq<string>, start: nat, st: Scan)
    requires Progress(value, sep, parts, start, |value|, st)
    ensures Pieces(START, value, sep) == parts + [value[start..]]
  {
    assert value[|value|..] == [] && value[start..] + [] == value[start..];
    assert value[start..|value|] == value[start..];
    assert Glue(value[start..], [[]]) == [value[start..]];
  }

  method SplitUnquoted(value: string, sep: char) returns (parts: seq<string>)
    ensures parts == Pieces(START, value, sep)
  {
    parts := [];
    var start, quoted, escaped := 0, false, false;
    ProgressStarts(value, sep);
    for i := 0 to |value|
      invariant Progress(value, sep, parts, start, i, Scan(quoted, escaped))
    {
      var ch := value[i];
      if Splits(Scan(quoted, escaped), ch, sep) {
        ProgressSplits(value, sep, parts, start, i, Scan(quoted, escaped));
      } else {
        ProgressReads(value, sep, parts, start, i, Scan(quoted, escaped));
      }
      if escaped {
        escaped := false;
      } else if quoted && ch == '\\' {
        escaped := true;
      } else if ch == '"' {
        quoted := !quoted;
      } else if ch == sep && !quoted {
        parts := parts + [value[start..i]];
        start := i + 1;
      }
    }
    ProgressEnds(value, sep, parts, start, Scan(quoted, escaped));
    parts := parts + [value[start..]];
  }

  // ----- what a split is ------------------------------------------------

  function Join(parts: seq<string>, sep: char): string
    requires parts != []
  {
    if |parts| == 1 then parts[0] else parts[0] + [sep] + Join(parts[1..], sep)
  }

  /** No piece holds a separator outside quotes, and every piece but the last leaves the scanner where
      it started. */
  predicate Clean(parts: seq<string>, sep: char)
    requires parts != []
  {
    && Whole(START, parts[0], sep)
    && (|parts| > 1 ==> StateAfter(START, parts[0]) == START && Clean(parts[1..], sep))
  }

  lemma {:induction false} PieceAlone(st: Scan, s: string, sep: char)
    requires Whole(st, s, sep)
    ensures Pieces(st, s, sep) == [s]
    decreases |s|
  {
    if s == [] {
    } else {
      PieceAlone(Advance(st, s[0]), s[1..], sep);
      assert [s[0]] + s[1..] == s;
    }
  }

  lemma {:induction false} PieceThenRest(st: Scan, a: string, b: string, sep: char)
    requires Whole(st, a, sep) && StateAfter(st, a) == START && sep != '"'
    ensures Pieces(st, a + [sep] + b, sep) == [a] + Pieces(START, b, sep)
    decreases |a|
  {
    var s := a + [sep] + b;
    if a == [] {
      assert s[0] == sep && s[1..] == b;
    } else {
      PieceThenRest(Advance(st, a[0]), a[1..], b, sep);
      assert s[0] == a[0] && s[1..] == a[1..] + [sep] + b;
      assert [a[0]] + a[1..] == a;
    }
  }

  lemma {:induction false} SplitOfJoin(parts: seq<string>, sep: char)
    requires parts != [] && Clean(parts, sep) && sep != '"'
    ensures Pieces(START, Join(parts, sep), sep) == parts
  {
    if |parts| == 1 {
      PieceAlone(START, parts[0], sep);
      assert parts == [parts[0]];
    } else {
      PieceThenRest(START, parts[0], Join(parts[1..], sep), sep);
      SplitOfJoin(parts[1..], sep);
      assert parts == [parts[0]] + parts[1..];
    }
  }

  lemma {:induction false} JoinOfGlue(c: char, parts: seq<string>, sep: char)
    requires parts != []
    ensures Join(Glue([c], parts), sep) == [c] + Join(parts, sep)
  {
    if |parts| > 1 {
      assert Glue([c], parts)[1..] == parts[1..];
      assert [c] + parts[0] + [sep] + Join(parts[1..], sep) == [c] + (parts[0] + [sep] + Join(parts[1..], sep));
    }
  }

  lemma {:induction false} JoinOfSplit(st: Scan, s: string, sep: char)
    ensures Join(Pieces(st, s, sep), sep) == s
    decreases |s|
  {
    if s == [] {
    } else {
      var rest := Pieces(Advance(st, s[0]), s[1..], sep);
      JoinOfSplit(Advance(st, s[0]), s[1..], sep);
      if Splits(st, s[0], sep) {
        assert ([[]] + rest)[1..] == rest;
        assert [] + [sep] + Join(rest, sep) == s;
      } else {
        JoinOfGlue(s[0], rest, sep);
        assert [s[0]] + s[1..] == s;
      }
    }
  }

  /** The pieces scanned from `st`: the first one from `st`, the others from the start state. */
  predicate CleanFrom(st: Scan, parts: seq<string>, sep: char)
    requires parts != []
  {
    && Whole(st, parts[0], sep)
    && (|parts| > 1 ==> StateAfter(st, parts[0]) == START && Clean(parts[1..], sep))
  }

  lemma {:induction false} SplitIsCleanFrom(st: Scan, s: string, sep: char)
    ensures CleanFrom(st, Pieces(st, s, sep), sep)
    decreases |s|
  {
    if s == [] {
    } else {
      var next := Advance(st, s[0]);
      var rest := Pieces(next, s[1..], sep);
      SplitIsCleanFrom(next, s[1..], sep);
      if Splits(st, s[0], sep) {
        assert ([[]] + rest)[1..] == rest;
      } else {
        var first := [s[0]] + rest[0];
        assert first[1..] == rest[0] && Glue([s[0]], rest)[1..] == rest[1..];
      }
    }
  }

  /** `split_unquoted` is the only way to cut the text so that joining gives it back, no piece holds an
      unquoted separator, and every cut is made in the start state. */
  lemma {:induction false} SplitIsExact(s: string, sep: char, parts: seq<string>)
    requires sep != '"' && parts != []
    ensures parts == Pieces(START, s, sep) <==> Join(parts, sep) == s && Clean(parts, sep)
  {
    JoinOfSplit(START, s, sep);
    SplitIsCleanFrom(START, s, sep);
    if Join(parts, sep) == s && Clean(parts, sep) {
      SplitOfJoin(parts, sep);
    }
  }

  /** Where piece `k` begins in the joined text. */
  function Offset(parts: seq<string>, k: nat): nat
    requires k < |parts|
  {
    if k == 0 then 0 else |parts[0]| + 1 + Offset(parts[1..], k - 1)
  }

  lemma {:induction false} StateAppend(st: Scan, a: string, b: string)
    ensures StateAfter(st, a + b) == StateAfter(StateAfter(st, a), b)
    decreases |a|
  {
    if a == [] {
      assert a + b == b;
    } else {
      StateAppend(Advance(st, a[0]), a[1..], b);
      assert (a + b)[1..] == a[1..] + b;
    }
  }

  /** Position `j` of piece `k` lies at `Offset + j` of the header, and the scanner is in the same state
      there: splitting the header at commas and then a piece at semicolons sees the quotes it would see
      scanning the whole header. */
  lemma {:induction false} PieceSeesTheHeader(parts: seq<string>, sep: char, k: nat, j: nat)
    requires k < |parts| && j <= |parts[k]| && Clean(parts, sep) && sep != '"'
    ensures Offset(parts, k) + j <= |Join(parts, sep)|
    ensures Join(parts, sep)[Offset(parts, k)..][..j] == parts[k][..j]
    ensures StateAfter(START, Join(parts, sep)[..Offset(parts, k) + j]) == StateAfter(START, parts[k][..j])
  {
    var s := Join(parts, sep);
    if k == 0 {
      assert s[..j] == parts[0][..j] && s[0..] == s;
    } else {
      var rest := Join(parts[1..], sep);
      var o := Offset(parts[1..], k - 1);
      PieceSeesTheHeader(parts[1..], sep, k - 1, j);
      PastPiece(parts[0], rest, sep, o, j);
    }
  }

  lemma {:induction false} PastPiece(piece: string, rest: string, sep: char, o: nat, j: nat)
    requires StateAfter(START, piece) == START && sep != '"' && o + j <= |rest|
    ensures var s, k := piece + [sep] + rest, |piece| + 1 + o;
            && s[k..][..j] == rest[o..][..j]
            && StateAfter(START, s[..k + j]) == StateAfter(START, rest[..o + j])
  {
    var head := piece + [sep];
    var s := head + rest;
    assert s[|head| + o..] == rest[o..];
    assert s[..|head| + o + j] == head + rest[..o + j];
    assert StateAfter(START, head) == START by {
      StateAppend(START, piece, [sep]);
      assert [sep][1..] == [];
    }
    StateAppend(START, head, rest[..o + j]);
  }

  /** The semicolons a comma-separated entry is split at are the unquoted semicolons of the header. */
  lemma {:induction false} NestedSplitAgrees(header: string, k: nat, j: nat)
    requires k < |Pieces(START, header, ',')| && j < |Pieces(START, header, ',')[k]|
    ensures var entry := Pieces(START, header, ',')[k];
            var p := Offset(Pieces(START, header, ','), k) + j;
            && p < |header| && header[p] == entry[j]
            && (Splits(StateAfter(START, entry[..j]), entry[j], ';')
                <==> Splits(StateAfter(START, header[..p]), header[p], ';'))
  {
    var parts := Pieces(START, header, ',');
    SplitIsExact(header, ',', parts);
    PieceSeesTheHeader(parts, ',', k, j);
    PieceSeesTheHeader(parts, ',', k, j + 1);
    var o := Offset(parts, k);
    assert header[o..][..j + 1][j] == header[o + j];
    assert parts[k][..j + 1][j] == parts[k][j];
  }
}
