/** The bot's settings that carry logic: the admin id list parsed from the environment variable
    ADMIN_USER_ID and the history size limit MAX_CHAR_LIMIT. */
module Config {
  import opened Wrappers
  import opened Text

  /** The ledger's size limit in characters; a history whose total exceeds it is summarised. */
  const MAX_CHAR_LIMIT: nat := 2000

  /** The comma-separated pieces, each stripped, with the pieces that strip to nothing dropped;
      order and repetitions are kept. */
  function IdPieces(pieces: seq<string>): (r: seq<string>)
    ensures |r| <= |pieces|
    ensures forall k :: 0 <= k < |r| ==> r[k] != "" && Strip(r[k]) == r[k]
  {
    if pieces == [] then []
    else
      var head := Strip(pieces[0]);
      StripIdempotent(pieces[0]);
      (if head == "" then [] else [head]) + IdPieces(pieces[1..])
  }

  /** One piece is kept, stripped, exactly when it is not blank. */
  lemma IdPiecesOne(p: string)
    ensures IdPieces([p]) == (if Strip(p) == "" then [] else [Strip(p)])
  {
    assert [p][1..] == [];
  }

  /** The filter works piece by piece: the kept pieces of a concatenation are the kept pieces of
      each part, in order, duplicates included. */
  lemma {:induction false} IdPiecesConcat(a: seq<string>, b: seq<string>)
    ensures IdPieces(a + b) == IdPieces(a) + IdPieces(b)
  {
    if a != [] {
      var head := Strip(a[0]);
      var keep := if head == "" then [] else [head];
      assert (a + b)[0] == a[0];
      assert (a + b)[1..] == a[1..] + b;
      assert IdPieces(a + b) == keep + IdPieces(a[1..] + b);
      assert IdPieces(a) == keep + IdPieces(a[1..]);
      IdPiecesConcat(a[1..], b);
    } else {
      assert a + b == b;
    }
  }

  /** int() applied to every piece; None as soon as one piece is not an integer. */
  function ParseAll(pieces: seq<string>): (r: Option<seq<int>>)
    ensures r.Some? ==> |r.value| == |pieces|
    ensures r.Some? ==> forall k :: 0 <= k < |pieces| ==> ParseInt(pieces[k]) == Some(r.value[k])
    ensures r.None? <==> exists k :: 0 <= k < |pieces| && ParseInt(pieces[k]).None?
  {
    if pieces == [] then Some([])
    else
      match (ParseInt(pieces[0]), ParseAll(pieces[1..]))
      case (Some(x), Some(xs)) => Some([x] + xs)
      case (None, _) => None
      case (Some(_), None) =>
        assert exists k :: 0 <= k < |pieces| && ParseInt(pieces[k]).None? by {
          var k :| 0 <= k < |pieces| - 1 && ParseInt(pieces[1..][k]).None?;
          assert pieces[k + 1] == pieces[1..][k];
        }
        None
  }

  /** ADMIN_USER_ID: the integers written in the comma-separated variable (empty when it is unset);
      None where the comprehension raises ValueError. */
  function AdminUserIds(env: Option<string>): Option<seq<int>> {
    var raw := match env case Some(s) => s case None => "";
    ParseAll(IdPieces(Split(raw, ',')))
  }

  /** An unset or empty variable gives no admins. */
  lemma AdminIdsUnset()
    ensures AdminUserIds(None) == Some([])
    ensures AdminUserIds(Some("")) == Some([])
  {
    assert Split("", ',') == [""];
    assert IdPieces([""]) == [];
  }

  /** A piece that is not blank once stripped and is not an integer. */
  predicate Malformed(piece: string) {
    Strip(piece) != "" && ParseInt(Strip(piece)).None?
  }

  /** Parsing the kept pieces fails exactly when some piece is malformed. */
  lemma {:induction false} IdPiecesFailure(pieces: seq<string>)
    ensures ParseAll(IdPieces(pieces)).None? <==> exists k :: 0 <= k < |pieces| && Malformed(pieces[k])
  {
    if pieces != [] {
      var t := Strip(pieces[0]);
      var rest := IdPieces(pieces[1..]);
      IdPiecesFailure(pieces[1..]);
      assert (exists k :: 0 <= k < |pieces| && Malformed(pieces[k])) <==>
             Malformed(pieces[0]) || exists k :: 0 <= k < |pieces| - 1 && Malformed(pieces[1..][k]) by {
        assert forall k :: 0 < k < |pieces| ==> pieces[k] == pieces[1..][k - 1];
      }
      if t != "" {
        assert IdPieces(pieces) == [t] + rest;
        ParseAllCons(t, rest);
      } else {
        assert IdPieces(pieces) == rest;
      }
    }
  }

  /** Parsing a piece followed by more pieces fails when either part fails. */
  lemma ParseAllCons(t: string, rest: seq<string>)
    ensures ParseAll([t] + rest).None? <==> ParseInt(t).None? || ParseAll(rest).None?
  {
    assert ([t] + rest)[1..] == rest;
  }

  /** ADMIN_USER_ID cannot be parsed exactly when some comma-separated piece is non-blank and not
      an integer. */
  lemma AdminIdsFailure(raw: string)
    ensures AdminUserIds(Some(raw)).None? <==>
            exists k :: 0 <= k < |Split(raw, ',')| && Malformed(Split(raw, ',')[k])
  {
    assert AdminUserIds(Some(raw)) == ParseAll(IdPieces(Split(raw, ',')));
    IdPiecesFailure(Split(raw, ','));
  }

  /** str() of each id. */
  function Decimals(ids: seq<int>): seq<string> {
    seq(|ids|, k requires 0 <= k < |ids| => Decimal(ids[k]))
  }

  /** Pieces that are already stripped and non-empty pass the filter unchanged. */
  lemma {:induction false} IdPiecesKeep(pieces: seq<string>)
    requires forall k :: 0 <= k < |pieces| ==> pieces[k] != "" && Strip(pieces[k]) == pieces[k]
    ensures IdPieces(pieces) == pieces
  {
    if pieces != [] {
      IdPiecesKeep(pieces[1..]);
      assert pieces == [pieces[0]] + pieces[1..];
    }
  }

  /** A piece with one blank on each side strips to its middle. */
  lemma {:induction false} StripPadded(d: string)
    requires d != [] && !IsSpace(d[0]) && !IsSpace(d[|d| - 1])
    ensures Strip(" " + d + " ") == d
  {
    var p := " " + d + " ";
    assert p[1..][0] == d[0];
    assert LeftEdge(p) == 1 + LeftEdge(p[1..]);
    assert p[..|p| - 1][|p| - 2] == d[|d| - 1];
    assert RightEdge(p, 1) == RightEdge(p[..|p| - 1], 1) == |p| - 1;
    assert p[1..|p| - 1] == d;
  }

  /** The comma split of " a ,,b". */
  lemma SplitPadded(a: string, b: string)
    requires ',' !in a && ',' !in b
    ensures Split(" " + a + " ,," + b, ',') == [" " + a + " ", "", b]
  {
    var parts := [" " + a + " ", "", b];
    assert parts[1..] == ["", b] && parts[1..][1..] == [b];
    assert Join(["", b], ',') == "" + [','] + b;
    assert Join(parts, ',') == parts[0] + [','] + ("" + [','] + b);
    assert Join(parts, ',') == " " + a + " ,," + b;
    SplitJoin(parts, ',');
  }

  /** The kept pieces of " a ", "" and "b". */
  lemma IdPiecesPadded(a: string, b: string)
    requires a != [] && !IsSpace(a[0]) && !IsSpace(a[|a| - 1])
    requires b != [] && !IsSpace(b[0]) && !IsSpace(b[|b| - 1])
    ensures IdPieces([" " + a + " ", "", b]) == [a, b]
  {
    var parts := [" " + a + " ", "", b];
    StripPadded(a);
    StripKeeps(b);
    StripKeeps("");
    var tail := parts[1..];
    assert tail == ["", b] && tail[1..] == [b] && tail[1..][1..] == [];
    assert IdPieces(tail[1..]) == [b];
    assert IdPieces(tail) == [b];
    assert IdPieces(parts) == [a] + [b];
  }

  /** Padded ids with an empty piece between them: " x ,,y" gives [x, y]. */
  lemma AdminIdsPadded(x: int, y: int)
    ensures AdminUserIds(Some(" " + Decimal(x) + " ,," + Decimal(y))) == Some([x, y])
  {
    var dx, dy := Decimal(x), Decimal(y);
    var raw := " " + dx + " ,," + dy;
    DecimalPiece(x);
    DecimalPiece(y);
    SplitPadded(dx, dy);
    IdPiecesPadded(dx, dy);
    assert AdminUserIds(Some(raw)) == ParseAll([dx, dy]);
    ParseDecimal(x);
    ParseDecimal(y);
    ParseAllTwo(dx, dy, x, y);
  }

  /** Two pieces that parse. */
  lemma ParseAllTwo(a: string, b: string, x: int, y: int)
    requires ParseInt(a) == Some(x) && ParseInt(b) == Some(y)
    ensures ParseAll([a, b]) == Some([x, y])
  {
    var empty: seq<string> := [];
    assert ParseAll(empty) == Some([]);
    ParseAllPrepend(b, empty, y, []);
    assert [b] + empty == [b] && [y] + [] == [y];
    ParseAllPrepend(a, [b], x, [y]);
    assert [a] + [b] == [a, b] && [x] + [y] == [x, y];
  }

  /** A piece that parses in front of pieces that parse. */
  lemma ParseAllPrepend(t: string, rest: seq<string>, x: int, xs: seq<int>)
    requires ParseInt(t) == Some(x) && ParseAll(rest) == Some(xs)
    ensures ParseAll([t] + rest) == Some([x] + xs)
  {
    assert ([t] + rest)[0] == t && ([t] + rest)[1..] == rest;
  }

  /** str(n) is a non-empty piece without commas or surrounding whitespace. */
  lemma DecimalPiece(n: int)
    ensures ',' !in Decimal(n) && Decimal(n) != []
    ensures !IsSpace(Decimal(n)[0]) && !IsSpace(Decimal(n)[|Decimal(n)| - 1])
  {
    DecimalChars(n);
  }

  /** Writing a list of ids comma-separated and parsing it gives the same list back: order and
      duplicates are preserved. */
  lemma AdminIdsRoundTrip(ids: seq<int>)
    ensures AdminUserIds(Some(Join(Decimals(ids), ','))) == Some(ids)
  {
    var ds := Decimals(ids);
    if ids == [] {
      AdminIdsUnset();
    } else {
      forall k | 0 <= k < |ds| ensures ',' !in ds[k] && ds[k] != "" && Strip(ds[k]) == ds[k] {
        DecimalChars(ids[k]);
        StripKeeps(ds[k]);
      }
      SplitJoin(ds, ',');
      IdPiecesKeep(ds);
      forall k | 0 <= k < |ds| ensures ParseInt(ds[k]) == Some(ids[k]) {
        ParseDecimal(ids[k]);
      }
      var r := ParseAll(ds);
      assert r.Some?;
      assert r.value == ids;
    }
  }
}
