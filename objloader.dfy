/**
  The Wavefront OBJ loader of scripts/ObjectLoader/ObjLoader.h over the text
  of the file: the file is cut into lines, a `v` line appends a vertex, an
  `f` line appends a triangle of 0-based indices (anything but three indices
  throws), every other line is skipped; `flipVertices` then swaps the first
  two indices of every triangle, and a mesh is built from the two lists.
 */
module ObjLoader {
  import opened Exceptions
  import opened Vectors
  import opened Objects

  const BIG_DELIMITER: char := ' '
  const SMALL_DELIMITER: char := '/'
  const LINE_DELIMITER: char := '\n'

  /** The `what()` of the exception thrown for a face that is not a triangle. */
  const NON_TRIANGULAR_FACE: string := ".obj file should contain only triangular faces."

  /** `std::stoi` reports both its failures with this `what()`. */
  const STOI: string := "stoi"

  const INT_MIN: int := -0x8000_0000
  const INT_MAX: int := 0x7FFF_FFFF

  // ---------------------------------------------------------------------
  // std::getline with a delimiter
  // ---------------------------------------------------------------------

  /** The position of the first `d` in `s`, or `|s|` when there is none. */
  function IndexOf(s: string, d: char): (i: nat)
    ensures i <= |s|
    ensures forall k :: 0 <= k < i ==> s[k] != d
    ensures i < |s| ==> s[i] == d
  {
    IndexFrom(s, d, 0)
  }

  /** The position of the first `d` in `s` at or after `from`, or `|s|`. */
  function IndexFrom(s: string, d: char, from: nat): (i: nat)
    requires from <= |s|
    ensures from <= i <= |s|
    ensures forall k :: from <= k < i ==> s[k] != d
    ensures i < |s| ==> s[i] == d
    decreases |s| - from
  {
    if from == |s| || s[from] == d then from else IndexFrom(s, d, from + 1)
  }

  /**
    The pieces successive `std::getline(stream, piece, d)` calls read from a
    stream holding `s`, up to the call that fails: each piece ends at a `d`,
    which is consumed; a last piece without a `d` after it counts only when
    it is not empty. No piece contains `d`.
   */
  function Split(s: string, d: char): (r: seq<string>)
    ensures s == [] <==> r == []
    decreases |s|
  {
    if s == [] then []
    else
      var i := IndexOf(s, d);
      if i == |s| then [s] else [s[..i]] + Split(s[i + 1..], d)
  }

  /** No piece contains the delimiter. */
  lemma {:induction false} SplitPieces(s: string, d: char)
    ensures forall k :: 0 <= k < |Split(s, d)| ==> d !in Split(s, d)[k]
    decreases |s|
  {
    if s != [] {
      var i := IndexOf(s, d);
      if i < |s| {
        SplitPieces(s[i + 1..], d);
        assert d !in s[..i];
      } else {
        assert d !in s;
      }
    }
  }

  /** The pieces put back together with `d` between them. */
  function Join(pieces: seq<string>, d: char): string
  {
    if |pieces| == 0 then []
    else if |pieces| == 1 then pieces[0]
    else pieces[0] + [d] + Join(pieces[1..], d)
  }

  /** `[d]` when `s` ends with `d`, otherwise nothing: the delimiter `Split` drops at the end. */
  function TrailingDelimiter(s: string, d: char): string
  {
    if s != [] && s[|s| - 1] == d then [d] else []
  }

  /**
    Reading the pieces loses nothing but a final delimiter: joining them
    gives back `s`, less its last character when that is `d`.
   */
  lemma {:induction false} SplitJoin(s: string, d: char)
    ensures Join(Split(s, d), d) + TrailingDelimiter(s, d) == s
    decreases |s|
  {
    if s != [] {
      var i := IndexOf(s, d);
      SplitStep(s, d);
      hide Split, Join;
      if i == |s| {
        JoinStep(s, [], d);
        assert [s] + [] == [s];
        assert TrailingDelimiter(s, d) == [];
      } else {
        var piece, rest := s[..i], s[i + 1..];
        assert s == piece + [d] + rest;
        if rest == [] {
          SplitEmpty(d);
          JoinStep(piece, [], d);
          assert [piece] + [] == [piece];
        } else {
          SplitJoin(rest, d);
          JoinAfterPiece(piece, Split(rest, d), rest, d);
        }
      }
    }
  }

  /** One step of `Split`: the first piece, then the pieces of what follows its delimiter. */
  lemma SplitStep(s: string, d: char)
    requires s != []
    ensures var i := IndexOf(s, d);
            Split(s, d) == if i == |s| then [s] else [s[..i]] + Split(s[i + 1..], d)
  {
  }

  lemma SplitEmpty(d: char)
    ensures Split([], d) == []
  {
  }

  /** One step of `Join`: the first piece, then the delimiter before the rest when there is a rest. */
  lemma JoinStep(piece: string, tail: seq<string>, d: char)
    ensures Join([piece] + tail, d) == if tail == [] then piece else piece + [d] + Join(tail, d)
  {
    assert ([piece] + tail)[1..] == tail;
  }

  /** Putting a piece and a delimiter in front of a joined non-empty rest. */
  lemma JoinAfterPiece(piece: string, tail: seq<string>, rest: string, d: char)
    requires tail != [] && rest != []
    requires Join(tail, d) + TrailingDelimiter(rest, d) == rest
    ensures Join([piece] + tail, d) + TrailingDelimiter(piece + [d] + rest, d) == piece + [d] + rest
  {
    JoinStep(piece, tail, d);
    var s := piece + [d] + rest;
    assert s[|s| - 1] == rest[|rest| - 1];
    assert TrailingDelimiter(s, d) == TrailingDelimiter(rest, d);
  }

  // ---------------------------------------------------------------------
  // std::stoi
  // ---------------------------------------------------------------------

  /** `isspace` in the C locale: blank, tab, newline, vertical tab, form feed, carriage return. */
  predicate IsSpace(c: char)
  {
    c == ' ' || '\t' <= c <= '\r'
  }

  predicate IsDigit(c: char)
  {
    '0' <= c <= '9'
  }

  predicate AllDigits(s: string)
  {
    forall k :: 0 <= k < |s| ==> IsDigit(s[k])
  }

  /** The position of the first character at or after `from` that is not white space, or `|s|`. */
  function SkipSpace(s: string, from: nat): (i: nat)
    requires from <= |s|
    ensures from <= i <= |s|
    ensures forall k :: from <= k < i ==> IsSpace(s[k])
    ensures i < |s| ==> !IsSpace(s[i])
    decreases |s| - from
  {
    if from < |s| && IsSpace(s[from]) then SkipSpace(s, from + 1) else from
  }

  /** The end of the run of decimal digits that starts at `from`. */
  function DigitsEnd(s: string, from: nat): (i: nat)
    requires from <= |s|
    ensures from <= i <= |s|
    ensures forall k :: from <= k < i ==> IsDigit(s[k])
    ensures i < |s| ==> !IsDigit(s[i])
    decreases |s| - from
  {
    if from < |s| && IsDigit(s[from]) then DigitsEnd(s, from + 1) else from
  }

  /** The number a string of decimal digits writes, most significant digit first. */
  function DigitsValue(s: string): (v: nat)
    requires AllDigits(s)
  {
    if s == [] then 0 else DigitsValue(s[..|s| - 1]) * 10 + (s[|s| - 1] as int - '0' as int)
  }

  /**
    `std::stoi(s)` in base 10: white space is skipped, an optional sign and a
    run of digits are read and the rest is ignored. With no digit it throws
    `invalid_argument`, and with a value outside `int` it throws `out_of_range`.
   */
  function StoI(s: string): (r: Result<int>)
    ensures r.Ok? ==> INT_MIN <= r.value <= INT_MAX
    ensures r.Throw? ==> r.error == InvalidArgument(STOI) || r.error == OutOfRange(STOI)
  {
    var start := SkipSpace(s, 0);
    var signed := start < |s| && (s[start] == '-' || s[start] == '+');
    var first := if signed then start + 1 else start;
    var end := DigitsEnd(s, first);
    if end == first then Throw(InvalidArgument(STOI))
    else
      var magnitude: int := DigitsValue(s[first..end]);
      var value: int := if signed && s[start] == '-' then -magnitude else magnitude;
      if value < INT_MIN || value > INT_MAX then Throw(OutOfRange(STOI)) else Ok(value)
  }

  /** The decimal writing of `n`: digits only, without leading zeros. */
  function Decimal(n: nat): (s: string)
    ensures s != [] && AllDigits(s)
    ensures |s| > 1 ==> s[0] != '0'
  {
    var last := ('0' as int + n % 10) as char;
    if n < 10 then [last] else Decimal(n / 10) + [last]
  }

  /** Reading back the decimal writing of `n` gives `n`. */
  lemma {:induction false} DecimalValue(n: nat)
    ensures DigitsValue(Decimal(n)) == n
  {
    if n >= 10 {
      var s := Decimal(n / 10);
      DecimalValue(n / 10);
      assert (Decimal(n)[..|Decimal(n)| - 1]) == s;
    }
  }

  /** `stoi` reads back the decimal writing of every `int`, and rejects a larger number as out of range. */
  lemma StoIDecimal(n: nat)
    ensures n <= INT_MAX ==> StoI(Decimal(n)) == Ok(n)
    ensures n > INT_MAX ==> StoI(Decimal(n)) == Throw(OutOfRange(STOI))
  {
    var s := Decimal(n);
    DecimalValue(n);
    hide Decimal, DigitsValue;
    assert SkipSpace(s, 0) == 0;
    assert DigitsEnd(s, 0) == |s|;
    assert s[0..|s|] == s;
  }

  /** With a minus sign in front, `stoi` reads back the negative of every number down to `INT_MIN`. */
  lemma StoINegativeDecimal(n: nat)
    requires n <= -INT_MIN
    ensures StoI(['-'] + Decimal(n)) == Ok(-(n as int))
  {
    var s := Decimal(n);
    DecimalValue(n);
    hide Decimal, DigitsValue;
    var m := ['-'] + s;
    assert SkipSpace(m, 0) == 0;
    assert forall k :: 1 <= k < |m| ==> IsDigit(m[k]);
    assert DigitsEnd(m, 1) == |m|;
    assert m[1..|m|] == s;
  }

  // ---------------------------------------------------------------------
  // Lines and records
  // ---------------------------------------------------------------------

  /** The first space-delimited token of a line: `""` for an empty line. */
  function LineKind(line: string): (kind: string)
    ensures BIG_DELIMITER !in kind && kind <= line
  {
    line[..IndexOf(line, BIG_DELIMITER)]
  }

  /** What the line stream holds after its first token has been read. */
  function LineRest(line: string): (rest: string)
    ensures line != [] ==> Split(line, BIG_DELIMITER) == [LineKind(line)] + Split(rest, BIG_DELIMITER)
  {
    var i := IndexOf(line, BIG_DELIMITER);
    if i < |line| then line[i + 1..] else assert line[..i] == line; []
  }

  /**
    The index one face token names: `std::stoi` of the text before its first
    `/`, minus 1, so that the 1-based indices of the file become 0-based.
   */
  function FaceIndex(token: string): (r: Result<int>)
    ensures var n := StoI(token[..IndexOf(token, SMALL_DELIMITER)]);
            && (r.Ok? <==> n.Ok?)
            && (r.Ok? ==> r.value == n.value - 1)
            && (r.Throw? ==> r.error == n.error)
  {
    var index :- StoI(token[..IndexOf(token, SMALL_DELIMITER)]);
    Ok(index - 1)
  }

  /**
    A token `n/...` (vertex, texture and normal index) and a token `n` both
    name the 0-based vertex n - 1.
   */
  lemma FaceIndexOfDecimal(n: nat, rest: string)
    requires n <= INT_MAX
    ensures FaceIndex(Decimal(n) + [SMALL_DELIMITER] + rest) == Ok(n - 1)
    ensures FaceIndex(Decimal(n)) == Ok(n - 1)
  {
    var s := Decimal(n);
    var token := s + [SMALL_DELIMITER] + rest;
    assert token[|s|] == SMALL_DELIMITER;
    assert forall k :: 0 <= k < |s| ==> token[k] == s[k] && IsDigit(s[k]);
    assert IndexOf(token, SMALL_DELIMITER) == |s|;
    assert token[..|s|] == s;
    assert IndexOf(s, SMALL_DELIMITER) == |s|;
    assert s[..|s|] == s;
    StoIDecimal(n);
  }

  /** The indices of the face tokens, read in order; the first token `stoi` rejects throws. */
  function FaceIndices(tokens: seq<string>): (r: Result<seq<int>>)
    ensures r.Ok? ==> |r.value| == |tokens|
  {
    if tokens == [] then Ok([])
    else
      var init :- FaceIndices(tokens[..|tokens| - 1]);
      var index :- FaceIndex(tokens[|tokens| - 1]);
      Ok(init + [index])
  }

  /** Once a prefix of the tokens throws, reading all of them throws the same. */
  lemma {:induction false} FaceIndicesPrefixThrows(tokens: seq<string>, j: nat)
    requires j <= |tokens| && FaceIndices(tokens[..j]).Throw?
    ensures FaceIndices(tokens) == FaceIndices(tokens[..j])
    decreases |tokens|
  {
    if j < |tokens| {
      var init := tokens[..|tokens| - 1];
      assert init[..j] == tokens[..j];
      FaceIndicesPrefixThrows(init, j);
    } else {
      assert tokens[..j] == tokens;
    }
  }

  /** When the tokens all read, their indices are the tokens' own, in order. */
  lemma {:induction false} FaceIndicesAgree(tokens: seq<string>)
    requires FaceIndices(tokens).Ok?
    ensures forall k :: 0 <= k < |tokens| ==> FaceIndex(tokens[k]) == Ok(FaceIndices(tokens).value[k])
    decreases |tokens|
  {
    hide FaceIndex;
    if tokens != [] {
      var init := tokens[..|tokens| - 1];
      FaceIndicesAgree(init);
      var r := FaceIndices(tokens).value;
      assert r == FaceIndices(init).value + [FaceIndex(tokens[|tokens| - 1]).value];
    }
  }

  /**
    The triangle an `f` line (given after its `f`) adds: the indices of its
    tokens when there are exactly three of them; a face of any other size
    throws `invalid_argument`, after any token `stoi` rejects.
   */
  function FaceRecord(rest: string): (r: Result<Face>)
    ensures var indices := FaceIndices(Split(rest, BIG_DELIMITER));
            && (indices.Throw? ==> r == Throw(indices.error))
            && (indices.Ok? && |Split(rest, BIG_DELIMITER)| != 3 ==> r == Throw(InvalidArgument(NON_TRIANGULAR_FACE)))
            && (r.Ok? <==> indices.Ok? && |Split(rest, BIG_DELIMITER)| == 3)
  {
    var polygonIndices :- FaceIndices(Split(rest, BIG_DELIMITER));
    if |polygonIndices| != 3 then Throw(InvalidArgument(NON_TRIANGULAR_FACE))
    else Ok(Face(polygonIndices[0], polygonIndices[1], polygonIndices[2]))
  }

  /**
    A face record holds exactly three tokens, and its i-th index is the
    0-based index the i-th token names; with another number of readable
    tokens the record throws `invalid_argument`.
   */
  lemma FaceRecordIndices(rest: string)
    ensures var tokens := Split(rest, BIG_DELIMITER);
            var r := FaceRecord(rest);
            && (r.Ok? ==> |tokens| == 3 && forall i :: 0 <= i < 3 ==> FaceIndex(tokens[i]) == Ok(r.value.At(i)))
            && (FaceIndices(tokens).Ok? && |tokens| != 3 ==> r == Throw(InvalidArgument(NON_TRIANGULAR_FACE)))
  {
    hide FaceIndex;
    var tokens := Split(rest, BIG_DELIMITER);
    if FaceRecord(rest).Ok? {
      FaceIndicesAgree(tokens);
    }
  }

  /** The vertex and triangle lists read so far. */
  datatype ObjData = ObjData(vertices: seq<Vec3>, triangles: seq<Face>)

  /**
    One line of the file: `v` appends the vertex `>>` reads from the rest of
    the line, `f` appends its triangle or throws, anything else is skipped.
    `readVertex` stands for `inputStream >> vertex`.
   */
  function ParseLine(acc: ObjData, line: string, readVertex: string -> Vec3): (r: Result<ObjData>)
    ensures LineKind(line) == "v" ==> r == Ok(ObjData(acc.vertices + [readVertex(LineRest(line))], acc.triangles))
    ensures LineKind(line) == "f" ==> r.Ok? == FaceRecord(LineRest(line)).Ok?
    ensures LineKind(line) == "f" && r.Ok? ==> r.value == ObjData(acc.vertices, acc.triangles + [FaceRecord(LineRest(line)).value])
    ensures LineKind(line) == "f" && r.Throw? ==> r.error == FaceRecord(LineRest(line)).error
    ensures LineKind(line) != "v" && LineKind(line) != "f" ==> r == Ok(acc)
  {
    var bigToken := LineKind(line);
    if bigToken == "v" then Ok(ObjData(acc.vertices + [readVertex(LineRest(line))], acc.triangles))
    else if bigToken == "f" then
      var triangle :- FaceRecord(LineRest(line));
      Ok(ObjData(acc.vertices, acc.triangles + [triangle]))
    else Ok(acc)
  }

  /**
    The lines read in file order; the first line that throws ends the load with
    its exception. Each line adds at most one vertex or one triangle.
   */
  function ParseLines(lines: seq<string>, readVertex: string -> Vec3): (r: Result<ObjData>)
    ensures r.Ok? ==> |r.value.vertices| + |r.value.triangles| <= |lines|
  {
    if lines == [] then Ok(ObjData([], []))
    else
      var acc :- ParseLines(lines[..|lines| - 1], readVertex);
      ParseLine(acc, lines[|lines| - 1], readVertex)
  }

  /** Once a prefix of the lines throws, the whole file throws the same. */
  lemma {:induction false} ParseLinesPrefixThrows(lines: seq<string>, j: nat, readVertex: string -> Vec3)
    requires j <= |lines| && ParseLines(lines[..j], readVertex).Throw?
    ensures ParseLines(lines, readVertex) == ParseLines(lines[..j], readVertex)
    decreases |lines|
  {
    if j < |lines| {
      var init := lines[..|lines| - 1];
      assert init[..j] == lines[..j];
      ParseLinesPrefixThrows(init, j, readVertex);
    } else {
      assert lines[..j] == lines;
    }
  }

  /** The lines of a given first token, in file order. */
  function LinesOfKind(lines: seq<string>, kind: string): (r: seq<string>)
    ensures |r| <= |lines|
    ensures forall k :: 0 <= k < |r| ==> LineKind(r[k]) == kind
  {
    if lines == [] then []
    else
      var init := LinesOfKind(lines[..|lines| - 1], kind);
      if LineKind(lines[|lines| - 1]) == kind then init + [lines[|lines| - 1]] else init
  }

  /** The `v` and `f` lines, in file order. */
  function RecordLines(lines: seq<string>): (r: seq<string>)
    ensures |r| <= |lines|
    ensures forall k :: 0 <= k < |r| ==> LineKind(r[k]) in {"v", "f"}
  {
    if lines == [] then []
    else
      var init := RecordLines(lines[..|lines| - 1]);
      var line := lines[|lines| - 1];
      if LineKind(line) == "v" || LineKind(line) == "f" then init + [line] else init
  }

  /** Lines whose first token is neither `v` nor `f` change nothing: dropping them all gives the same load. */
  lemma {:induction false} OtherLinesIgnored(lines: seq<string>, readVertex: string -> Vec3)
    ensures ParseLines(RecordLines(lines), readVertex) == ParseLines(lines, readVertex)
  {
    if lines != [] {
      var init := lines[..|lines| - 1];
      var line := lines[|lines| - 1];
      OtherLinesIgnored(init, readVertex);
      var records := RecordLines(init);
      if LineKind(line) == "v" || LineKind(line) == "f" {
        assert RecordLines(lines) == records + [line];
        assert (records + [line])[..|records|] == records;
      }
    }
  }

  /**
    A file that loads has one vertex per `v` line, in file order, each what
    `>>` reads from the rest of its line.
   */
  lemma {:induction false} VerticesInFileOrder(lines: seq<string>, readVertex: string -> Vec3)
    requires ParseLines(lines, readVertex).Ok?
    ensures var vs := ParseLines(lines, readVertex).value.vertices;
            var vl := LinesOfKind(lines, "v");
            |vs| == |vl| && forall k :: 0 <= k < |vl| ==> vs[k] == readVertex(LineRest(vl[k]))
  {
    if lines != [] {
      var init := lines[..|lines| - 1];
      VerticesInFileOrder(init, readVertex);
    }
  }

  /**
    A file that loads has one triangle per `f` line, in file order: each
    line's face record, so every `f` line holds exactly three indices.
   */
  lemma {:induction false} TrianglesInFileOrder(lines: seq<string>, readVertex: string -> Vec3)
    requires ParseLines(lines, readVertex).Ok?
    ensures var ts := ParseLines(lines, readVertex).value.triangles;
            var fl := LinesOfKind(lines, "f");
            |ts| == |fl| && forall k :: 0 <= k < |fl| ==> FaceRecord(LineRest(fl[k])) == Ok(ts[k])
  {
    if lines != [] {
      var init := lines[..|lines| - 1];
      TrianglesInFileOrder(init, readVertex);
    }
  }

  /** An `f` line that is not a triangle makes the whole load throw, unless an earlier line already did. */
  lemma NonTriangleThrows(lines: seq<string>, k: nat, readVertex: string -> Vec3)
    requires k < |lines| && LineKind(lines[k]) == "f"
    requires FaceIndices(Split(LineRest(lines[k]), BIG_DELIMITER)).Ok?
    requires |FaceIndices(Split(LineRest(lines[k]), BIG_DELIMITER)).value| != 3
    requires ParseLines(lines[..k], readVertex).Ok?
    ensures ParseLines(lines, readVertex) == Throw(InvalidArgument(NON_TRIANGULAR_FACE))
  {
    assert lines[..k + 1][..k] == lines[..k];
    ParseLinesPrefixThrows(lines, k + 1, readVertex);
  }

  /**
    The OBJ file read line by line: a file that loads has exactly one vertex
    per `v` line and one triangle per `f` line, and an empty file loads as an
    empty mesh.
   */
  function ParseObj(contents: string, readVertex: string -> Vec3): (r: Result<ObjData>)
    ensures var lines := Split(contents, LINE_DELIMITER);
            r.Ok? ==> && |r.value.vertices| == |LinesOfKind(lines, "v")|
                      && |r.value.triangles| == |LinesOfKind(lines, "f")|
    ensures contents == [] ==> r == Ok(ObjData([], []))
  {
    var lines := Split(contents, LINE_DELIMITER);
    var r := ParseLines(lines, readVertex);
    if r.Ok? then
      VerticesInFileOrder(lines, readVertex);
      TrianglesInFileOrder(lines, readVertex);
      SplitEmpty(LINE_DELIMITER);
      r
    else
      r
  }

  // ---------------------------------------------------------------------
  // flipVertices
  // ---------------------------------------------------------------------

  /**
    A triangle with its first two indices swapped: the opposite winding. It
    undoes itself, keeps the three indices and so keeps them in range.
   */
  function Flip(f: Face): (r: Face)
    ensures Face(r.b, r.a, r.c) == f
    ensures forall n :: FaceIn(r, n) <==> FaceIn(f, n)
  {
    Face(f.b, f.a, f.c)
  }

  /** Every triangle flipped, in place. */
  function FlipAll(ts: seq<Face>): (r: seq<Face>)
    ensures |r| == |ts|
    ensures forall k :: 0 <= k < |ts| ==> r[k] == Flip(ts[k])
  {
    seq(|ts|, k requires 0 <= k < |ts| => Flip(ts[k]))
  }

  /** Flipping swaps the first two indices and keeps the third, and flipping twice restores every triangle. */
  lemma FlipTwice(ts: seq<Face>)
    ensures forall k :: 0 <= k < |ts| ==>
      FlipAll(ts)[k].a == ts[k].b && FlipAll(ts)[k].b == ts[k].a && FlipAll(ts)[k].c == ts[k].c
    ensures FlipAll(FlipAll(ts)) == ts
  {
  }

  /** Flipping keeps every index a valid vertex index exactly when it was one. */
  lemma FlipKeepsIndices(ts: seq<Face>, n: int)
    ensures FacesIn(FlipAll(ts), n) <==> FacesIn(ts, n)
  {
    if FacesIn(ts, n) {
      assert forall k :: 0 <= k < |ts| ==> FaceIn(FlipAll(ts)[k], n);
    }
    if FacesIn(FlipAll(ts), n) {
      assert forall k :: 0 <= k < |ts| ==> FaceIn(ts[k], n) by {
        forall k | 0 <= k < |ts| ensures FaceIn(ts[k], n) {
          assert FaceIn(FlipAll(ts)[k], n);
        }
      }
    }
  }

  /** A flipped triangle faces the other way: its normal is the opposite vector. */
  lemma FlipReversesNormal(vs: seq<Vec3>, f: Face)
    requires FaceIn(f, |vs|)
    ensures FaceIn(Flip(f), |vs|)
    ensures FaceNormal(vs, Flip(f)) == Neg(FaceNormal(vs, f))
  {
    var a, b, c := vs[f.a], vs[f.b], vs[f.c];
    var n := Cross(Sub(b, a), Sub(c, a));
    var m := Cross(Sub(a, b), Sub(c, b));
    assert m.x == -n.x;
    assert m.y == -n.y;
    assert m.z == -n.z;
    assert m == Neg(n);
    NormalizeNeg(n);
  }

  /** Normalizing commutes with negation. */
  lemma NormalizeNeg(v: Vec3)
    ensures Normalize(Neg(v)) == Neg(Normalize(v))
  {
    if v != Zero {
      assert Norm(Neg(v)) == Norm(v);
      var n := Norm(v);
      NegDiv(v.x, n);
      NegDiv(v.y, n);
      NegDiv(v.z, n);
    }
  }

  lemma NegDiv(a: real, n: real)
    requires n != 0.0
    ensures (-a) / n == -(a / n)
  {
    DivIsMulInverse(a, n);
    DivIsMulInverse(-a, n);
  }

  // ---------------------------------------------------------------------
  // loadTriangleMeshObj
  // ---------------------------------------------------------------------

  /** The triangles the loader hands to the mesh: the parsed ones, flipped when asked. */
  function LoadedTriangles(data: ObjData, flipVertices: bool): seq<Face>
  {
    if flipVertices then FlipAll(data.triangles) else data.triangles
  }

  /**
    Every index of a file that loads names one of its vertices; the loader
    does not check this, and a mesh built otherwise reads outside its
    vertex list.
   */
  predicate IndicesInRange(contents: string, readVertex: string -> Vec3)
  {
    var p := ParseObj(contents, readVertex);
    p.Ok? ==> FacesIn(p.value.triangles, |p.value.vertices|)
  }

  /**
    The token loop of the `f` branch: the tokens read one by one into
    `polygonIndices`, stopping at the first one `stoi` rejects.
   */
  method ReadFaceIndices(tokens: seq<string>) returns (r: Result<seq<int>>)
    ensures r == FaceIndices(tokens)
  {
    hide FaceIndex;
    var polygonIndices: seq<int> := [];
    for i := 0 to |tokens|
      invariant FaceIndices(tokens[..i]) == Ok(polygonIndices)
    {
      assert tokens[..i + 1][..i] == tokens[..i];
      var vertInd := FaceIndex(tokens[i]);
      if vertInd.Throw? {
        FaceIndicesPrefixThrows(tokens, i + 1);
        return Throw(vertInd.error);
      }
      polygonIndices := polygonIndices + [vertInd.value];
    }
    assert tokens[..|tokens|] == tokens;
    return Ok(polygonIndices);
  }

  /** The body of the `f` branch: the indices of the tokens after `f`, then the count checked. */
  method ReadFace(rest: string) returns (r: Result<Face>)
    ensures r == FaceRecord(rest)
  {
    hide FaceIndices, Split;
    var polygonIndices := ReadFaceIndices(Split(rest, BIG_DELIMITER));
    if polygonIndices.Throw? {
      return Throw(polygonIndices.error);
    }
    if |polygonIndices.value| != 3 {
      return Throw(InvalidArgument(NON_TRIANGULAR_FACE));
    }
    var ids := polygonIndices.value;
    return Ok(Face(ids[0], ids[1], ids[2]));
  }

  /** The `flipVertices` loop: the first two indices of every triangle swapped in place. */
  method FlipVertices(parsed: seq<Face>) returns (triangles: seq<Face>)
    ensures triangles == FlipAll(parsed)
  {
    triangles := parsed;
    for i := 0 to |triangles|
      invariant |triangles| == |parsed|
      invariant forall k :: 0 <= k < i ==> triangles[k] == Flip(parsed[k])
      invariant forall k :: i <= k < |triangles| ==> triangles[k] == parsed[k]
    {
      var a := triangles[i].At(0);
      var b := triangles[i].At(1);
      triangles := triangles[i := Face(b, a, triangles[i].c)];
    }
  }

  /**
    `loadTriangleMeshObj`, given the file's text: the first failing line's
    exception, or a new mesh of exactly the parsed vertices and (flipped when
    asked) triangles, with its edge and normal caches filled.
   */
  method LoadTriangleMeshObj(contents: string, flipVertices: bool, readVertex: string -> Vec3)
    returns (r: Result<TriangleMesh>)
    requires IndicesInRange(contents, readVertex)
    ensures var p := ParseObj(contents, readVertex);
            && (p.Throw? ==> r == Throw(p.error))
            && (p.Ok? ==> && r.Ok? && fresh(r.value)
                          && r.value.vertices == p.value.vertices
                          && r.value.triangles == LoadedTriangles(p.value, flipVertices)
                          && r.value.Valid())
  {
    hide Split, FaceRecord, FaceIndices, LineKind, LineRest, LinesOfKind;
    var lines := Split(contents, LINE_DELIMITER);
    var vertices: seq<Vec3> := [];
    var triangles: seq<Face> := [];
    for k := 0 to |lines|
      invariant ParseLines(lines[..k], readVertex) == Ok(ObjData(vertices, triangles))
    {
      var line := lines[k];
      assert lines[..k + 1][..k] == lines[..k];
      var bigToken := LineKind(line);
      if bigToken == "v" {
        vertices := vertices + [readVertex(LineRest(line))];
      } else if bigToken == "f" {
        var triangle := ReadFace(LineRest(line));
        if triangle.Throw? {
          ParseLinesPrefixThrows(lines, k + 1, readVertex);
          return Throw(triangle.error);
        }
        triangles := triangles + [triangle.value];
      }
    }
    assert lines[..|lines|] == lines;
    if flipVertices {
      FlipKeepsIndices(triangles, |vertices|);
      triangles := FlipVertices(triangles);
    }
    var triangleMesh := new TriangleMesh(vertices, triangles);
    triangleMesh.UpdateEdgesAndNormals();
    return Ok(triangleMesh);
  }
}
