/**
 * The projector calibration (`Assets.Scripts.ARClasses.CalibrationData`):
 * reading number blocks out of the calibration document, the layout of the
 * matrices built from them, the camera intrinsics set from the server's
 * reply, and the lock protocol around fetching that reply.
 *
 * The XML document is given as a map from a child element's name to its
 * inner text; `float.TryParse` is the oracle `parse`.
 */
module CalibrationData {
  import opened Wrappers
  import opened Linear

  /** The number oracle standing for `float.TryParse(s, NumberStyles.Float, InvariantCulture)`. */
  type ParseFloat = string -> Option<real>

  // ---------------------------------------------------------------------
  // Splitting text the way `Split(' ', '\n', RemoveEmptyEntries)` does.
  //
  // That call binds to `Split(char separator, int count, options)`: the
  // character '\n' is converted to the count 10. So the text is split on
  // spaces only, into at most ten pieces, the tenth holding the rest.
  // ---------------------------------------------------------------------

  const Separator: char := ' '
  const SplitCount: nat := '\n' as nat

  /** Drops the separators at the front of `s`. */
  function SkipSeparators(s: string, sep: char): (r: string)
    ensures |r| <= |s|
    ensures r == [] || r[0] != sep
  {
    if s != [] && s[0] == sep then SkipSeparators(s[1..], sep) else s
  }

  /** The index of the first `c` in `s`, or `|s|` when there is none. */
  function IndexOf(s: string, c: char): (k: nat)
    ensures k <= |s|
    ensures forall j :: 0 <= j < k ==> s[j] != c
    ensures k < |s| ==> s[k] == c
  {
    if s == [] || s[0] == c then 0 else 1 + IndexOf(s[1..], c)
  }

  /**
   * .NET's `Split(sep, slots, RemoveEmptyEntries)`: with one slot the whole
   * text, unless it is empty; otherwise the pieces of `SplitPieces`.
   */
  function SplitLimited(s: string, sep: char, slots: nat): (r: seq<string>)
    requires slots >= 1
    ensures |r| <= slots
    ensures slots == 1 ==> r == (if s == [] then [] else [s])
  {
    if slots == 1 then (if s == [] then [] else [s]) else SplitPieces(s, sep, slots)
  }

  /**
   * The non-empty pieces between separators, at most `slots` of them; once
   * `slots - 1` pieces are taken, the rest of the text after its leading
   * separators is the last piece, separators and all.
   */
  function SplitPieces(s: string, sep: char, slots: nat): (r: seq<string>)
    requires slots >= 1
    ensures |r| <= slots
    decreases |s|
  {
    var rest := SkipSeparators(s, sep);
    if rest == [] then []
    else if slots == 1 then [rest]
    else
      var k := IndexOf(rest, sep);
      if k == |rest| then [rest] else [rest[..k]] + SplitPieces(rest[k + 1..], sep, slots - 1)
  }

  /** All non-empty pieces between separators: splitting without a count. */
  function Words(s: string, sep: char): seq<string>
    decreases |s|
  {
    var rest := SkipSeparators(s, sep);
    if rest == [] then []
    else
      var k := IndexOf(rest, sep);
      if k == |rest| then [rest] else [rest[..k]] + Words(rest[k + 1..], sep)
  }

  /** The tokens `ReadMatrixData` takes from a block's text. */
  function Tokens(text: string): (r: seq<string>)
    ensures |r| <= SplitCount
    ensures forall k :: 0 <= k < |r| ==> r[k] != []
    ensures forall k :: 0 <= k < |r| - 1 ==> Separator !in r[k]
  {
    SplitLimitedPieces(text, Separator, SplitCount);
    SplitLimited(text, Separator, SplitCount)
  }

  /** Every piece is non-empty, and only the last may contain a separator. */
  lemma {:induction false} SplitLimitedPieces(s: string, sep: char, slots: nat)
    requires slots >= 1
    ensures forall k :: 0 <= k < |SplitLimited(s, sep, slots)| ==> SplitLimited(s, sep, slots)[k] != []
    ensures forall k :: 0 <= k < |SplitLimited(s, sep, slots)| - 1 ==> sep !in SplitLimited(s, sep, slots)[k]
  {
    if slots > 1 {
      SplitPiecesShape(s, sep, slots);
    }
  }

  /** The same for the pieces after the first slot. */
  lemma {:induction false} SplitPiecesShape(s: string, sep: char, slots: nat)
    requires slots >= 1
    ensures forall k :: 0 <= k < |SplitPieces(s, sep, slots)| ==> SplitPieces(s, sep, slots)[k] != []
    ensures forall k :: 0 <= k < |SplitPieces(s, sep, slots)| - 1 ==> sep !in SplitPieces(s, sep, slots)[k]
    decreases |s|
  {
    var rest := SkipSeparators(s, sep);
    if rest != [] && slots > 1 {
      var k := IndexOf(rest, sep);
      if k < |rest| {
        var head, tail := rest[..k], SplitPieces(rest[k + 1..], sep, slots - 1);
        SplitPiecesShape(rest[k + 1..], sep, slots - 1);
        assert SplitPieces(s, sep, slots) == [head] + tail;
        assert head != [] && sep !in head by {
          assert rest[0] != sep;
          forall j | 0 <= j < k ensures head[j] != sep { }
        }
      }
    }
  }

  /**
   * With fewer words than slots, the count never comes into play: the split
   * is the words, except that one slot keeps a non-empty text whole.
   */
  lemma {:induction false} SplitLimitedIsWords(s: string, sep: char, slots: nat)
    requires slots >= 1 && |Words(s, sep)| < slots
    ensures slots >= 2 || s == [] ==> SplitLimited(s, sep, slots) == Words(s, sep)
    ensures slots == 1 && s != [] ==> SplitLimited(s, sep, slots) == [s]
  {
    if slots >= 2 {
      SplitPiecesIsWords(s, sep, slots);
    }
  }

  /** The pieces are the words when there are fewer words than slots. */
  lemma {:induction false} SplitPiecesIsWords(s: string, sep: char, slots: nat)
    requires slots >= 1 && |Words(s, sep)| < slots
    ensures SplitPieces(s, sep, slots) == Words(s, sep)
    decreases |s|
  {
    var rest := SkipSeparators(s, sep);
    if rest != [] {
      var k := IndexOf(rest, sep);
      if k < |rest| {
        SplitPiecesIsWords(rest[k + 1..], sep, slots - 1);
      }
    }
  }

  /** A block of fewer than ten space-separated numbers is split into exactly its words. */
  lemma {:induction false} TokensAreWords(text: string)
    requires |Words(text, Separator)| < SplitCount
    ensures Tokens(text) == Words(text, Separator)
  {
    SplitLimitedIsWords(text, Separator, SplitCount);
  }

  /** A newline does not separate tokens: text without spaces is one token. */
  lemma {:induction false} NewlineDoesNotSeparate(text: string)
    requires text != [] && Separator !in text
    ensures Tokens(text) == [text]
  {
    assert IndexOf(text, Separator) == |text|;
  }

  /**
   * A rotation block whose numbers are separated by line breaks alone is a
   * single token, so loading the document fails on the index check.
   */
  lemma {:induction false} LineSeparatedRotationFails(doc: map<string, string>)
    requires HasBlocks(doc) && doc["rotation"] != [] && Separator !in doc["rotation"]
    ensures |Tokens(doc["rotation"])| == 1
    ensures LoadFailure(doc) == Some(IndexOutOfRange)
  {
    NewlineDoesNotSeparate(doc["rotation"]);
  }

  // ---------------------------------------------------------------------
  // Parsing tokens and packing the values.
  // ---------------------------------------------------------------------

  /** `s.TrimEnd('.')`. */
  function TrimEndDots(s: string): string {
    if s != [] && s[|s| - 1] == '.' then TrimEndDots(s[..|s| - 1]) else s
  }

  /** Trimming keeps the longest prefix not ending in '.'; everything it drops is a dot. */
  lemma {:induction false} TrimEndDotsSpec(s: string)
    ensures TrimEndDots(s) <= s
    ensures TrimEndDots(s) == [] || TrimEndDots(s)[|TrimEndDots(s)| - 1] != '.'
    ensures forall k :: |TrimEndDots(s)| <= k < |s| ==> s[k] == '.'
    decreases |s|
  {
    if s != [] && s[|s| - 1] == '.' {
      TrimEndDotsSpec(s[..|s| - 1]);
    }
  }

  /** Trimming twice is trimming once. */
  lemma {:induction false} TrimEndDotsIdempotent(s: string)
    ensures TrimEndDots(TrimEndDots(s)) == TrimEndDots(s)
  {
    TrimEndDotsSpec(s);
  }

  /** What one token contributes: its value when it parses after trimming, nothing otherwise. */
  function ParsedToken(t: string, parse: ParseFloat): seq<real> {
    match parse(TrimEndDots(t))
    case Some(v) => [v]
    case None => []
  }

  /** The values of the tokens that parse, in token order. */
  function Parsed(tokens: seq<string>, parse: ParseFloat): (r: seq<real>)
    ensures |r| <= |tokens|
  {
    if tokens == [] then []
    else Parsed(tokens[..|tokens| - 1], parse) + ParsedToken(tokens[|tokens| - 1], parse)
  }

  function Zeros(n: nat): (r: seq<real>)
    ensures |r| == n && forall k :: 0 <= k < n ==> r[k] == 0.0
  {
    seq(n, _ => 0.0)
  }

  /** The array `ReadMatrixData` returns: the parsed values packed to the front, zeros behind. */
  function Packed(tokens: seq<string>, parse: ParseFloat): seq<real> {
    Parsed(tokens, parse) + Zeros(|tokens| - |Parsed(tokens, parse)|)
  }

  /** `ReadMatrixData`: one slot per token, the successful parses first, in order. */
  method ReadMatrixData(matrixData: string, parse: ParseFloat) returns (matrix: array<real>)
    ensures matrix[..] == Packed(Tokens(matrixData), parse)
  {
    matrix := PackValues(Tokens(matrixData), parse);
  }

  /** The loop of `ReadMatrixData` over the tokens. */
  method PackValues(values: seq<string>, parse: ParseFloat) returns (matrix: array<real>)
    ensures matrix[..] == Packed(values, parse)
  {
    matrix := new real[|values|](_ => 0.0);
    var count := 0;
    ghost var done: seq<real> := [];
    for i := 0 to |values|
      invariant done == Parsed(values[..i], parse)
      invariant count == |done| <= i
      invariant matrix.Length == |values|
      invariant forall k :: 0 <= k < count ==> matrix[k] == done[k]
      invariant forall k :: count <= k < matrix.Length ==> matrix[k] == 0.0
    {
      ParsedStep(values, i, parse);
      var currentValue := TrimEndDots(values[i]);
      match parse(currentValue) {
        case Some(value) =>
          matrix[count] := value;
          count := count + 1;
          done := done + [value];
        case None =>
      }
    }
    assert values[..|values|] == values;
    assert matrix[..] == Packed(values, parse);
  }

  /** A token appended at the end adds its own contribution at the end. */
  lemma {:induction false} ParsedSnoc(a: seq<string>, t: string, parse: ParseFloat)
    ensures Parsed(a + [t], parse) == Parsed(a, parse) + ParsedToken(t, parse)
  {
    assert (a + [t])[..|a + [t]| - 1] == a;
  }

  /** One more token of the same sequence adds its contribution at the end. */
  lemma {:induction false} ParsedStep(tokens: seq<string>, i: nat, parse: ParseFloat)
    requires i < |tokens|
    ensures Parsed(tokens[..i + 1], parse) == Parsed(tokens[..i], parse) + ParsedToken(tokens[i], parse)
  {
    assert tokens[..i + 1] == tokens[..i] + [tokens[i]];
    ParsedSnoc(tokens[..i], tokens[i], parse);
  }

  /** Splitting the tokens splits the parsed values. */
  lemma {:induction false} ParsedAppend(a: seq<string>, b: seq<string>, parse: ParseFloat)
    ensures Parsed(a + b, parse) == Parsed(a, parse) + Parsed(b, parse)
    decreases |b|
  {
    if b == [] {
      assert a + b == a;
    } else {
      var b' := b[..|b| - 1];
      assert (a + b)[..|a + b| - 1] == a + b';
      assert (a + b)[|a + b| - 1] == b[|b| - 1];
      ParsedAppend(a, b', parse);
    }
  }

  /** A token that still fails after trimming is skipped: it leaves no slot of its own. */
  lemma {:induction false} FailedTokenSkipped(a: seq<string>, t: string, b: seq<string>, parse: ParseFloat)
    requires parse(TrimEndDots(t)) == None
    ensures Parsed(a + [t] + b, parse) == Parsed(a + b, parse)
  {
    ParsedAppend(a + [t], b, parse);
    ParsedSnoc(a, t, parse);
    ParsedAppend(a, b, parse);
  }

  /**
   * The value of a token that parses lands in the slot numbered by the
   * successful parses before it: slot k holds the k-th successful value.
   */
  lemma {:induction false} ParsedSlot(tokens: seq<string>, j: nat, parse: ParseFloat)
    requires j < |tokens| && parse(TrimEndDots(tokens[j])).Some?
    ensures |Parsed(tokens[..j], parse)| < |Parsed(tokens, parse)|
    ensures Packed(tokens, parse)[|Parsed(tokens[..j], parse)|] == parse(TrimEndDots(tokens[j])).value
  {
    assert tokens == tokens[..j] + [tokens[j]] + tokens[j + 1..];
    ParsedAppend(tokens[..j] + [tokens[j]], tokens[j + 1..], parse);
    ParsedSnoc(tokens[..j], tokens[j], parse);
  }

  /** When every token parses, the array holds exactly the parsed values, and no zeros are appended. */
  lemma {:induction false} AllParsed(tokens: seq<string>, parse: ParseFloat)
    requires forall k :: 0 <= k < |tokens| ==> parse(TrimEndDots(tokens[k])).Some?
    ensures |Parsed(tokens, parse)| == |tokens|
    ensures forall k :: 0 <= k < |tokens| ==> Packed(tokens, parse)[k] == parse(TrimEndDots(tokens[k])).value
    decreases |tokens|
  {
    if tokens != [] {
      var front := tokens[..|tokens| - 1];
      AllParsed(front, parse);
      assert Parsed(tokens, parse) == Parsed(front, parse) + [parse(TrimEndDots(tokens[|tokens| - 1])).value];
      forall k | 0 <= k < |tokens|
        ensures Packed(tokens, parse)[k] == parse(TrimEndDots(tokens[k])).value
      {
        if k < |front| {
          assert front[k] == tokens[k];
          assert Packed(front, parse)[k] == Parsed(front, parse)[k];
        }
      }
    }
  }

  // ---------------------------------------------------------------------
  // Layout of the matrices built from the blocks.
  // ---------------------------------------------------------------------

  /** `imgShape`: the file lists height first, the array holds width first; `(int)` truncates. */
  function ImgShapeOf(d: seq<real>): seq<int>
    requires |d| >= 2
  {
    [Trunc(d[1]), Trunc(d[0])]
  }

  function Column3Scaled(d: seq<real>, c: nat, k: real): Vec4
    requires 3 * c + 2 < |d|
  {
    Scale4(Vec4(d[3 * c], d[3 * c + 1], d[3 * c + 2], 0.0), k)
  }

  /** `ProjInt`: each group of three values is a COLUMN, scaled by 0.001. */
  function ProjIntOf(d: seq<real>): Mat4
    requires |d| >= 9
  {
    FromColumns(Column3Scaled(d, 0, 0.001), Column3Scaled(d, 1, 0.001), Column3Scaled(d, 2, 0.001), UnitW)
  }

  /** `Rotation`: the same column layout, not scaled. */
  function RotationOf(d: seq<real>): Mat4
    requires |d| >= 9
  {
    FromColumns(Vec4(d[0], d[1], d[2], 0.0), Vec4(d[3], d[4], d[5], 0.0), Vec4(d[6], d[7], d[8], 0.0), UnitW)
  }

  /** `Translation`: the second and third values swap places; millimetres become metres. */
  function TranslationOf(d: seq<real>): Vec3
    requires |d| >= 3
  {
    Scale3(Vec3(d[0], d[2], d[1]), 0.001)
  }

  /** `extrinsic`: identity with its top three rows set from the rotation rows and the translation. */
  function ExtrinsicOf(rotation: Mat4, translation: Vec3): Mat4 {
    var e := SetRow(Identity, 0, Vec4(At(rotation, 0, 0), At(rotation, 0, 1), At(rotation, 0, 2), Comp3(translation, 0)));
    var e := SetRow(e, 1, Vec4(At(rotation, 1, 0), At(rotation, 1, 1), At(rotation, 1, 2), Comp3(translation, 1)));
    SetRow(e, 2, Vec4(At(rotation, 2, 0), At(rotation, 2, 1), At(rotation, 2, 2), Comp3(translation, 2)))
  }

  /** Entry (i, j) of the intrinsic block is value 3j + i scaled by 0.001; the rest is (0, 0, 0, 1). */
  lemma {:induction false} ProjIntLayout(d: seq<real>)
    requires |d| >= 9
    ensures forall i, j :: 0 <= i < 3 && 0 <= j < 3 ==> At(ProjIntOf(d), i, j) == d[3 * j + i] * 0.001
    ensures Affine(ProjIntOf(d)) && Col(ProjIntOf(d), 3) == UnitW
  {
    var m := ProjIntOf(d);
    forall i, j | 0 <= i < 3 && 0 <= j < 3
      ensures At(m, i, j) == d[3 * j + i] * 0.001
    {
      assert At(m, i, j) == Comp(Col(m, j), i);
    }
  }

  /** Entry (i, j) of the rotation is value 3j + i, unscaled; the rest is (0, 0, 0, 1). */
  lemma {:induction false} RotationLayout(d: seq<real>)
    requires |d| >= 9
    ensures forall i, j :: 0 <= i < 3 && 0 <= j < 3 ==> At(RotationOf(d), i, j) == d[3 * j + i]
    ensures Affine(RotationOf(d)) && Col(RotationOf(d), 3) == UnitW
  {
    var m := RotationOf(d);
    forall i, j | 0 <= i < 3 && 0 <= j < 3
      ensures At(m, i, j) == d[3 * j + i]
    {
      assert At(m, i, j) == Comp(Col(m, j), i);
    }
  }

  /** Row i < 3 of the extrinsic is the rotation's row i followed by translation component i; row 3 stays (0, 0, 0, 1). */
  lemma {:induction false} ExtrinsicLayout(rotation: Mat4, translation: Vec3)
    ensures forall i :: 0 <= i < 3 ==>
      Row(ExtrinsicOf(rotation, translation), i)
        == Vec4(At(rotation, i, 0), At(rotation, i, 1), At(rotation, i, 2), Comp3(translation, i))
    ensures Affine(ExtrinsicOf(rotation, translation))
  {
  }

  // ---------------------------------------------------------------------
  // The server's camera parameters and the lock protocol around them.
  // ---------------------------------------------------------------------

  /** `IO.Swagger.Model.CameraParameters`; `distCoefs` may be null. */
  datatype CameraParameters = CameraParameters(fx: real, fy: real, cx: real, cy: real, distCoefs: Option<seq<real>>)

  /** `CamMatrix` after `SetCamCalibFromParams`: identity, then Cx, Cy, Fx, Fy written in that order. */
  function CamMatrixOf(fx: real, fy: real, cx: real, cy: real): Mat4 {
    var m := SetAt(Identity, 0, 2, cx);
    var m := SetAt(m, 1, 2, cy);
    var m := SetAt(m, 0, 0, fx);
    SetAt(m, 1, 1, fy)
  }

  /** The four written entries read back, and every other entry is the identity's. */
  lemma {:induction false} CamMatrixEntries(fx: real, fy: real, cx: real, cy: real)
    ensures At(CamMatrixOf(fx, fy, cx, cy), 0, 0) == fx && At(CamMatrixOf(fx, fy, cx, cy), 1, 1) == fy
    ensures At(CamMatrixOf(fx, fy, cx, cy), 0, 2) == cx && At(CamMatrixOf(fx, fy, cx, cy), 1, 2) == cy
    ensures forall i, j ::
      (0 <= i < 4 && 0 <= j < 4 && (i, j) != (0, 0) && (i, j) != (1, 1) && (i, j) != (0, 2) && (i, j) != (1, 2))
      ==> At(CamMatrixOf(fx, fy, cx, cy), i, j) == At(Identity, i, j)
  {
  }

  /** The remote calls `GetCameraParameters` makes, in order. */
  datatype Rpc = WriteLock | WriteUnlock | GetCameraColorParameters

  /**
   * How each await of `GetCameraParameters` ends: `true` when the call
   * completes, `false` when it throws `RequestFailedException`. There is one
   * field per call site (CalibrationData.cs lines 135, 139, 140, 145, 147 and 151); each site
   * is reached at most once per call.
   */
  datatype Replies = Replies(
    lock: bool, forcedUnlock: bool, relock: bool,
    fetched: Option<CameraParameters>, unlock: bool, recoveryUnlock: bool)

  /**
   * What one `GetCameraParameters` call does: the remote calls issued, the
   * parameters applied, whether an exception escapes, and whether this
   * client still holds the write lock at the end.
   */
  datatype Trace = Trace(calls: seq<Rpc>, applied: Option<CameraParameters>, escapes: bool, holdsLock: bool)

  /** Whether the method ever holds the lock: the first lock, or the retry after the forced unlock. */
  predicate Acquires(r: Replies) {
    r.lock || (r.forcedUnlock && r.relock)
  }

  function LockProtocol(r: Replies): Trace {
    if !r.lock && !r.forcedUnlock then Trace([WriteLock, WriteUnlock], None, true, false)
    else if !r.lock && !r.relock then Trace([WriteLock, WriteUnlock, WriteLock], None, true, false)
    else
      var before := if r.lock then [WriteLock] else [WriteLock, WriteUnlock, WriteLock];
      match r.fetched
      case None =>
        Trace(before + [GetCameraColorParameters, WriteUnlock], None, !r.recoveryUnlock, !r.recoveryUnlock)
      case Some(p) =>
        if r.unlock then Trace(before + [GetCameraColorParameters, WriteUnlock], Some(p), false, false)
        else Trace(before + [GetCameraColorParameters, WriteUnlock, WriteUnlock], Some(p), !r.recoveryUnlock, !r.recoveryUnlock)
  }

  function Count(calls: seq<Rpc>, c: Rpc): nat {
    |set k | 0 <= k < |calls| && calls[k] == c|
  }

  /** At most two `WriteLock` calls; the second only after a failed first and a completed `WriteUnlock`. */
  lemma {:induction false} AtMostTwoLocks(r: Replies)
    ensures var t := LockProtocol(r);
      (forall k :: 0 <= k < |t.calls| && t.calls[k] == WriteLock ==> k == 0 || k == 2)
      && (|t.calls| > 2 && t.calls[2] == WriteLock ==> !r.lock && r.forcedUnlock && t.calls[..3] == [WriteLock, WriteUnlock, WriteLock])
  {
  }

  /** When the lock is never acquired the exception escapes before any fetch, and nothing is applied. */
  lemma {:induction false} FailedRetryEscapes(r: Replies)
    requires !Acquires(r)
    ensures LockProtocol(r).escapes && LockProtocol(r).applied == None
    ensures GetCameraColorParameters !in LockProtocol(r).calls
  {
  }

  /**
   * Once the lock is held, the fetch is issued and directly followed by a
   * `WriteUnlock`, whether it returns or fails; the last call is a
   * `WriteUnlock`; and the lock stays held only when every unlock failed.
   */
  lemma {:induction false} UnlockAfterLock(r: Replies)
    requires Acquires(r)
    ensures var t := LockProtocol(r);
      exists k :: 0 <= k < |t.calls| - 1 && t.calls[k] == GetCameraColorParameters && t.calls[k + 1] == WriteUnlock
    ensures var t := LockProtocol(r); t.calls[|t.calls| - 1] == WriteUnlock
    ensures LockProtocol(r).applied == r.fetched
    ensures LockProtocol(r).holdsLock <==> !r.recoveryUnlock && (r.fetched.None? || !r.unlock)
  {
    var t := LockProtocol(r);
    var k := if r.lock then 1 else 3;
    assert t.calls[k] == GetCameraColorParameters && t.calls[k + 1] == WriteUnlock;
  }

  // ---------------------------------------------------------------------
  // The calibration object.
  // ---------------------------------------------------------------------

  class CalibrationData {
    var camMatrix: Mat4
    var imgShape: array<int>
    var extrinsic: Mat4
    var rotation: Mat4
    var translation: Vec3
    var camDist: Option<seq<real>>
    var projInt: Mat4

    ghost predicate Valid()
      reads this
    {
      imgShape.Length == 2
    }

    function CamFx(): real reads this { At(camMatrix, 0, 0) }
    function CamFy(): real reads this { At(camMatrix, 1, 1) }
    function CamCx(): real reads this { At(camMatrix, 0, 2) }
    function CamCy(): real reads this { At(camMatrix, 1, 2) }

    function Width(): int
      reads this, imgShape
      requires Valid()
    {
      imgShape[0]
    }

    function Height(): int
      reads this, imgShape
      requires Valid()
    {
      imgShape[1]
    }

    /** The fields laid out from the four packed blocks as the constructor does it. */
    ghost predicate Laid(imgShapeData: seq<real>, rotationData: seq<real>,
                         translationData: seq<real>, projIntData: seq<real>)
      reads this, imgShape
    {
      && Valid()
      && |imgShapeData| >= 2 && |rotationData| >= 9 && |translationData| >= 3 && |projIntData| >= 9
      && Width() == Trunc(imgShapeData[1]) && Height() == Trunc(imgShapeData[0])
      && projInt == ProjIntOf(projIntData) && rotation == RotationOf(rotationData)
      && translation == TranslationOf(translationData)
      && extrinsic == ExtrinsicOf(rotation, translation)
    }

    /** The field assignments of the constructor once the four blocks are read (CalibrationData.cs lines 89-117). */
    constructor FromBlocks(imgShapeData: seq<real>, rotationData: seq<real>,
                           translationData: seq<real>, projIntData: seq<real>)
      requires |imgShapeData| >= 2 && |rotationData| >= 9 && |translationData| >= 3 && |projIntData| >= 9
      ensures Valid() && fresh(imgShape)
      ensures Laid(imgShapeData, rotationData, translationData, projIntData)
      ensures camMatrix == ZeroMat && camDist == None
    {
      camMatrix := ZeroMat;
      camDist := None;
      var shape := ImgShapeOf(imgShapeData);
      imgShape := new int[2](i requires 0 <= i < 2 => shape[i]);
      projInt := ProjIntOf(projIntData);
      rotation := RotationOf(rotationData);
      translation := TranslationOf(translationData);
      new;
      var e := Identity;
      e := SetRow(e, 0, Vec4(At(rotation, 0, 0), At(rotation, 0, 1), At(rotation, 0, 2), Comp3(translation, 0)));
      e := SetRow(e, 1, Vec4(At(rotation, 1, 0), At(rotation, 1, 1), At(rotation, 1, 2), Comp3(translation, 1)));
      e := SetRow(e, 2, Vec4(At(rotation, 2, 0), At(rotation, 2, 1), At(rotation, 2, 2), Comp3(translation, 2)));
      extrinsic := e;
    }

    /** `SetCamCalibFromParams`: intrinsics from the server's reply, then the distortion coefficients. */
    method SetCamCalibFromParams(p: CameraParameters)
      modifies this`camMatrix, this`camDist
      ensures camMatrix == CamMatrixOf(p.fx, p.fy, p.cx, p.cy) && camDist == p.distCoefs
      ensures CamFx() == p.fx && CamFy() == p.fy && CamCx() == p.cx && CamCy() == p.cy
    {
      camMatrix := Identity;
      camMatrix := SetAt(camMatrix, 0, 2, p.cx);
      camMatrix := SetAt(camMatrix, 1, 2, p.cy);
      camMatrix := SetAt(camMatrix, 0, 0, p.fx);
      camMatrix := SetAt(camMatrix, 1, 1, p.fy);
      camDist := p.distCoefs;
    }

    /**
     * `GetCameraParameters`, as the sequence of remote calls it makes. The
     * kinect id is passed to every call and plays no part here.
     */
    method GetCameraParameters(r: Replies) returns (calls: seq<Rpc>, escapes: bool)
      modifies this`camMatrix, this`camDist
      ensures calls == LockProtocol(r).calls && escapes == LockProtocol(r).escapes
      ensures LockProtocol(r).applied.Some? ==>
        camMatrix == CamMatrixOf(r.fetched.value.fx, r.fetched.value.fy, r.fetched.value.cx, r.fetched.value.cy)
        && camDist == r.fetched.value.distCoefs
      ensures LockProtocol(r).applied.None? ==> camMatrix == old(camMatrix) && camDist == old(camDist)
    {
      calls := [WriteLock];
      if !r.lock {
        calls := calls + [WriteUnlock];
        if !r.forcedUnlock { return calls, true; }
        calls := calls + [WriteLock];
        if !r.relock { return calls, true; }
      }
      calls := calls + [GetCameraColorParameters];
      match r.fetched {
        case None =>
          calls := calls + [WriteUnlock];
          escapes := !r.recoveryUnlock;
        case Some(p) =>
          SetCamCalibFromParams(p);
          calls := calls + [WriteUnlock];
          escapes := false;
          if !r.unlock {
            calls := calls + [WriteUnlock];
            escapes := !r.recoveryUnlock;
          }
      }
    }
  }

  /** The four blocks the constructor reads are all present. */
  predicate HasBlocks(doc: map<string, string>) {
    "img_shape" in doc && "rotation" in doc && "translation" in doc && "proj_int" in doc
  }

  /**
   * The exception the constructor throws, if any: a missing block faults
   * when its text is read (NullReferenceException); a block with fewer
   * tokens than the indices used (img_shape 2, proj_int 9, rotation 9,
   * translation 3) faults when indexed (IndexOutOfRangeException).
   * Malformed numbers are no error: they become zeros at the end.
   */
  function LoadFailure(doc: map<string, string>): Option<Exception> {
    if !HasBlocks(doc) then Some(NullReference)
    else if |Tokens(doc["img_shape"])| < 2 || |Tokens(doc["proj_int"])| < 9
         || |Tokens(doc["rotation"])| < 9 || |Tokens(doc["translation"])| < 3
    then Some(IndexOutOfRange)
    else None
  }

  /**
   * `new CalibrationData(xmlPath)` on a document already loaded. It fails
   * exactly as `LoadFailure` says; otherwise every field is laid out from
   * the packed blocks.
   */
  method Load(doc: map<string, string>, parse: ParseFloat) returns (r: Result<CalibrationData>)
    ensures r.Throws? <==> LoadFailure(doc).Some?
    ensures r.Throws? ==> r.error == LoadFailure(doc).value
    ensures r.Ok? ==> HasBlocks(doc) && fresh(r.value) && fresh(r.value.imgShape) && r.value.Valid()
    ensures r.Ok? && HasBlocks(doc) ==> r.value.Laid(
      Packed(Tokens(doc["img_shape"]), parse), Packed(Tokens(doc["rotation"]), parse),
      Packed(Tokens(doc["translation"]), parse), Packed(Tokens(doc["proj_int"]), parse))
  {
    if !HasBlocks(doc) {
      return Throws(NullReference);
    }
    var imgShapeData := ReadMatrixData(doc["img_shape"], parse);
    var rotationData := ReadMatrixData(doc["rotation"], parse);
    var translationData := ReadMatrixData(doc["translation"], parse);
    var projIntData := ReadMatrixData(doc["proj_int"], parse);
    if imgShapeData.Length < 2 || projIntData.Length < 9 || rotationData.Length < 9 || translationData.Length < 3 {
      return Throws(IndexOutOfRange);
    }
    var c := new CalibrationData.FromBlocks(imgShapeData[..], rotationData[..], translationData[..], projIntData[..]);
    return Ok(c);
  }
}
