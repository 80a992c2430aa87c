/** Meshes of src/mesh.cpp: the built-in cube, the Wavefront OBJ lexer
    (a cursor over the file's characters that appends tokens and
    identifiers) and the loop that assembles vertices and faces from the
    tokens.  `std::stoi` is modelled on the lexemes number() gives it,
    `std::stof` is a parameter of the lexer, and reading a float out of a
    token's payload is a parameter of the assembly.  Each character of the
    buffer stands for one byte of the file. */
module Mesh {
  import opened Ints
  import opened Vector

  // ---------------------------------------------------------------------
  // Meshes and the cube

  /** A triangle as three 1-based indices into the vertex list. */
  datatype Face = Face(a: int, b: int, c: int)

  datatype MeshData = MeshData(vertices: seq<Vec3>, faces: seq<Face>, colors: seq<bv32>,
                               rotation: Vec3, scale: Vec3, translate: Vec3)

  const N_CUBE_VERTICES: nat := 8
  const N_CUBE_FACES: nat := 6 * 2

  const CUBE_VERTICES: seq<Vec3> := [
    Vec3(-1.0, -1.0, -1.0), Vec3(-1.0, 1.0, -1.0), Vec3(1.0, 1.0, -1.0), Vec3(1.0, -1.0, -1.0),
    Vec3(1.0, 1.0, 1.0), Vec3(1.0, -1.0, 1.0), Vec3(-1.0, 1.0, 1.0), Vec3(-1.0, -1.0, 1.0)]

  /** Front, right, back, left, top, bottom: two triangles each. */
  const CUBE_FACES: seq<Face> := [
    Face(1, 2, 3), Face(1, 3, 4), Face(4, 3, 5), Face(4, 5, 6),
    Face(6, 5, 7), Face(6, 7, 8), Face(8, 7, 2), Face(8, 2, 1),
    Face(2, 7, 5), Face(2, 5, 3), Face(6, 8, 1), Face(6, 1, 4)]

  const CUBE_COLORS: seq<bv32> := [
    0xffff0000, 0xffff0000, 0xff00ff00, 0xff00ff00, 0xff0000ff, 0xff0000ff,
    0xffffff00, 0xffffff00, 0xffff00ff, 0xffff00ff, 0xff00ffff, 0xff00ffff]

  /** load_cube_mesh_data: the three tables pushed in order, scale (1, 1, 1).
      The source leaves rotation and translation uninitialised; here they
      are whatever the caller passes. */
  method LoadCubeMeshData(rotation: Vec3, translate: Vec3) returns (m: MeshData)
    ensures m.vertices == CUBE_VERTICES && m.faces == CUBE_FACES && m.colors == CUBE_COLORS
    ensures m.scale == Vec3(1.0, 1.0, 1.0) && m.rotation == rotation && m.translate == translate
  {
    var vertices: seq<Vec3> := [];
    var i := 0;
    while i < N_CUBE_VERTICES
      invariant i <= N_CUBE_VERTICES && vertices == CUBE_VERTICES[..i]
    {
      vertices := vertices + [CUBE_VERTICES[i]];
      i := i + 1;
    }
    var faces: seq<Face> := [];
    i := 0;
    while i < N_CUBE_FACES
      invariant i <= N_CUBE_FACES && faces == CUBE_FACES[..i]
    {
      faces := faces + [CUBE_FACES[i]];
      i := i + 1;
    }
    var colors: seq<bv32> := [];
    i := 0;
    while i < N_CUBE_FACES
      invariant i <= N_CUBE_FACES && colors == CUBE_COLORS[..i]
    {
      colors := colors + [CUBE_COLORS[i]];
      i := i + 1;
    }
    var scale := NewVec3([1.0, 1.0, 1.0]);
    m := MeshData(vertices, faces, colors, rotation, scale, translate);
  }

  /** Coordinate `axis` (0 = x, 1 = y, 2 = z) of a vector. */
  function Coord(v: Vec3, axis: nat): real
    requires axis < 3
  {
    if axis == 0 then v.x else if axis == 1 then v.y else v.z
  }

  /** The axis and value of the plane of side k of the cube. */
  const CUBE_SIDES: seq<(nat, real)> := [(2, -1.0), (0, 1.0), (2, 1.0), (0, -1.0), (1, 1.0), (1, -1.0)]

  /** The cube has 8 vertices and 12 faces with a colour each; every index
      is a valid 1-based vertex index; the two triangles of a side share
      its diagonal and its colour, and all their corners lie in the plane
      of that side. */
  lemma CubeTables()
    ensures |CUBE_VERTICES| == N_CUBE_VERTICES && |CUBE_FACES| == N_CUBE_FACES == |CUBE_COLORS|
    ensures forall k :: 0 <= k < N_CUBE_FACES ==>
      1 <= CUBE_FACES[k].a <= 8 && 1 <= CUBE_FACES[k].b <= 8 && 1 <= CUBE_FACES[k].c <= 8
    ensures forall s :: 0 <= s < 6 ==>
      && CUBE_COLORS[2 * s] == CUBE_COLORS[2 * s + 1]
      && CUBE_FACES[2 * s].a == CUBE_FACES[2 * s + 1].a && CUBE_FACES[2 * s].c == CUBE_FACES[2 * s + 1].b
  {
  }

  lemma CubeSides()
    ensures forall k :: 0 <= k < N_CUBE_FACES ==>
      var (axis, value) := CUBE_SIDES[k / 2];
      && axis < 3
      && Coord(CUBE_VERTICES[CUBE_FACES[k].a - 1], axis) == value
      && Coord(CUBE_VERTICES[CUBE_FACES[k].b - 1], axis) == value
      && Coord(CUBE_VERTICES[CUBE_FACES[k].c - 1], axis) == value
  {
    forall k | 0 <= k < N_CUBE_FACES
      ensures var (axis, value) := CUBE_SIDES[k / 2];
        && axis < 3
        && Coord(CUBE_VERTICES[CUBE_FACES[k].a - 1], axis) == value
        && Coord(CUBE_VERTICES[CUBE_FACES[k].b - 1], axis) == value
        && Coord(CUBE_VERTICES[CUBE_FACES[k].c - 1], axis) == value
    {
      assert k / 2 < 6;
    }
  }

  // ---------------------------------------------------------------------
  // Tokens

  /** Token::Type, in declaration order. */
  datatype Tag =
    | Uninitialized | Vertex | Normal | Uv | FaceTag | Surface | Object | Group
    | UseMtl | MtlLib | Int | Float | Identifier

  /** The numeric value of a tag in the enum. */
  function Ordinal(t: Tag): nat
  {
    match t
    case Uninitialized => 0 case Vertex => 1 case Normal => 2 case Uv => 3
    case FaceTag => 4 case Surface => 5 case Object => 6 case Group => 7
    case UseMtl => 8 case MtlLib => 9 case Int => 10 case Float => 11
    case Identifier => 12
  }

  /** The 32 bits of a token's payload union, read as a `u32`. */
  type Word = n: int | 0 <= n < U32_LIMIT

  /** A token: its tag and its payload. */
  datatype Token = Token(tag: Tag, word: Word)

  const KEYWORDS: seq<string> := ["v", "vn", "vt", "f", "s", "o", "g", "usemtl", "mtllib"]

  /** The tags `static_cast<Token::Type>(i + 1)` gives for keyword i. */
  const KEYWORD_TAGS: seq<Tag> := [Vertex, Normal, Uv, FaceTag, Surface, Object, Group, UseMtl, MtlLib]

  /** Keyword i gets the tag numbered i + 1, and no keyword gets INT,
      FLOAT or IDENTIFIER. */
  lemma KeywordTagsNumbered()
    ensures |KEYWORD_TAGS| == |KEYWORDS|
    ensures forall i :: 0 <= i < |KEYWORDS| ==>
      Ordinal(KEYWORD_TAGS[i]) == i + 1 && KEYWORD_TAGS[i] !in {Int, Float, Identifier}
  {
  }

  /** `(i32) n` stored in the payload: its two's-complement bits. */
  function I32Bits(n: int): Word
  {
    U32(n)
  }

  /** The payload read through the `i32` member. */
  function I32Of(w: Word): int
  {
    if w < 0x8000_0000 then w else w - U32_LIMIT
  }

  /** Storing an `i32` and reading it back gives the same value. */
  lemma I32RoundTrip(n: int)
    requires -0x8000_0000 <= n < 0x8000_0000
    ensures I32Of(I32Bits(n)) == n
  {
    if n < 0 {
      assert U32(n) == n + U32_LIMIT;
    }
  }

  // ---------------------------------------------------------------------
  // Character classes and runs

  /** `isdigit`, `isalpha` and `isgraph` in the C locale. */
  predicate IsDigit(c: char)
  {
    '0' <= c <= '9'
  }

  predicate IsAlpha(c: char)
  {
    'a' <= c <= 'z' || 'A' <= c <= 'Z'
  }

  predicate IsGraph(c: char)
  {
    '!' <= c <= '~'
  }

  predicate NotNewline(c: char)
  {
    c != '\n'
  }

  /** peek: the character at i, or '\0' past the end. */
  function PeekAt(b: string, i: nat): (c: char)
    ensures i >= |b| ==> c == '\0'
    ensures i < |b| ==> c == b[i]
  {
    if i >= |b| then '\0' else b[i]
  }

  /** peek_next: the character after i, or '\0' when there is none. */
  function PeekNextAt(b: string, i: nat): (c: char)
    ensures i + 1 >= |b| ==> c == '\0'
    ensures i + 1 < |b| ==> c == b[i + 1]
  {
    if i + 1 >= |b| then '\0' else b[i + 1]
  }

  /** Where a `while (kind(peek())) advance();` loop starting at i stops:
      the end of the run of characters of that kind. */
  function RunEnd(b: string, i: nat, kind: char -> bool): (j: nat)
    requires i <= |b|
    ensures i <= j <= |b|
    ensures forall k :: i <= k < j ==> kind(b[k])
    ensures j == |b| || !kind(b[j])
    decreases |b| - i
  {
    if i < |b| && kind(b[i]) then RunEnd(b, i + 1, kind) else i
  }

  // ---------------------------------------------------------------------
  // std::stoi

  /** A conversion that may throw: None stands for the exception. */
  datatype Option<T> = None | Some(value: T)

  /** The value of a run of decimal digits, most significant first. */
  function DigitsValue(d: string): (n: nat)
    requires forall k :: 0 <= k < |d| ==> IsDigit(d[k])
  {
    if d == [] then 0
    else
      assert IsDigit(d[|d| - 1]);
      10 * DigitsValue(d[..|d| - 1]) + (d[|d| - 1] as int - '0' as int)
  }

  /** `std::stoi`: an optional '-' and the digits after it, read in base
      10.  With no digit it throws `std::invalid_argument`, and with a value
      outside `i32` it throws `std::out_of_range`; both are None. */
  function Stoi(text: string): (r: Option<int>)
    ensures r.Some? ==> -0x8000_0000 <= r.value < 0x8000_0000
  {
    var sign := if |text| > 0 && text[0] == '-' then 1 else 0;
    var end := RunEnd(text, sign, IsDigit);
    var magnitude: int := DigitsValue(text[sign..end]);
    var n := if sign == 1 then -magnitude else magnitude;
    if end == sign || n < -0x8000_0000 || 0x8000_0000 <= n then None else Some(n)
  }

  /** The decimal digits of n, without leading zeros. */
  function Decimal(n: nat): (d: string)
    ensures |d| > 0 && forall k :: 0 <= k < |d| ==> IsDigit(d[k])
    decreases n
  {
    if n < 10 then [('0' as int + n) as char] else Decimal(n / 10) + [('0' as int + n % 10) as char]
  }

  lemma {:induction false} DecimalValue(n: nat)
    ensures DigitsValue(Decimal(n)) == n
    decreases n
  {
    var d := Decimal(n);
    if n >= 10 {
      DecimalValue(n / 10);
      assert d[..|d| - 1] == Decimal(n / 10);
    } else {
      assert d[..|d| - 1] == [];
    }
  }

  lemma {:induction false} RunToEnd(b: string, i: nat, kind: char -> bool)
    requires i <= |b| && forall k :: i <= k < |b| ==> kind(b[k])
    ensures RunEnd(b, i, kind) == |b|
    decreases |b| - i
  {
    if i < |b| {
      RunToEnd(b, i + 1, kind);
    }
  }

  /** std::stoi reads back every `i32` written in decimal, with a '-'
      before a negative one, and throws on every other magnitude. */
  lemma StoiDecimal(n: int)
    ensures var text := if n < 0 then "-" + Decimal(-n) else Decimal(n);
      Stoi(text) == if -0x8000_0000 <= n < 0x8000_0000 then Some(n) else None
  {
    var m: nat := if n < 0 then -n else n;
    var text := if n < 0 then "-" + Decimal(m) else Decimal(m);
    var sign := if n < 0 then 1 else 0;
    DecimalValue(m);
    assert text[sign..] == Decimal(m);
    assert sign == 1 <==> |text| > 0 && text[0] == '-';
    RunToEnd(text, sign, IsDigit);
    assert text[sign..|text|] == Decimal(m);
  }

  /** A lone '-' or an empty lexeme has no digit (invalid_argument); "-0"
      is zero. */
  lemma StoiNoDigits()
    ensures Stoi("-") == None && Stoi("") == None && Stoi("-0") == Some(0)
  {
  }

  /** A number continues after its digits with '.' and a digit. */
  predicate IsFloatLexeme(b: string, i: nat)
    requires i <= |b|
  {
    var j := RunEnd(b, i, IsDigit);
    PeekAt(b, j) == '.' && IsDigit(PeekNextAt(b, j))
  }

  /** Where number() stops, given the cursor after the first character. */
  function NumberEnd(b: string, i: nat): (j: nat)
    requires i <= |b|
    ensures i <= j <= |b|
    ensures forall k :: i <= k < j ==> IsDigit(b[k]) || b[k] == '.'
  {
    var j := RunEnd(b, i, IsDigit);
    if IsFloatLexeme(b, i) then RunEnd(b, j + 1, IsDigit) else j
  }

  /** Where keyword() stops: a run of letters, then, if a graphic character
      follows, the run of graphic characters. */
  function KeywordEnd(b: string, i: nat): (j: nat)
    requires i <= |b|
    ensures i <= j <= |b|
    ensures forall k :: i <= k < j ==> IsGraph(b[k])
  {
    var j := RunEnd(b, i, IsAlpha);
    if IsGraph(PeekAt(b, j)) then RunEnd(b, j + 1, IsGraph) else j
  }

  /** Letters are graphic, so keyword() reads exactly the maximal run of
      graphic characters. */
  lemma KeywordEndIsGraphRun(b: string, i: nat)
    requires i <= |b|
    ensures KeywordEnd(b, i) == RunEnd(b, i, IsGraph)
  {
    RunSub(b, i, IsAlpha, IsGraph);
  }

  /** A run of a class inside a larger class ends the larger run where the
      larger run from the end of the smaller one ends. */
  lemma {:induction false} RunSub(b: string, i: nat, small: char -> bool, large: char -> bool)
    requires i <= |b|
    requires forall c :: small(c) ==> large(c)
    ensures var j := RunEnd(b, i, small);
      RunEnd(b, i, large) == RunEnd(b, j, large)
      && (j < |b| && large(b[j]) ==> RunEnd(b, j, large) == RunEnd(b, j + 1, large))
    decreases |b| - i
  {
    if i < |b| && small(b[i]) {
      RunSub(b, i + 1, small, large);
    }
  }

  /** The first keyword equal to the word, or |KEYWORDS| when none is. */
  function KeywordIndex(word: string): (i: nat)
    ensures i <= |KEYWORDS|
    ensures i < |KEYWORDS| ==> KEYWORDS[i] == word
    ensures i == |KEYWORDS| <==> word !in KEYWORDS
  {
    KeywordFrom(word, 0)
  }

  function KeywordFrom(word: string, i: nat): (r: nat)
    requires i <= |KEYWORDS|
    ensures i <= r <= |KEYWORDS|
    ensures r < |KEYWORDS| ==> KEYWORDS[r] == word
    ensures forall j :: i <= j < r ==> KEYWORDS[j] != word
    ensures r == |KEYWORDS| ==> forall j :: i <= j < |KEYWORDS| ==> KEYWORDS[j] != word
    decreases |KEYWORDS| - i
  {
    if i == |KEYWORDS| then i else if KEYWORDS[i] == word then i else KeywordFrom(word, i + 1)
  }

  /** The search loop of keyword(): the index of the first keyword equal
      to the word, or the number of keywords when there is none. */
  method FindKeyword(word: string) returns (i: nat)
    ensures i <= |KEYWORDS|
    ensures i < |KEYWORDS| ==> KEYWORDS[i] == word
    ensures forall j :: 0 <= j < i ==> KEYWORDS[j] != word
    ensures i == KeywordIndex(word)
  {
    i := 0;
    while i < |KEYWORDS|
      invariant i <= |KEYWORDS|
      invariant forall j :: 0 <= j < i ==> KEYWORDS[j] != word
    {
      if KEYWORDS[i] == word {
        return;
      }
      i := i + 1;
    }
  }

  // ---------------------------------------------------------------------
  // The lexer as a function of its state

  /** The printed "unexpected character" report: the character, its line
      and `cursor - cursor_prev_line`. */
  datatype Diagnostic = Diagnostic(c: char, line: int, column: int)

  /** The lexer's globals: cursor, cursor_start, cursor_line,
      cursor_prev_line, token_buffer, id_buffer, and the reports; `aborted`
      records that a conversion in number() threw, which nothing catches. */
  datatype LexState = LexState(cursor: nat, start: nat, line: int, prevLine: int,
                               tokens: seq<Token>, ids: seq<string>, diagnostics: seq<Diagnostic>,
                               aborted: bool)

  /** The payload number() stores for a lexeme: `stof` of a fraction,
      the `i32` bits of `stoi` of an integer; None when the call throws. */
  function NumberValue(text: string, isFloat: bool, stof: string -> Option<Word>): (r: Option<Word>)
    ensures !isFloat ==> (r.None? <==> Stoi(text).None?)
    ensures !isFloat && r.Some? ==> I32Of(r.value) == Stoi(text).value
  {
    if isFloat then stof(text)
    else match Stoi(text) case None => None case Some(n) => (I32RoundTrip(n); Some(I32Bits(n)))
  }

  /** number(), entered with the cursor after the sign or first digit: the
      token is tagged FLOAT whether or not the lexeme has a fraction; a
      bare integer carries `stoi` of the lexeme in its `i32` payload.  A
      conversion that throws aborts the lexer with no token added. */
  function NumberStep(b: string, stof: string -> Option<Word>, s: LexState): (r: LexState)
    requires s.start <= s.cursor <= |b|
  {
    var j := NumberEnd(b, s.cursor);
    var text := b[s.start..j];
    var value := NumberValue(text, IsFloatLexeme(b, s.cursor), stof);
    if value.None? then s.(cursor := j, aborted := true)
    else s.(cursor := j, tokens := s.tokens + [Token(Float, value.value)])
  }

  /** The end of keyword(): a keyword gets its own tag and a zero payload;
      any other word is appended to the identifiers and its token carries
      the new index, as a `u32`. */
  function WordToken(s: LexState, word: string): (r: LexState)
  {
    var k := KeywordIndex(word);
    if k < |KEYWORDS| then s.(tokens := s.tokens + [Token(KEYWORD_TAGS[k], 0)])
    else s.(ids := s.ids + [word], tokens := s.tokens + [Token(Identifier, U32(|s.ids|))])
  }

  /** keyword(), entered with the cursor after the first letter. */
  function KeywordStep(b: string, s: LexState): (r: LexState)
    requires s.start <= s.cursor <= |b|
  {
    var j := KeywordEnd(b, s.cursor);
    WordToken(s.(cursor := j), b[s.start..j])
  }

  /** scan_token: one character, then what it starts. */
  function Step(b: string, stof: string -> Option<Word>, s: LexState): (r: LexState)
    requires s.start <= s.cursor < |b|
    ensures s.cursor < r.cursor <= |b| && r.start == s.start
  {
    var c := b[s.cursor];
    var a := s.(cursor := s.cursor + 1);
    match c
    case '#' => a.(cursor := RunEnd(b, a.cursor, NotNewline))
    case '\n' => a.(line := a.line + 1, prevLine := a.cursor)
    case ' ' | '/' | '\r' | '\t' => a
    case _ =>
      if c == '-' || IsDigit(c) then NumberStep(b, stof, a)
      else if IsAlpha(c) then KeywordStep(b, a)
      else a.(diagnostics := a.diagnostics + [Diagnostic(c, a.line, a.cursor - a.prevLine)])
  }

  /** The driver loop of load_obj: `cursor_start = cursor; scan_token();`
      until the cursor reaches the end or a conversion throws. */
  function LexFrom(b: string, stof: string -> Option<Word>, s: LexState): (r: LexState)
    requires s.cursor <= |b|
    ensures r.cursor <= |b| && (r.aborted || r.cursor == |b|)
    ensures s.aborted ==> r == s
    decreases |b| - s.cursor
  {
    if s.cursor >= |b| || s.aborted then s else LexFrom(b, stof, Step(b, stof, s.(start := s.cursor)))
  }

  /** The globals' initial values. */
  const START: LexState := LexState(0, 0, 1, 0, [], [], [], false)

  // ---------------------------------------------------------------------
  // The lexer as a class

  class Lexer {
    const buffer: string
    const stof: string -> Option<Word>
    var cursor: nat
    var cursorStart: nat
    var cursorLine: int
    var cursorPrevLine: int
    var tokens: seq<Token>
    var ids: seq<string>
    var diagnostics: seq<Diagnostic>
    var aborted: bool

    function State(): LexState
      reads this
    {
      LexState(cursor, cursorStart, cursorLine, cursorPrevLine, tokens, ids, diagnostics, aborted)
    }

    constructor (buffer: string, stof: string -> Option<Word>)
      ensures this.buffer == buffer && this.stof == stof
      ensures State() == START
    {
      this.buffer := buffer;
      this.stof := stof;
      cursor, cursorStart, cursorLine, cursorPrevLine := 0, 0, 1, 0;
      tokens, ids, diagnostics := [], [], [];
      aborted := false;
    }

    predicate IsAtEnd()
      reads this
    {
      cursor >= |buffer|
    }

    function Peek(): char
      reads this
    {
      PeekAt(buffer, cursor)
    }

    function PeekNext(): char
      reads this
    {
      PeekNextAt(buffer, cursor)
    }

    /** advance: the character under the cursor, which moves on by one. */
    method Advance() returns (c: char)
      requires cursor < |buffer|
      modifies this
      ensures c == buffer[old(cursor)]
      ensures State() == old(State()).(cursor := old(cursor) + 1)
    {
      c := buffer[cursor];
      cursor := cursor + 1;
    }

    /** add_token, add_token_i, add_token_f, add_token_u. */
    method AddToken(token: Token)
      modifies this
      ensures State() == old(State()).(tokens := old(tokens) + [token])
    {
      tokens := tokens + [token];
    }

    /** Advances over the run of characters of the kind under the cursor. */
    method SkipRun(kind: char -> bool)
      requires cursor <= |buffer| && !kind('\0')
      modifies this
      ensures State() == old(State()).(cursor := RunEnd(buffer, old(cursor), kind))
    {
      while kind(Peek())
        invariant old(cursor) <= cursor <= |buffer|
        invariant RunEnd(buffer, cursor, kind) == RunEnd(buffer, old(cursor), kind)
        invariant State() == old(State()).(cursor := cursor)
        decreases |buffer| - cursor
      {
        var _ := Advance();
      }
    }

    method Number()
      requires cursorStart <= cursor <= |buffer|
      modifies this
      ensures State() == NumberStep(buffer, stof, old(State()))
    {
      ghost var s0, end, float := State(), NumberEnd(buffer, cursor), IsFloatLexeme(buffer, cursor);
      SkipRun(IsDigit);
      var isFloat := false;
      if Peek() == '.' && IsDigit(PeekNext()) {
        var _ := Advance();
        isFloat := true;
        SkipRun(IsDigit);
      }
      assert isFloat == float && cursor == end;
      assert State() == s0.(cursor := end);
      var num := buffer[cursorStart..cursor];
      var value := NumberValue(num, isFloat, stof);
      if value.None? {
        aborted := true;
        return;
      }
      AddToken(Token(Float, value.value));
    }

    method Keyword()
      requires cursorStart <= cursor <= |buffer|
      modifies this
      ensures State() == KeywordStep(buffer, old(State()))
    {
      ghost var s0, end := State(), KeywordEnd(buffer, cursor);
      SkipRun(IsAlpha);
      if IsGraph(Peek()) {
        var _ := Advance();
        SkipRun(IsGraph);
      }
      assert State() == s0.(cursor := end);
      var word := buffer[cursorStart..cursor];
      AddWord(word);
    }

    method AddWord(word: string)
      modifies this
      ensures State() == WordToken(old(State()), word)
    {
      var i := FindKeyword(word);
      if i < |KEYWORDS| {
        AddToken(Token(KEYWORD_TAGS[i], 0));
      } else {
        ids := ids + [word];
        AddToken(Token(Identifier, U32(|ids| - 1)));
      }
    }

    method ScanToken()
      requires cursorStart <= cursor < |buffer|
      modifies this
      ensures State() == Step(buffer, stof, old(State()))
    {
      var c := Advance();
      match c
      case '#' =>
        while Peek() != '\n' && !IsAtEnd()
          invariant old(cursor) < cursor <= |buffer|
          invariant RunEnd(buffer, cursor, NotNewline) == RunEnd(buffer, old(cursor) + 1, NotNewline)
          invariant State() == old(State()).(cursor := cursor)
          decreases |buffer| - cursor
        {
          c := Advance();
        }
      case '\n' =>
        cursorLine := cursorLine + 1;
        cursorPrevLine := cursor;
      case ' ' | '/' | '\r' | '\t' =>
      case _ =>
        if c == '-' || IsDigit(c) {
          Number();
        } else if IsAlpha(c) {
          Keyword();
        } else {
          diagnostics := diagnostics + [Diagnostic(c, cursorLine, cursor - cursorPrevLine)];
        }
    }

    /** The lexing loop of load_obj, left when a conversion throws. */
    method Lex()
      requires cursor <= |buffer|
      modifies this
      ensures State() == LexFrom(buffer, stof, old(State()))
      ensures aborted || cursor == |buffer|
    {
      while !IsAtEnd() && !aborted
        invariant cursor <= |buffer|
        invariant LexFrom(buffer, stof, State()) == LexFrom(buffer, stof, old(State()))
        decreases |buffer| - cursor
      {
        cursorStart := cursor;
        ScanToken();
      }
    }
  }

  // ---------------------------------------------------------------------
  // What the lexer keeps

  /** The number of '\n' in b[..n]. */
  function Newlines(b: string, n: nat): nat
    requires n <= |b|
  {
    if n == 0 then 0 else Newlines(b, n - 1) + (if b[n - 1] == '\n' then 1 else 0)
  }

  /** The index just after the last '\n' in b[..n], or 0 if there is none. */
  function LineStart(b: string, n: nat): (r: nat)
    requires n <= |b|
    ensures r <= n
  {
    if n == 0 then 0 else if b[n - 1] == '\n' then n else LineStart(b, n - 1)
  }

  /** cursor_line is one more than the newlines before the cursor, and
      cursor_prev_line is where the cursor's line starts. */
  predicate LinesTracked(b: string, s: LexState)
  {
    s.cursor <= |b| && s.line == 1 + Newlines(b, s.cursor) && s.prevLine == LineStart(b, s.cursor)
  }

  lemma {:induction false} NoNewlines(b: string, i: nat, j: nat)
    requires i <= j <= |b|
    requires forall k :: i <= k < j ==> b[k] != '\n'
    ensures Newlines(b, j) == Newlines(b, i) && LineStart(b, j) == LineStart(b, i)
    decreases j - i
  {
    if i < j {
      NoNewlines(b, i, j - 1);
    }
  }

  /** Apart from the newline case, scan_token consumes no '\n' (comments,
      numbers and words stop in front of it) and leaves the line count and
      the line start as they were. */
  lemma StepLineFree(b: string, stof: string -> Option<Word>, s: LexState)
    requires s.start <= s.cursor < |b| && b[s.cursor] != '\n'
    ensures var r := Step(b, stof, s);
      && r.line == s.line && r.prevLine == s.prevLine
      && forall k :: s.cursor <= k < r.cursor ==> b[k] != '\n'
  {
    var r := Step(b, stof, s);
    var c := b[s.cursor];
    var a := s.(cursor := s.cursor + 1);
    if c == '#' {
      assert r == a.(cursor := RunEnd(b, a.cursor, NotNewline));
    } else if c == ' ' || c == '/' || c == '\r' || c == '\t' {
      assert r == a;
    } else if c == '-' || IsDigit(c) {
      assert r == NumberStep(b, stof, a);
    } else if IsAlpha(c) {
      assert r == KeywordStep(b, a);
    } else {
      assert r.cursor == a.cursor;
    }
  }

  /** scan_token keeps the line count and the line start exact; a report
      gives the 1-based line and column of the unexpected character. */
  lemma StepTracksLines(b: string, stof: string -> Option<Word>, s: LexState)
    requires s.start <= s.cursor < |b| && LinesTracked(b, s)
    ensures var r := Step(b, stof, s);
      && LinesTracked(b, r)
      && (|r.diagnostics| > |s.diagnostics| ==>
            r.diagnostics == s.diagnostics + [Diagnostic(b[s.cursor], 1 + Newlines(b, s.cursor), s.cursor - LineStart(b, s.cursor) + 1)])
  {
    var r := Step(b, stof, s);
    if b[s.cursor] == '\n' {
      assert Newlines(b, s.cursor + 1) == Newlines(b, s.cursor) + 1;
    } else {
      StepLineFree(b, stof, s);
      NoNewlines(b, s.cursor, r.cursor);
      assert LineStart(b, s.cursor + 1) == LineStart(b, s.cursor);
    }
  }

  /** Lexing keeps the line count and the line start exact; unless a
      conversion threw, the cursor ends at the end with cursor_line one
      more than the number of newlines. */
  lemma {:induction false} LexTracksLines(b: string, stof: string -> Option<Word>, s: LexState)
    requires LinesTracked(b, s)
    ensures LinesTracked(b, LexFrom(b, stof, s))
    ensures !LexFrom(b, stof, s).aborted ==> LexFrom(b, stof, s).line == 1 + Newlines(b, |b|)
    decreases |b| - s.cursor
  {
    if s.cursor < |b| && !s.aborted {
      StepTracksLines(b, stof, s.(start := s.cursor));
      LexTracksLines(b, stof, Step(b, stof, s.(start := s.cursor)));
    }
  }

  /** No token is ever tagged INT: a bare integer is tagged FLOAT. */
  predicate NoIntTokens(ts: seq<Token>)
  {
    forall k :: 0 <= k < |ts| ==> ts[k].tag != Int
  }

  lemma {:induction false} LexNeverInt(b: string, stof: string -> Option<Word>, s: LexState)
    requires s.cursor <= |b| && NoIntTokens(s.tokens)
    ensures NoIntTokens(LexFrom(b, stof, s).tokens)
    decreases |b| - s.cursor
  {
    if s.cursor < |b| && !s.aborted {
      var r := Step(b, stof, s.(start := s.cursor));
      assert NoIntTokens(r.tokens) by {
        KeywordTagsNumbered();
      }
      LexNeverInt(b, stof, r);
    }
  }

  /** The number of IDENTIFIER tokens. */
  function Identifiers(ts: seq<Token>): nat
  {
    if ts == [] then 0 else Identifiers(ts[..|ts| - 1]) + (if ts[|ts| - 1].tag == Identifier then 1 else 0)
  }

  /** The identifiers are exactly the IDENTIFIER tokens, in order: the
      k-th such token carries k, its index in id_buffer. */
  predicate IdsIndexed(s: LexState)
  {
    && |s.ids| == Identifiers(s.tokens) && |s.ids| <= s.cursor
    && forall k :: 0 <= k < |s.tokens| && s.tokens[k].tag == Identifier ==> s.tokens[k].word == Identifiers(s.tokens[..k])
  }

  lemma AppendToken(s: LexState, r: LexState)
    requires IdsIndexed(s) && s.cursor < r.cursor
    requires |r.tokens| == |s.tokens| + 1 && r.tokens[..|s.tokens|] == s.tokens
    requires |r.ids| == |s.ids| + (if r.tokens[|s.tokens|].tag == Identifier then 1 else 0)
    requires r.tokens[|s.tokens|].tag == Identifier ==> r.tokens[|s.tokens|].word == |s.ids|
    ensures IdsIndexed(r)
  {
    assert r.tokens[..|r.tokens| - 1] == s.tokens;
    forall k | 0 <= k < |r.tokens| && r.tokens[k].tag == Identifier
      ensures r.tokens[k].word == Identifiers(r.tokens[..k])
    {
      if k < |s.tokens| {
        assert r.tokens[..k] == s.tokens[..k];
      }
    }
  }

  /** r has the tokens and identifiers of s, or one more token and, when
      that token is an IDENTIFIER, one more identifier whose index it
      carries. */
  predicate AppendsOne(s: LexState, r: LexState)
  {
    || (r.tokens == s.tokens && r.ids == s.ids)
    || (&& |r.tokens| == |s.tokens| + 1 && r.tokens[..|s.tokens|] == s.tokens
        && |r.ids| == |s.ids| + (if r.tokens[|s.tokens|].tag == Identifier then 1 else 0)
        && (r.tokens[|s.tokens|].tag == Identifier ==> r.tokens[|s.tokens|].word == |s.ids|))
  }

  lemma NumberAppends(b: string, stof: string -> Option<Word>, s: LexState)
    requires s.start <= s.cursor <= |b|
    ensures AppendsOne(s, NumberStep(b, stof, s))
  {
    var r := NumberStep(b, stof, s);
    if !r.aborted {
      assert r.tokens[..|s.tokens|] == s.tokens;
    }
  }

  lemma KeywordAppends(b: string, s: LexState)
    requires s.start <= s.cursor <= |b| && |s.ids| < U32_LIMIT
    ensures AppendsOne(s, KeywordStep(b, s))
  {
    var j := KeywordEnd(b, s.cursor);
    var r := WordToken(s.(cursor := j), b[s.start..j]);
    assert r.tokens[..|s.tokens|] == s.tokens;
  }

  /** scan_token appends at most one token; an identifier's token carries
      the count of identifiers before it. */
  lemma StepAppends(b: string, stof: string -> Option<Word>, s: LexState)
    requires s.start <= s.cursor < |b| && |s.ids| < U32_LIMIT
    ensures AppendsOne(s, Step(b, stof, s))
  {
    var c := b[s.cursor];
    var a := s.(cursor := s.cursor + 1);
    if c == '-' || IsDigit(c) {
      NumberAppends(b, stof, a);
      assert Step(b, stof, s) == NumberStep(b, stof, a);
    } else if IsAlpha(c) {
      KeywordAppends(b, a);
      assert Step(b, stof, s) == KeywordStep(b, a);
    }
  }

  /** scan_token keeps the identifiers indexed, as long as their count
      fits the `u32` payload. */
  lemma StepIndexesIds(b: string, stof: string -> Option<Word>, s: LexState)
    requires s.start <= s.cursor < |b| && |b| < U32_LIMIT && IdsIndexed(s)
    ensures IdsIndexed(Step(b, stof, s))
  {
    var r := Step(b, stof, s);
    StepAppends(b, stof, s);
    if r.tokens != s.tokens || r.ids != s.ids {
      AppendToken(s, r);
    }
  }

  lemma {:induction false} LexIndexesIds(b: string, stof: string -> Option<Word>, s: LexState)
    requires s.cursor <= |b| < U32_LIMIT && IdsIndexed(s)
    ensures IdsIndexed(LexFrom(b, stof, s))
    decreases |b| - s.cursor
  {
    if s.cursor < |b| && !s.aborted {
      StepIndexesIds(b, stof, s.(start := s.cursor));
      LexIndexesIds(b, stof, Step(b, stof, s.(start := s.cursor)));
    }
  }

  /** Lexing a buffer from the initial state: cursor_line and
      cursor_prev_line track the cursor, which ends at the end unless a
      conversion threw; no token is tagged INT, and every IDENTIFIER token
      carries its own index into id_buffer. */
  lemma Lexed(b: string, stof: string -> Option<Word>)
    requires |b| < U32_LIMIT
    ensures var r := LexFrom(b, stof, START);
      && (r.aborted || r.cursor == |b|)
      && r.line == 1 + Newlines(b, r.cursor) && r.prevLine == LineStart(b, r.cursor)
      && NoIntTokens(r.tokens) && IdsIndexed(r)
  {
    LexTracksLines(b, stof, START);
    LexNeverInt(b, stof, START);
    LexIndexesIds(b, stof, START);
  }

  // ---------------------------------------------------------------------
  // Assembly

  /** How far the assembly loop moves past a token: a VERTEX and its
      three payloads, a FACE and the seven tokens up to its third vertex
      index, or the token alone. */
  function Stride(tag: Tag): (n: nat)
    ensures 1 <= n <= 8
  {
    if tag == Vertex then 4 else if tag == FaceTag then 8 else 1
  }

  /** The token reads of the assembly loop stay inside the token buffer:
      three payloads after each VERTEX reached, seven after each FACE. */
  predicate Assemblable(t: seq<Token>, i: nat)
    decreases |t| - i
  {
    i >= |t| || (i + Stride(t[i].tag) <= |t| && Assemblable(t, i + Stride(t[i].tag)))
  }

  /** The vertices the loop collects from index i on: each VERTEX gives
      the `f32` payloads of the next three tokens. */
  function Vertices(t: seq<Token>, i: nat, asFloat: Word -> real): seq<Vec3>
    requires Assemblable(t, i)
    decreases |t| - i
  {
    if i >= |t| then []
    else if t[i].tag == Vertex then
      [Vec3(asFloat(t[i + 1].word), asFloat(t[i + 2].word), asFloat(t[i + 3].word))] + Vertices(t, i + 4, asFloat)
    else Vertices(t, i + Stride(t[i].tag), asFloat)
  }

  /** The faces the loop collects from index i on: each FACE gives the
      `i32` payloads of the tokens 1, 4 and 7 after it, kept 1-based. */
  function Faces(t: seq<Token>, i: nat): seq<Face>
    requires Assemblable(t, i)
    decreases |t| - i
  {
    if i >= |t| then []
    else if t[i].tag == FaceTag then
      [Face(I32Of(t[i + 1].word), I32Of(t[i + 4].word), I32Of(t[i + 7].word))] + Faces(t, i + 8)
    else Faces(t, i + Stride(t[i].tag))
  }

  /** The assembly loop of load_obj.  The source leaves rotation, scale and
      translation of the new mesh uninitialised; here the caller gives them. */
  method AssembleMesh(tokens: seq<Token>, asFloat: Word -> real, rotation: Vec3, scale: Vec3, translate: Vec3)
    returns (m: MeshData)
    requires Assemblable(tokens, 0)
    ensures m == MeshData(Vertices(tokens, 0, asFloat), Faces(tokens, 0), [], rotation, scale, translate)
  {
    var vertices: seq<Vec3> := [];
    var faces: seq<Face> := [];
    var i := 0;
    while i < |tokens|
      invariant Assemblable(tokens, i)
      invariant vertices + Vertices(tokens, i, asFloat) == Vertices(tokens, 0, asFloat)
      invariant faces + Faces(tokens, i) == Faces(tokens, 0)
      decreases |tokens| - i
    {
      ghost var next := i + Stride(tokens[i].tag);
      ghost var vs, fs := Vertices(tokens, next, asFloat), Faces(tokens, next);
      if tokens[i].tag == Vertex {
        var v := Vec3(asFloat(tokens[i + 1].word), asFloat(tokens[i + 2].word), asFloat(tokens[i + 3].word));
        assert Vertices(tokens, i, asFloat) == [v] + vs && Faces(tokens, i) == fs;
        assert (vertices + [v]) + vs == vertices + ([v] + vs);
        vertices := vertices + [v];
        i := i + 3;
      } else if tokens[i].tag == FaceTag {
        var f := Face(I32Of(tokens[i + 1].word), I32Of(tokens[i + 4].word), I32Of(tokens[i + 7].word));
        assert Faces(tokens, i) == [f] + fs && Vertices(tokens, i, asFloat) == vs;
        assert (faces + [f]) + fs == faces + ([f] + fs);
        faces := faces + [f];
        i := i + 7;
      } else {
        assert Vertices(tokens, i, asFloat) == vs && Faces(tokens, i) == fs;
      }
      i := i + 1;
    }
    m := MeshData(vertices, faces, [], rotation, scale, translate);
  }

  /** load_obj: lex the whole file from the initial state, then assemble;
      None when a conversion threw and the program ends. */
  method LoadObj(buffer: string, stof: string -> Option<Word>, asFloat: Word -> real,
                 rotation: Vec3, scale: Vec3, translate: Vec3) returns (m: Option<MeshData>)
    requires var r := LexFrom(buffer, stof, START); !r.aborted ==> Assemblable(r.tokens, 0)
    ensures var r := LexFrom(buffer, stof, START);
      && (m.None? <==> r.aborted)
      && (m.Some? ==> m.value == MeshData(Vertices(r.tokens, 0, asFloat), Faces(r.tokens, 0), [], rotation, scale, translate))
  {
    var lexer := new Lexer(buffer, stof);
    lexer.Lex();
    if lexer.aborted {
      return None;
    }
    var mesh := AssembleMesh(lexer.tokens, asFloat, rotation, scale, translate);
    m := Some(mesh);
  }

  /** A '-' with no digit after it makes std::stoi throw: lexing "- "
      aborts before any token. */
  lemma LoneMinusAborts(stof: string -> Option<Word>)
    ensures LexFrom("- ", stof, START).aborted && LexFrom("- ", stof, START).tokens == []
  {
  }

  /** Assembly from a position inside a suffix does not depend on what
      precedes the suffix. */
  lemma {:induction false} AssemblyShift(p: seq<Token>, u: seq<Token>, j: nat, asFloat: Word -> real)
    requires Assemblable(u, j)
    ensures Assemblable(p + u, |p| + j)
    ensures Vertices(p + u, |p| + j, asFloat) == Vertices(u, j, asFloat)
    ensures Faces(p + u, |p| + j) == Faces(u, j)
    decreases |u| - j
  {
    if j < |u| {
      var t := p + u;
      var n := |p| + j;
      assert t[n] == u[j];
      AssemblyShift(p, u, j + Stride(u[j].tag), asFloat);
      if u[j].tag == Vertex {
        assert t[n + 1] == u[j + 1] && t[n + 2] == u[j + 2] && t[n + 3] == u[j + 3];
      } else if u[j].tag == FaceTag {
        assert t[n + 1] == u[j + 1] && t[n + 4] == u[j + 4] && t[n + 7] == u[j + 7];
      }
    }
  }

  /** The walk over a well-formed token list ends exactly at its end, so
      the mesh of two concatenated token lists is the concatenation of
      their meshes: a file's mesh is built line by line. */
  lemma AssemblyConcat(t: seq<Token>, u: seq<Token>, i: nat, asFloat: Word -> real)
    requires i <= |t| && Assemblable(t, i) && Assemblable(u, 0)
    ensures Assemblable(t + u, i)
    ensures Vertices(t + u, i, asFloat) == Vertices(t, i, asFloat) + Vertices(u, 0, asFloat)
    ensures Faces(t + u, i) == Faces(t, i) + Faces(u, 0)
  {
    VerticesConcat(t, u, i, asFloat);
    FacesConcat(t, u, i);
  }

  lemma {:induction false} VerticesConcat(t: seq<Token>, u: seq<Token>, i: nat, asFloat: Word -> real)
    requires i <= |t| && Assemblable(t, i) && Assemblable(u, 0)
    ensures Assemblable(t + u, i)
    ensures Vertices(t + u, i, asFloat) == Vertices(t, i, asFloat) + Vertices(u, 0, asFloat)
    decreases |t| - i
  {
    if i == |t| {
      AssemblyShift(t, u, 0, asFloat);
    } else {
      var tu := t + u;
      assert tu[i] == t[i];
      var n := i + Stride(t[i].tag);
      VerticesConcat(t, u, n, asFloat);
      if t[i].tag == Vertex {
        assert tu[i + 1] == t[i + 1] && tu[i + 2] == t[i + 2] && tu[i + 3] == t[i + 3];
        var v := Vec3(asFloat(t[i + 1].word), asFloat(t[i + 2].word), asFloat(t[i + 3].word));
        assert [v] + (Vertices(t, n, asFloat) + Vertices(u, 0, asFloat)) == ([v] + Vertices(t, n, asFloat)) + Vertices(u, 0, asFloat);
      }
    }
  }

  lemma {:induction false} FacesConcat(t: seq<Token>, u: seq<Token>, i: nat)
    requires i <= |t| && Assemblable(t, i) && Assemblable(u, 0)
    ensures Assemblable(t + u, i)
    ensures Faces(t + u, i) == Faces(t, i) + Faces(u, 0)
    decreases |t| - i
  {
    if i == |t| {
      AssemblyShift(t, u, 0, x => 0.0);
    } else {
      var tu := t + u;
      assert tu[i] == t[i];
      var n := i + Stride(t[i].tag);
      FacesConcat(t, u, n);
      if t[i].tag == FaceTag {
        assert tu[i + 1] == t[i + 1] && tu[i + 4] == t[i + 4] && tu[i + 7] == t[i + 7];
        var f := Face(I32Of(t[i + 1].word), I32Of(t[i + 4].word), I32Of(t[i + 7].word));
        assert [f] + (Faces(t, n) + Faces(u, 0)) == ([f] + Faces(t, n)) + Faces(u, 0);
      }
    }
  }

  /** The tokens of a line `v x y z` give one vertex from the three payloads. */
  lemma VertexLine(x: Token, y: Token, z: Token, asFloat: Word -> real)
    ensures Assemblable([Token(Vertex, 0), x, y, z], 0)
    ensures Vertices([Token(Vertex, 0), x, y, z], 0, asFloat) == [Vec3(asFloat(x.word), asFloat(y.word), asFloat(z.word))]
    ensures Faces([Token(Vertex, 0), x, y, z], 0) == []
  {
    var t := [Token(Vertex, 0), x, y, z];
    var v := Vec3(asFloat(x.word), asFloat(y.word), asFloat(z.word));
    assert Assemblable(t, 4) && Vertices(t, 4, asFloat) == [] && Faces(t, 4) == [];
    assert Vertices(t, 0, asFloat) == [v] + [];
  }

  /** The nine number tokens of a line `f v/t/n v/t/n v/t/n` give one face
      of the three vertex indices, as written in the file; the loop resumes
      at the eighth number and passes over the last two. */
  lemma FaceLine(ns: seq<Token>, asFloat: Word -> real)
    requires |ns| == 9 && forall k :: 0 <= k < 9 ==> ns[k].tag == Float
    ensures Assemblable([Token(FaceTag, 0)] + ns, 0)
    ensures Vertices([Token(FaceTag, 0)] + ns, 0, asFloat) == []
    ensures Faces([Token(FaceTag, 0)] + ns, 0) == [Face(I32Of(ns[0].word), I32Of(ns[3].word), I32Of(ns[6].word))]
  {
    var t := [Token(FaceTag, 0)] + ns;
    assert t[1] == ns[0] && t[4] == ns[3] && t[7] == ns[6];
    assert t[8] == ns[7] && t[9] == ns[8];
    assert Assemblable(t, 10) && Assemblable(t, 9) && Assemblable(t, 8);
    assert Vertices(t, 8, asFloat) == Vertices(t, 9, asFloat) == [];
    assert Faces(t, 8) == Faces(t, 9) == [];
    var f := Face(I32Of(ns[0].word), I32Of(ns[3].word), I32Of(ns[6].word));
    assert Faces(t, 0) == [f] + [];
  }
}
