/**
 * The configuration `main` reads from "GL_warp2mp4.ini": a fixed positional
 * layout of whitespace-separated words. Three comment words, the output
 * width, a comment word, the output height, a comment word, the output
 * four-character code, a comment word and the mesh path. Without the file
 * the built-in defaults stay in force.
 *
 * The file is modelled as its sequence of words. Each `infile >> x`
 * follows the C++ extraction rules for the type of `x`:
 *   - once a read has failed, every later read fails and stores nothing;
 *   - at the end of the words a read fails and stores nothing;
 *   - `>> int` takes an optional sign and the digits after it, and leaves the
 *     rest of the word in the stream for the next read; without digits it
 *     stores 0 and fails; out of range it stores INT_MAX or INT_MIN and fails;
 *   - `>> char[]` stores the word followed by a NUL.
 */
module IniConfig {
  import opened Types

  /** One whitespace-delimited word of the file (the words are the file cut at whitespace). */
  type Token = t: string | t != [] witness "x"

  predicate IsDigit(c: char)
  {
    '0' <= c <= '9'
  }

  /** The number of consecutive digits of `t` starting at `i`. */
  function DigitRun(t: string, i: nat): (d: nat)
    requires i <= |t|
    ensures i + d <= |t|
    ensures forall j :: i <= j < i + d ==> IsDigit(t[j])
    ensures i + d < |t| ==> !IsDigit(t[i + d])
    decreases |t| - i
  {
    if i < |t| && IsDigit(t[i]) then 1 + DigitRun(t, i + 1) else 0
  }

  /** The value of a string of decimal digits. */
  function DecimalValue(ds: string): nat
    requires forall j :: 0 <= j < |ds| ==> IsDigit(ds[j])
  {
    if ds == [] then 0
    else
      assert IsDigit(ds[|ds| - 1]);
      10 * DecimalValue(ds[..|ds| - 1]) + (ds[|ds| - 1] as int - '0' as int)
  }

  /** The state of `infile`: the words not yet consumed and the fail bit. */
  datatype Stream = Stream(rest: seq<Token>, failed: bool)

  /** The result of one extraction: the new stream state and the target's new value. */
  datatype Read<T> = Read(stream: Stream, value: T)

  function Open(tokens: seq<Token>): Stream
  {
    Stream(tokens, false)
  }

  /** `infile >> str` for a `std::string` target. */
  function ExtractWord(s: Stream, prev: string): (r: Read<string>)
    ensures !s.failed && s.rest != [] ==> r.stream == Stream(s.rest[1..], false) && r.value == s.rest[0]
    ensures s.failed || s.rest == [] ==> r.stream.failed && r.value == prev
  {
    if s.failed || s.rest == [] then Read(s.(failed := true), prev)
    else Read(Stream(s.rest[1..], false), s.rest[0])
  }

  /** The length of the optional sign that starts a number. */
  function SignLength(t: Token): (n: nat)
    ensures n <= 1 && n <= |t|
  {
    if t[0] == '+' || t[0] == '-' then 1 else 0
  }

  /** The whole word is an optionally signed decimal number that fits an `int`. */
  predicate IsWholeInt(t: Token)
  {
    var sg := SignLength(t);
    var d := DigitRun(t, sg);
    d > 0 && sg + d == |t| && IntMin <= SignedValue(t, sg, d) <= IntMax
  }

  function SignedValue(t: Token, sg: nat, d: nat): int
    requires sg + d <= |t|
    requires forall j :: sg <= j < sg + d ==> IsDigit(t[j])
  {
    var mag: int := DecimalValue(t[sg..sg + d]);
    if t[0] == '-' then -mag else mag
  }

  /** The value of a whole-number word. */
  function IntValue(t: Token): (n: Int32)
    requires IsWholeInt(t)
  {
    var sg := SignLength(t);
    SignedValue(t, sg, DigitRun(t, sg))
  }

  /** `infile >> n` for an `int` target. */
  function ExtractInt(s: Stream, prev: Int32): (r: Read<Int32>)
    ensures s.failed || s.rest == [] ==> r.stream.failed && r.value == prev
    ensures !s.failed && s.rest != [] && IsWholeInt(s.rest[0]) ==>
      r == Read(Stream(s.rest[1..], false), IntValue(s.rest[0]))
  {
    if s.failed || s.rest == [] then Read(s.(failed := true), prev)
    else
      var t := s.rest[0];
      var sg := SignLength(t);
      var d := DigitRun(t, sg);
      if d == 0 then Read(Stream(s.rest[1..], true), 0)
      else
        var v := SignedValue(t, sg, d);
        var tail := t[sg + d..];
        var rest := if tail == [] then s.rest[1..] else [tail] + s.rest[1..];
        if v > IntMax then Read(Stream(rest, true), IntMax)
        else if v < IntMin then Read(Stream(rest, true), IntMin)
        else Read(Stream(rest, false), v)
  }

  /** `infile >> n` on a good stream with a word left, case by case. */
  lemma ExtractIntCases(s: Stream, prev: Int32)
    requires !s.failed && s.rest != []
    // no digits after the optional sign: 0 is stored and the stream fails
    ensures var r := ExtractInt(s, prev);
      DigitRun(s.rest[0], SignLength(s.rest[0])) == 0 ==> r.stream.failed && r.value == 0
    // digits: the value saturates at the bounds of `int`, failing the stream when it does;
    // in range, the stream stays good and the rest of the word is the next word
    ensures var r := ExtractInt(s, prev);
      DigitRun(s.rest[0], SignLength(s.rest[0])) > 0 ==>
      var t := s.rest[0];
      var sg := SignLength(t);
      var d := DigitRun(t, sg);
      var v := SignedValue(t, sg, d);
      && (v > IntMax ==> r.stream.failed && r.value == IntMax)
      && (v < IntMin ==> r.stream.failed && r.value == IntMin)
      && (IntMin <= v <= IntMax ==>
            && r.value == v && !r.stream.failed
            && r.stream.rest == (if sg + d == |t| then [] else [t[sg + d..]]) + s.rest[1..])
  {
    var t := s.rest[0];
    var sg := SignLength(t);
    var d := DigitRun(t, sg);
    var r := ExtractInt(s, prev);
    if d == 0 {
      assert r == Read(Stream(s.rest[1..], true), 0);
    } else {
      var v := SignedValue(t, sg, d);
      var tail := t[sg + d..];
      assert tail == [] <==> sg + d == |t|;
      var rest := if tail == [] then s.rest[1..] else [tail] + s.rest[1..];
      if v > IntMax {
        assert r == Read(Stream(rest, true), IntMax);
      } else if v < IntMin {
        assert r == Read(Stream(rest, true), IntMin);
      } else {
        assert r == Read(Stream(rest, false), v);
      }
    }
  }

  /** The first four cells of `outputfourccstr`, the only ones the program reads. */
  type CodeCells = s: seq<char> | |s| == 4 witness "XVID"

  /** The first four cells of the `char` buffer after `t` and its terminating NUL are stored. */
  function StoreWord(buf: CodeCells, t: Token): (r: CodeCells)
    ensures forall k :: 0 <= k < 4 ==> r[k] == if k < |t| then t[k] else if k == |t| then '\0' else buf[k]
  {
    [Cell(buf, t, 0), Cell(buf, t, 1), Cell(buf, t, 2), Cell(buf, t, 3)]
  }

  function Cell(buf: CodeCells, t: Token, k: nat): char
    requires k < 4
  {
    if k < |t| then t[k] else if k == |t| then '\0' else buf[k]
  }

  /** `infile >> outputfourccstr`, seen through the four cells the program uses. */
  function ExtractChars(s: Stream, buf: CodeCells): (r: Read<CodeCells>)
    ensures s.failed || s.rest == [] ==> r.stream.failed && r.value == buf
    ensures !s.failed && s.rest != [] ==> r == Read(Stream(s.rest[1..], false), StoreWord(buf, s.rest[0]))
  {
    if s.failed || s.rest == [] then Read(s.(failed := true), buf)
    else Read(Stream(s.rest[1..], false), StoreWord(buf, s.rest[0]))
  }

  /** The settings the file can override. */
  datatype Config = Config(width: Int32, height: Int32, fourcc: CodeCells, meshPath: string)

  const Defaults: Config := Config(1920, 1080, "XVID", "EP_xyuv_1920.map")

  /** The role of each word of the file, in order. */
  datatype Slot = Comment | Width | Height | FourCCCode | MeshPath

  const Layout: seq<Slot> := [Comment, Comment, Comment, Width, Comment, Height, Comment, FourCCCode, Comment, MeshPath]

  /** One extraction into a slot's target. Comment words go to a scratch string. */
  function ReadSlot(slot: Slot, s: Stream, cfg: Config): (r: Read<Config>)
    // a read changes its own target only, and nothing at all once the stream has failed
    ensures slot != Width ==> r.value.width == cfg.width
    ensures slot != Height ==> r.value.height == cfg.height
    ensures slot != FourCCCode ==> r.value.fourcc == cfg.fourcc
    ensures slot != MeshPath ==> r.value.meshPath == cfg.meshPath
    ensures s.failed ==> r.stream.failed && r.value == cfg
  {
    match slot
    case Comment => Read(ExtractWord(s, "").stream, cfg)
    case Width => var n := ExtractInt(s, cfg.width); Read(n.stream, cfg.(width := n.value))
    case Height => var n := ExtractInt(s, cfg.height); Read(n.stream, cfg.(height := n.value))
    case FourCCCode => var b := ExtractChars(s, cfg.fourcc); Read(b.stream, cfg.(fourcc := b.value))
    case MeshPath => var w := ExtractWord(s, cfg.meshPath); Read(w.stream, cfg.(meshPath := w.value))
  }

  /** Reading a plan of slots one after the other. */
  function Interpret(plan: seq<Slot>, s: Stream, cfg: Config): (r: Config)
  {
    if plan == [] then cfg
    else
      var step := ReadSlot(plan[0], s, cfg);
      Interpret(plan[1..], step.stream, step.value)
  }

  /** A setting whose slot the plan does not hold keeps its value. */
  lemma {:induction false} InterpretFrames(plan: seq<Slot>, s: Stream, cfg: Config)
    ensures var r := Interpret(plan, s, cfg);
      && (Width !in plan ==> r.width == cfg.width)
      && (Height !in plan ==> r.height == cfg.height)
      && (FourCCCode !in plan ==> r.fourcc == cfg.fourcc)
      && (MeshPath !in plan ==> r.meshPath == cfg.meshPath)
    decreases |plan|
  {
    if plan != [] {
      var step := ReadSlot(plan[0], s, cfg);
      assert plan == [plan[0]] + plan[1..];
      InterpretFrames(plan[1..], step.stream, step.value);
    }
  }

  /** The configuration in force after the ini block of `main`: None when the file does not open. */
  function IniSettings(file: Option<seq<Token>>): Config
  {
    match file
    case None => Defaults
    case Some(tokens) => Interpret(Layout, Open(tokens), Defaults)
  }

  /** The file lays out all four values: at least ten words, with whole numbers at 3 and 5,
      and a code word that fits `outputfourccstr` with its NUL (fewer than 40 characters). */
  predicate WellFormed(tokens: seq<Token>)
  {
    |tokens| >= 10 && IsWholeInt(tokens[3]) && IsWholeInt(tokens[5]) && |tokens[7]| < 40
  }

  /** Once the stream has failed, no later read changes any setting. */
  lemma {:induction false} FailedStreamKeepsConfig(plan: seq<Slot>, s: Stream, cfg: Config)
    requires s.failed
    ensures Interpret(plan, s, cfg) == cfg
    decreases |plan|
  {
    if plan != [] {
      var step := ReadSlot(plan[0], s, cfg);
      assert step.value == cfg && step.stream.failed;
      FailedStreamKeepsConfig(plan[1..], step.stream, step.value);
    }
  }

  /** One step of reading the layout from slot k on. */
  lemma Unfold(k: nat, s: Stream, cfg: Config)
    requires k < |Layout|
    ensures var r := ReadSlot(Layout[k], s, cfg);
      Interpret(Layout[k..], s, cfg) == Interpret(Layout[k + 1..], r.stream, r.value)
  {
    assert Layout[k..][0] == Layout[k];
    assert Layout[k..][1..] == Layout[k + 1..];
  }

  /** A comment slot: the word goes to the scratch string. */
  lemma UnfoldComment(k: nat, s: Stream, cfg: Config, scratch: string)
    requires k < |Layout| && Layout[k] == Comment
    ensures Interpret(Layout[k..], s, cfg) == Interpret(Layout[k + 1..], ExtractWord(s, scratch).stream, cfg)
  {
    Unfold(k, s, cfg);
  }

  /** A number slot: the width (3) or the height (5). */
  lemma UnfoldNumber(k: nat, s: Stream, cfg: Config)
    requires k == 3 || k == 5
    ensures var n := ExtractInt(s, if k == 3 then cfg.width else cfg.height);
      Interpret(Layout[k..], s, cfg)
        == Interpret(Layout[k + 1..], n.stream, if k == 3 then cfg.(width := n.value) else cfg.(height := n.value))
  {
    Unfold(k, s, cfg);
  }

  /** The code slot (7). */
  lemma UnfoldCode(s: Stream, cfg: Config)
    ensures var b := ExtractChars(s, cfg.fourcc);
      Interpret(Layout[7..], s, cfg) == Interpret(Layout[8..], b.stream, cfg.(fourcc := b.value))
  {
    Unfold(7, s, cfg);
  }

  /** The last slot of the layout is the mesh path, and nothing is read after it. */
  lemma LastSlot(s: Stream, cfg: Config)
    ensures Interpret(Layout[9..], s, cfg) == cfg.(meshPath := ExtractWord(s, cfg.meshPath).value)
  {
    assert Layout[9..] == [MeshPath];
    assert [MeshPath][1..] == [];
  }

  /** Once the words run out, the next read fails and no setting changes from then on. */
  lemma EndOfWords(k: nat, cfg: Config)
    requires k < |Layout|
    ensures Interpret(Layout[k..], Stream([], false), cfg) == cfg
  {
    var s := Stream([], false);
    Unfold(k, s, cfg);
    var r := ReadSlot(Layout[k], s, cfg);
    assert r.stream.failed && r.value == cfg;
    FailedStreamKeepsConfig(Layout[k + 1..], r.stream, cfg);
  }

  /** With at most three words only comments are consumed: every setting keeps its default. */
  lemma ShortFileKeepsDefaults(tokens: seq<Token>)
    requires |tokens| <= 3
    ensures IniSettings(Some(tokens)) == Defaults
  {
    var k := |tokens|;
    assert Layout[0..] == Layout;
    // the first k comment reads each take one word
    if k >= 1 { UnfoldComment(0, Open(tokens), Defaults, ""); }
    if k >= 2 { UnfoldComment(1, Stream(tokens[1..], false), Defaults, ""); }
    if k == 3 { UnfoldComment(2, Stream(tokens[2..], false), Defaults, ""); }
    assert Stream(tokens[k..], false) == Stream([], false);
    EndOfWords(k, Defaults);
  }

  /** A width word without digits stores 0 in the width and fails the stream, so the height,
      the code and the mesh path keep their defaults. */
  lemma NonNumericWidthZeroes(tokens: seq<Token>)
    requires |tokens| >= 4 && DigitRun(tokens[3], SignLength(tokens[3])) == 0
    ensures IniSettings(Some(tokens)) == Defaults.(width := 0)
  {
    CommentsSkipped(tokens);
    var s3 := Stream(tokens[3..], false);
    var n := ExtractInt(s3, 1920);
    assert n.stream.failed && n.value == 0;
    UnfoldNumber(3, s3, Defaults);
    FailedStreamKeepsConfig(Layout[4..], n.stream, Defaults.(width := 0));
  }

  /** The three leading comment words are consumed without touching any setting. */
  lemma CommentsSkipped(tokens: seq<Token>)
    requires |tokens| >= 3
    ensures IniSettings(Some(tokens)) == Interpret(Layout[3..], Stream(tokens[3..], false), Defaults)
  {
    assert Layout[0..] == Layout;
    UnfoldComment(0, Open(tokens), Defaults, "");
    UnfoldComment(1, Stream(tokens[1..], false), Defaults, "");
    UnfoldComment(2, Stream(tokens[2..], false), Defaults, "");
  }

  /** With the layout followed, word 3 is the width, 5 the height, 7 the code and 9 the mesh
      path; words 0-2, 4, 6 and 8 are ignored. */
  lemma WellFormedLayout(tokens: seq<Token>)
    requires WellFormed(tokens)
    ensures IniSettings(Some(tokens))
      == Config(IntValue(tokens[3]), IntValue(tokens[5]), StoreWord("XVID", tokens[7]), tokens[9])
  {
    var c3 := Defaults.(width := IntValue(tokens[3]));
    var c5 := c3.(height := IntValue(tokens[5]));
    var c7 := c5.(fourcc := StoreWord("XVID", tokens[7]));
    var c9 := c7.(meshPath := tokens[9]);
    CommentsSkipped(tokens);
    assert Interpret(Layout[3..], Stream(tokens[3..], false), Defaults)
        == Interpret(Layout[4..], Stream(tokens[4..], false), c3) by {
      UnfoldNumber(3, Stream(tokens[3..], false), Defaults);
    }
    assert Interpret(Layout[4..], Stream(tokens[4..], false), c3)
        == Interpret(Layout[6..], Stream(tokens[6..], false), c5) by {
      UnfoldComment(4, Stream(tokens[4..], false), c3, "");
      UnfoldNumber(5, Stream(tokens[5..], false), c3);
    }
    assert Interpret(Layout[6..], Stream(tokens[6..], false), c5)
        == Interpret(Layout[8..], Stream(tokens[8..], false), c7) by {
      UnfoldComment(6, Stream(tokens[6..], false), c5, "");
      UnfoldCode(Stream(tokens[7..], false), c5);
    }
    assert Interpret(Layout[8..], Stream(tokens[8..], false), c7) == c9 by {
      UnfoldComment(8, Stream(tokens[8..], false), c7, "");
      LastSlot(Stream(tokens[9..], false), c7);
    }
  }

  /** An unsigned number followed by other characters: the number is stored and the
      characters after it become the next word. */
  lemma NumberPrefixLeavesRest(s: Stream, prev: Int32)
    requires !s.failed && s.rest != []
    requires 0 < DigitRun(s.rest[0], 0) < |s.rest[0]|
    requires DecimalValue(s.rest[0][..DigitRun(s.rest[0], 0)]) <= IntMax
    ensures var t := s.rest[0]; var d := DigitRun(t, 0);
      ExtractInt(s, prev) == Read(Stream([t[d..]] + s.rest[1..], false), DecimalValue(t[..d]))
  {
    var t := s.rest[0];
    assert IsDigit(t[0]);
    assert t[0..DigitRun(t, 0)] == t[..DigitRun(t, 0)];
  }

  /** Characters after the width's digits stay in the stream and are taken as the next
      comment. When word 4 then has no digits, the height becomes 0 and the rest keeps its
      defaults. */
  lemma TrailingCharsShiftLayout(tokens: seq<Token>)
    requires |tokens| >= 5
    requires 0 < DigitRun(tokens[3], 0) < |tokens[3]|
    requires DecimalValue(tokens[3][..DigitRun(tokens[3], 0)]) <= IntMax
    requires DigitRun(tokens[4], SignLength(tokens[4])) == 0
    ensures IniSettings(Some(tokens))
      == Defaults.(width := DecimalValue(tokens[3][..DigitRun(tokens[3], 0)]), height := 0)
  {
    CommentsSkipped(tokens);
    var t3 := tokens[3];
    var d := DigitRun(t3, 0);
    var s3 := Stream(tokens[3..], false);
    // the width takes the digits and leaves the rest of the word to the comment slot
    var s4 := Stream([t3[d..]] + tokens[4..], false);
    NumberPrefixLeavesRest(s3, 1920);
    UnfoldNumber(3, s3, Defaults);
    var c3 := Defaults.(width := DecimalValue(t3[..d]));
    var s5 := Stream(tokens[4..], false);
    assert ExtractWord(s4, "").stream == s5;
    UnfoldComment(4, s4, c3, "");
    // the height meets a word without digits: 0 and the fail bit
    var n := ExtractInt(s5, 1080);
    assert n.stream.failed && n.value == 0;
    UnfoldNumber(5, s5, c3);
    FailedStreamKeepsConfig(Layout[6..], n.stream, c3.(height := 0));
  }

  /** Characters after the width's digits stay in the stream and are taken as the next
      comment, so every later word shifts by one slot: word 4 is the height, 6 the code and
      8 the mesh path. */
  lemma TrailingCharsShiftWords(tokens: seq<Token>)
    requires |tokens| >= 9
    requires 0 < DigitRun(tokens[3], 0) < |tokens[3]|
    requires DecimalValue(tokens[3][..DigitRun(tokens[3], 0)]) <= IntMax
    requires IsWholeInt(tokens[4])
    ensures IniSettings(Some(tokens))
      == Config(DecimalValue(tokens[3][..DigitRun(tokens[3], 0)]), IntValue(tokens[4]),
                StoreWord("XVID", tokens[6]), tokens[8])
  {
    var t3 := tokens[3];
    var d := DigitRun(t3, 0);
    var c3 := Defaults.(width := DecimalValue(t3[..d]));
    var c5 := c3.(height := IntValue(tokens[4]));
    var c7 := c5.(fourcc := StoreWord("XVID", tokens[6]));
    var c9 := c7.(meshPath := tokens[8]);
    var s4 := Stream([t3[d..]] + tokens[4..], false);
    CommentsSkipped(tokens);
    assert Interpret(Layout[3..], Stream(tokens[3..], false), Defaults)
        == Interpret(Layout[4..], s4, c3) by {
      NumberPrefixLeavesRest(Stream(tokens[3..], false), 1920);
      UnfoldNumber(3, Stream(tokens[3..], false), Defaults);
    }
    assert Interpret(Layout[4..], s4, c3)
        == Interpret(Layout[6..], Stream(tokens[5..], false), c5) by {
      assert ExtractWord(s4, "").stream == Stream(tokens[4..], false);
      UnfoldComment(4, s4, c3, "");
      UnfoldNumber(5, Stream(tokens[4..], false), c3);
    }
    assert Interpret(Layout[6..], Stream(tokens[5..], false), c5)
        == Interpret(Layout[8..], Stream(tokens[7..], false), c7) by {
      UnfoldComment(6, Stream(tokens[5..], false), c5, "");
      UnfoldCode(Stream(tokens[6..], false), c5);
    }
    assert Interpret(Layout[8..], Stream(tokens[7..], false), c7) == c9 by {
      UnfoldComment(8, Stream(tokens[7..], false), c7, "");
      LastSlot(Stream(tokens[8..], false), c7);
    }
  }

  /** The first three words of the file, read into the scratch string and dropped. */
  method SkipHeader(infile: Stream, tempstring: string) returns (after: Stream, scratch: string)
    ensures forall cfg: Config {:trigger Interpret(Layout, infile, cfg)} ::
      Interpret(Layout, infile, cfg) == Interpret(Layout[3..], after, cfg)
    ensures !infile.failed && |infile.rest| >= 3 ==> after == Stream(infile.rest[3..], false)
  {
    var word := ExtractWord(infile, tempstring);
    var s1 := word.stream;
    word := ExtractWord(s1, word.value);
    var s2 := word.stream;
    word := ExtractWord(s2, word.value);
    after, scratch := word.stream, word.value;
    forall cfg: Config ensures Interpret(Layout, infile, cfg) == Interpret(Layout[3..], after, cfg) {
      assert Layout[0..] == Layout;
      UnfoldComment(0, infile, cfg, tempstring);
      UnfoldComment(1, s1, cfg, ExtractWord(infile, tempstring).value);
      UnfoldComment(2, s2, cfg, ExtractWord(s1, ExtractWord(infile, tempstring).value).value);
    }
  }

  /** The seven reads after the header: width, height, code and mesh path, each after a comment
      word except the width. */
  method ReadSettings(s: Stream, defaults: Config, tempstring: string) returns (cfg: Config)
    ensures cfg == Interpret(Layout[3..], s, defaults)
  {
    var infile := s;
    cfg := defaults;
    var scratch := tempstring;
    ghost var goal := Interpret(Layout[3..], infile, cfg);
    var number := ExtractInt(infile, cfg.width);
    assert goal == Interpret(Layout[4..], number.stream, cfg.(width := number.value)) by { UnfoldNumber(3, infile, cfg); }
    infile, cfg := number.stream, cfg.(width := number.value);
    var word := ExtractWord(infile, scratch);
    assert goal == Interpret(Layout[5..], word.stream, cfg) by { UnfoldComment(4, infile, cfg, scratch); }
    infile, scratch := word.stream, word.value;
    number := ExtractInt(infile, cfg.height);
    assert goal == Interpret(Layout[6..], number.stream, cfg.(height := number.value)) by { UnfoldNumber(5, infile, cfg); }
    infile, cfg := number.stream, cfg.(height := number.value);
    word := ExtractWord(infile, scratch);
    assert goal == Interpret(Layout[7..], word.stream, cfg) by { UnfoldComment(6, infile, cfg, scratch); }
    infile, scratch := word.stream, word.value;
    var chars := ExtractChars(infile, cfg.fourcc);
    assert goal == Interpret(Layout[8..], chars.stream, cfg.(fourcc := chars.value)) by { UnfoldCode(infile, cfg); }
    infile, cfg := chars.stream, cfg.(fourcc := chars.value);
    word := ExtractWord(infile, scratch);
    assert goal == Interpret(Layout[9..], word.stream, cfg) by { UnfoldComment(8, infile, cfg, scratch); }
    infile, scratch := word.stream, word.value;
    word := ExtractWord(infile, cfg.meshPath);
    assert goal == cfg.(meshPath := word.value) by { LastSlot(infile, cfg); }
    cfg := cfg.(meshPath := word.value);
  }

  /** The ini block of `main`: defaults first, then, if the file opened, ten reads in the
      order of the layout. */
  method ReadIni(file: Option<seq<Token>>) returns (cfg: Config)
    ensures cfg == IniSettings(file)
    ensures file.None? ==> cfg == Defaults
    ensures file.Some? && |file.value| <= 3 ==> cfg == Defaults
    ensures file.Some? && WellFormed(file.value) ==>
      cfg == Config(IntValue(file.value[3]), IntValue(file.value[5]), StoreWord("XVID", file.value[7]), file.value[9])
  {
    cfg := Defaults;
    if file.Some? {
      // `infile`, once open: the words still to be read and the fail bit
      var infile := Open(file.value);
      var tempstring := "";
      infile, tempstring := SkipHeader(infile, tempstring);
      cfg := ReadSettings(infile, cfg, tempstring);
      if |file.value| <= 3 { ShortFileKeepsDefaults(file.value); }
      if WellFormed(file.value) { WellFormedLayout(file.value); }
    }
  }
}
