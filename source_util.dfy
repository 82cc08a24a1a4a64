/**
 * The built-in location and inclusion macros: `line!`, `col!`, `file!`,
 * `funcpathfile!`, `function_path!`, `func!`, `stringify!`,
 * `module_path!`, `include!`, `include_str!` and `include_bin!`.
 *
 * Each expander is a method of the expansion context `ExtCtxt`. It yields
 * a literal expression, or ends the expansion (`Fatal`, or `Panic` when the
 * backtrace the code unwraps is missing). A non-fatal `span_err` appends to
 * the context's diagnostics and the expander goes on.
 */
module SourceUtil {
  import opened Wrappers
  import opened Strings
  import opened Paths
  import opened Expansion

  newtype u8 = x: int | 0 <= x < 0x100

  /** What `lookup_char_pos` reports for an offset. */
  datatype Loc = Loc(file: string, line: nat, col: nat)

  /** The source map, as the two lookups these macros use. */
  datatype CodeMap = CodeMap(lookupCharPos: nat -> Loc, spanToFilename: Span -> string)

  /** A token tree of a macro's argument; only the pretty-printer and the argument checks look inside. */
  datatype TokenTree = TokenTree(text: string)

  /** The outcome of `check_zero_tts`: the expansion goes on, or is aborted. */
  datatype ArgCheck = Pass | Abort(at: Option<Span>, msg: string)

  /** The outcome of `get_single_str_from_tts`: the string argument, or an abort. */
  datatype StrArg = StrArg(s: string) | BadArg(at: Option<Span>, msg: string)

  /** The argument checks of `ext::base`. */
  datatype Base = Base(
    checkZeroTts: (Span, seq<TokenTree>, string) -> ArgCheck,
    getSingleStrFromTts: (Span, seq<TokenTree>, string) -> StrArg)

  /** Whole-file reads: as text (`read_whole_file_str`) and as bytes (`read_whole_file`). */
  datatype FileSystem = FileSystem(
    readWholeFileStr: Path -> Result<string, string>,
    readWholeFile: Path -> Result<seq<u8>, string>)

  /** The literal expressions the expanders build. */
  datatype Expr =
    | UintLit(sp: Span, n: nat)
    | StrLit(sp: Span, s: string)
    | U8Lit(sp: Span, b: u8)
    | VecLit(sp: Span, elems: seq<Expr>)
      /** The expression the sub-parser reads from `file`, spliced in by `include!`. */
    | SubParsed(sp: Span, file: Path)

  /** What an expander hands back. */
  datatype MacResult =
    | MRExpr(e: Expr)
      /** `span_fatal` (with a span) or the handler's `fatal` (without): expansion ends. */
    | Fatal(at: Option<Span>, msg: string)
      /** `unwrap()` of a missing backtrace: the compiler itself fails. */
    | Panic

  /** A non-fatal error reported with `span_err`. */
  datatype Diagnostic = Diagnostic(sp: Span, msg: string)

  /** The message a function-context macro reports outside any function. */
  function NotInFunction(name: string): (msg: string)
  {
    name + "() called when not inside a function"
  }

  /** The string `funcpathfile!` builds: `file:line:col|path`. */
  function FuncPathFileString(loc: Loc, funcPath: string): (s: string)
  {
    loc.file + ":" + NatToString(loc.line) + ":" + NatToString(loc.col) + "|" + funcPath
  }

  /** Reads a `funcpathfile!` string back from the right: the path after the last '|', then column and line. */
  function DecodeFuncPathFile(s: string): (r: Option<(Loc, string)>)
  {
    match LastIndexOf(s, '|')
    case None => None
    case Some(bar) =>
      var head := s[..bar];
      match LastIndexOf(head, ':')
      case None => None
      case Some(c2) =>
        var rest := head[..c2];
        match LastIndexOf(rest, ':')
        case None => None
        case Some(c1) =>
          var lineStr, colStr := rest[c1 + 1..], head[c2 + 1..];
          if |lineStr| > 0 && IsDigits(lineStr) && |colStr| > 0 && IsDigits(colStr) then
            Some((Loc(rest[..c1], DigitsValue(lineStr), DigitsValue(colStr)), s[bar + 1..]))
          else None
  }

  /**
   * The `funcpathfile!` string is unambiguous: file name, line, column and
   * function path are all recovered from it, whatever the file name holds,
   * as long as the function path has no '|'.
   */
  lemma FuncPathFileRoundTrip(loc: Loc, funcPath: string)
    requires '|' !in funcPath
    ensures DecodeFuncPathFile(FuncPathFileString(loc, funcPath)) == Some((loc, funcPath))
  {
    var lineStr, colStr := NatToString(loc.line), NatToString(loc.col);
    assert ':' !in colStr && '|' !in colStr && ':' !in lineStr by {
      assert IsDigits(colStr) && IsDigits(lineStr);
    }
    var rest := loc.file + [':'] + lineStr;
    var head := rest + [':'] + colStr;
    var s := head + ['|'] + funcPath;
    assert s == FuncPathFileString(loc, funcPath);
    LastIndexOfSplit(head, '|', funcPath);
    LastIndexOfSplit(rest, ':', colStr);
    LastIndexOfSplit(loc.file, ':', lineStr);
    NatToStringRoundTrip(loc.line);
    NatToStringRoundTrip(loc.col);
  }

  /** `include_bin!`'s literals: one `u8` literal per byte, in order, all at `sp`. */
  function ByteLits(sp: Span, src: seq<u8>): (r: seq<Expr>)
    ensures |r| == |src|
    ensures forall i :: 0 <= i < |r| ==> r[i] == U8Lit(sp, src[i])
  {
    if |src| == 0 then []
    else [U8Lit(sp, src[0])] + ByteLits(sp, src[1..])
  }

  /** The bytes a sequence of `u8` literals denotes, if every element is one. */
  function LitBytes(es: seq<Expr>): (r: Option<seq<u8>>)
  {
    if |es| == 0 then Some([])
    else if !es[0].U8Lit? then None
    else match LitBytes(es[1..])
      case None => None
      case Some(bs) => Some([es[0].b] + bs)
  }

  /** The byte literals give back exactly the bytes read, same length, same order. */
  lemma {:induction false} ByteLitsRoundTrip(sp: Span, src: seq<u8>)
    ensures LitBytes(ByteLits(sp, src)) == Some(src)
    decreases |src|
  {
    if |src| > 0 {
      var es := ByteLits(sp, src);
      assert es[1..] == ByteLits(sp, src[1..]);
      ByteLitsRoundTrip(sp, src[1..]);
      assert src == [src[0]] + src[1..];
    }
  }

  /**
   * The expansion context: the collaborators it consults, the expansion
   * records with the current backtrace head, the function-name and
   * module-name stacks, and the non-fatal diagnostics reported so far.
   */
  class ExtCtxt {
    const codemap: CodeMap
    const base: Base
    const fs: FileSystem
    /** `pprust::tts_to_str`. */
    const ttsToStr: seq<TokenTree> -> string
    var expns: seq<ExpnInfo>
    /** `backtrace()`: the most recent expansion record, if any. */
    var backtrace: Option<nat>
    var funcPath: seq<string>
    var modPath: seq<string>
    var diagnostics: seq<Diagnostic>

    ghost predicate Valid()
      reads this
    {
      WellFormed(expns) && (backtrace.Some? ==> backtrace.value < |expns|)
    }

    constructor (codemap: CodeMap, base: Base, fs: FileSystem, ttsToStr: seq<TokenTree> -> string,
                 expns: seq<ExpnInfo>, backtrace: Option<nat>, funcPath: seq<string>, modPath: seq<string>)
      requires WellFormed(expns) && (backtrace.Some? ==> backtrace.value < |expns|)
      ensures Valid()
      ensures this.codemap == codemap && this.base == base && this.fs == fs && this.ttsToStr == ttsToStr
      ensures this.expns == expns && this.backtrace == backtrace
      ensures this.funcPath == funcPath && this.modPath == modPath && diagnostics == []
    {
      this.codemap, this.base, this.fs, this.ttsToStr := codemap, base, fs, ttsToStr;
      this.expns, this.backtrace := expns, backtrace;
      this.funcPath, this.modPath := funcPath, modPath;
      diagnostics := [];
    }

    /** `func_path()`: the names of the enclosing functions, outermost first, joined by "::". */
    function FuncPathStr(): (path: string)
      reads this
    {
      Join(funcPath, PathSep)
    }

    /** The call site of the topmost record above the backtrace head. */
    function TopmostCallSite(): (site: Span)
      reads this
      requires Valid() && backtrace.Some?
    {
      expns[Topmost(expns, backtrace.value)].callSite
    }

    /** The call site of the backtrace head itself. */
    function NearestCallSite(): (site: Span)
      reads this
      requires Valid() && backtrace.Some?
    {
      expns[backtrace.value].callSite
    }

    /** What `span_err` adds when a function-context macro named `name` is used at depth 0. */
    function DepthError(sp: Span, name: string): (ds: seq<Diagnostic>)
      reads this
    {
      if |funcPath| == 0 then [Diagnostic(sp, NotInFunction(name))] else []
    }

    /** `span_err`: report a non-fatal error and continue. */
    method SpanErr(sp: Span, msg: string)
      requires Valid()
      modifies this`diagnostics
      ensures Valid()
      ensures diagnostics == old(diagnostics) + [Diagnostic(sp, msg)]
    {
      diagnostics := diagnostics + [Diagnostic(sp, msg)];
    }

    /** `line!()`: the line of the topmost call site, as an unsigned literal placed there. */
    method ExpandLine(sp: Span, tts: seq<TokenTree>) returns (r: MacResult)
      requires Valid()
      ensures var c := base.checkZeroTts(sp, tts, "line!");
        && (c.Abort? ==> r == Fatal(c.at, c.msg))
        && (c.Pass? && backtrace.None? ==> r == Panic)
        && (c.Pass? && backtrace.Some? ==>
              r == MRExpr(UintLit(TopmostCallSite(), codemap.lookupCharPos(TopmostCallSite().lo).line)))
    {
      var c := base.checkZeroTts(sp, tts, "line!");
      if c.Abort? {
        return Fatal(c.at, c.msg);
      }
      if backtrace.None? {
        return Panic;
      }
      var topmost := expns[Topmost(expns, backtrace.value)];
      var loc := codemap.lookupCharPos(topmost.callSite.lo);
      r := MRExpr(UintLit(topmost.callSite, loc.line));
    }

    /** `col!()`: the column of the topmost call site, as an unsigned literal placed there. */
    method ExpandCol(sp: Span, tts: seq<TokenTree>) returns (r: MacResult)
      requires Valid()
      ensures var c := base.checkZeroTts(sp, tts, "col!");
        && (c.Abort? ==> r == Fatal(c.at, c.msg))
        && (c.Pass? && backtrace.None? ==> r == Panic)
        && (c.Pass? && backtrace.Some? ==>
              r == MRExpr(UintLit(TopmostCallSite(), codemap.lookupCharPos(TopmostCallSite().lo).col)))
    {
      var c := base.checkZeroTts(sp, tts, "col!");
      if c.Abort? {
        return Fatal(c.at, c.msg);
      }
      if backtrace.None? {
        return Panic;
      }
      var topmost := expns[Topmost(expns, backtrace.value)];
      var loc := codemap.lookupCharPos(topmost.callSite.lo);
      r := MRExpr(UintLit(topmost.callSite, loc.col));
    }

    /** `file!()`: the file name of the topmost call site, as a string literal placed there. */
    method ExpandFile(sp: Span, tts: seq<TokenTree>) returns (r: MacResult)
      requires Valid()
      ensures var c := base.checkZeroTts(sp, tts, "file!");
        && (c.Abort? ==> r == Fatal(c.at, c.msg))
        && (c.Pass? && backtrace.None? ==> r == Panic)
        && (c.Pass? && backtrace.Some? ==>
              r == MRExpr(StrLit(TopmostCallSite(), codemap.lookupCharPos(TopmostCallSite().lo).file)))
    {
      var c := base.checkZeroTts(sp, tts, "file!");
      if c.Abort? {
        return Fatal(c.at, c.msg);
      }
      if backtrace.None? {
        return Panic;
      }
      var topmost := expns[Topmost(expns, backtrace.value)];
      var loc := codemap.lookupCharPos(topmost.callSite.lo);
      r := MRExpr(StrLit(topmost.callSite, loc.file));
    }

    /**
     * `funcpathfile!()`: location of the NEAREST call site (the backtrace
     * head, not the topmost record) and the function path. Outside any
     * function it reports an error and still yields the string.
     */
    method ExpandFuncPathFile(sp: Span, tts: seq<TokenTree>) returns (r: MacResult)
      requires Valid()
      modifies this`diagnostics
      ensures Valid()
      ensures var c := base.checkZeroTts(sp, tts, "funcpathfile!");
        && (c.Abort? ==> r == Fatal(c.at, c.msg) && diagnostics == old(diagnostics))
        && (c.Pass? ==> diagnostics == old(diagnostics) + DepthError(sp, "funcpathfile!"))
        && (c.Pass? && backtrace.None? ==> r == Panic)
        && (c.Pass? && backtrace.Some? ==>
              r == MRExpr(StrLit(sp, FuncPathFileString(codemap.lookupCharPos(NearestCallSite().lo), FuncPathStr()))))
    {
      var c := base.checkZeroTts(sp, tts, "funcpathfile!");
      if c.Abort? {
        return Fatal(c.at, c.msg);
      }
      if |funcPath| == 0 {
        SpanErr(sp, NotInFunction("funcpathfile!"));
      }
      if backtrace.None? {
        return Panic;
      }
      var nearest := expns[backtrace.value];
      var loc := codemap.lookupCharPos(nearest.callSite.lo);
      var res := FuncPathFileString(loc, FuncPathStr());
      r := MRExpr(StrLit(sp, res));
    }

    /** `function_path!()`: the joined function path; outside any function an error and the empty string. */
    method ExpandFunctionPath(sp: Span, tts: seq<TokenTree>) returns (r: MacResult)
      requires Valid()
      modifies this`diagnostics
      ensures Valid()
      ensures var c := base.checkZeroTts(sp, tts, "function_path!");
        && (c.Abort? ==> r == Fatal(c.at, c.msg) && diagnostics == old(diagnostics))
        && (c.Pass? ==> diagnostics == old(diagnostics) + DepthError(sp, "function_path!"))
        && (c.Pass? ==> r == MRExpr(StrLit(sp, Join(funcPath, PathSep))))
        && (c.Pass? && |funcPath| == 0 ==> r == MRExpr(StrLit(sp, "")))
    {
      var c := base.checkZeroTts(sp, tts, "function_path!");
      if c.Abort? {
        return Fatal(c.at, c.msg);
      }
      if |funcPath| == 0 {
        SpanErr(sp, NotInFunction("function_path!"));
      }
      r := MRExpr(StrLit(sp, FuncPathStr()));
    }

    /** `func!()`: the innermost function's name; outside any function an error, then a fatal one. */
    method ExpandFunction(sp: Span, tts: seq<TokenTree>) returns (r: MacResult)
      requires Valid()
      modifies this`diagnostics
      ensures Valid()
      ensures var c := base.checkZeroTts(sp, tts, "function!");
        && (c.Abort? ==> r == Fatal(c.at, c.msg) && diagnostics == old(diagnostics))
        && (c.Pass? ==> diagnostics == old(diagnostics) + DepthError(sp, "function!"))
        && (c.Pass? && |funcPath| == 0 ==> r == Fatal(Some(sp), NotInFunction("function!")))
        && (c.Pass? && |funcPath| > 0 ==> r == MRExpr(StrLit(sp, funcPath[|funcPath| - 1])))
    {
      var c := base.checkZeroTts(sp, tts, "function!");
      if c.Abort? {
        return Fatal(c.at, c.msg);
      }
      if |funcPath| == 0 {
        SpanErr(sp, NotInFunction("function!"));
      }
      var last := if |funcPath| == 0 then None else Some(funcPath[|funcPath| - 1]);
      match last
      case None =>
        r := Fatal(Some(sp), NotInFunction("function!"));
      case Some(shortname) =>
        r := MRExpr(StrLit(sp, shortname));
    }

    /** `stringify!(tts)`: the printed tokens of this very invocation, at its span; it never fails. */
    method ExpandStringify(sp: Span, tts: seq<TokenTree>) returns (r: MacResult)
      ensures r == MRExpr(StrLit(sp, ttsToStr(tts)))
    {
      var s := ttsToStr(tts);
      r := MRExpr(StrLit(sp, s));
    }

    /** `module_path!()`: the enclosing module names, outermost first, joined by "::". */
    method ExpandMod(sp: Span, tts: seq<TokenTree>) returns (r: MacResult)
      ensures var c := base.checkZeroTts(sp, tts, "module_path!");
        && (c.Abort? ==> r == Fatal(c.at, c.msg))
        && (c.Pass? ==> r == MRExpr(StrLit(sp, Join(modPath, PathSep))))
        && (c.Pass? && |modPath| == 0 ==> r.e.s == "")
        && (c.Pass? && |modPath| > 0 && (forall i :: 0 <= i < |modPath| ==> NoColon(modPath[i])) ==>
              SplitPath(r.e.s) == modPath)
    {
      var c := base.checkZeroTts(sp, tts, "module_path!");
      if c.Abort? {
        return Fatal(c.at, c.msg);
      }
      var path := Join(modPath, PathSep);
      if |modPath| > 0 && forall i :: 0 <= i < |modPath| ==> NoColon(modPath[i]) {
        SplitJoinRoundTrip(modPath);
      }
      r := MRExpr(StrLit(sp, path));
    }

    /** `include!("f")`: the expression parsed from `f`, resolved against the invocation's own file. */
    method ExpandInclude(sp: Span, tts: seq<TokenTree>) returns (r: MacResult)
      ensures var a := base.getSingleStrFromTts(sp, tts, "include!");
        && (a.BadArg? ==> r == Fatal(a.at, a.msg))
        && (a.StrArg? ==> r == MRExpr(SubParsed(sp, ResRelFile(codemap.spanToFilename(sp), FromStr(a.s)))))
    {
      var a := base.getSingleStrFromTts(sp, tts, "include!");
      if a.BadArg? {
        return Fatal(a.at, a.msg);
      }
      var file := ResRelFile(codemap.spanToFilename(sp), FromStr(a.s));
      r := MRExpr(SubParsed(sp, file));
    }

    /** `include_str!("f")`: the text of the resolved file as a string literal; a failed read is fatal. */
    method ExpandIncludeStr(sp: Span, tts: seq<TokenTree>) returns (r: MacResult)
      ensures var a := base.getSingleStrFromTts(sp, tts, "include_str!");
        && (a.BadArg? ==> r == Fatal(a.at, a.msg))
        && (a.StrArg? ==>
              match fs.readWholeFileStr(ResRelFile(codemap.spanToFilename(sp), FromStr(a.s)))
              case Ok(text) => r == MRExpr(StrLit(sp, text))
              case Err(e) => r == Fatal(Some(sp), e))
    {
      var a := base.getSingleStrFromTts(sp, tts, "include_str!");
      if a.BadArg? {
        return Fatal(a.at, a.msg);
      }
      var res := fs.readWholeFileStr(ResRelFile(codemap.spanToFilename(sp), FromStr(a.s)));
      match res
      case Ok(text) =>
        r := MRExpr(StrLit(sp, text));
      case Err(e) =>
        r := Fatal(Some(sp), e);
    }

    /** `include_bin!("f")`: one `u8` literal per byte of the resolved file, in order; a failed read is fatal. */
    method ExpandIncludeBin(sp: Span, tts: seq<TokenTree>) returns (r: MacResult)
      ensures var a := base.getSingleStrFromTts(sp, tts, "include_bin!");
        && (a.BadArg? ==> r == Fatal(a.at, a.msg))
        && (a.StrArg? ==>
              match fs.readWholeFile(ResRelFile(codemap.spanToFilename(sp), FromStr(a.s)))
              case Ok(src) =>
                && r.MRExpr? && r.e.VecLit? && r.e.sp == sp
                && LitBytes(r.e.elems) == Some(src) && |r.e.elems| == |src|
                && forall i :: 0 <= i < |r.e.elems| ==> r.e.elems[i] == U8Lit(sp, src[i])
              case Err(e) => r == Fatal(None, e))
    {
      var a := base.getSingleStrFromTts(sp, tts, "include_bin!");
      if a.BadArg? {
        return Fatal(a.at, a.msg);
      }
      match fs.readWholeFile(ResRelFile(codemap.spanToFilename(sp), FromStr(a.s)))
      case Ok(src) =>
        ByteLitsRoundTrip(sp, src);
        r := MRExpr(VecLit(sp, ByteLits(sp, src)));
      case Err(e) =>
        r := Fatal(None, e);
    }
  }
}
