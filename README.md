# Built-in location and inclusion macros of the Rust macro expander

This project models `src/libsyntax/ext/source_util.rs`: the expanders for the
intrinsic macros `line!`, `col!`, `file!`, `funcpathfile!`, `function_path!`,
`func!`, `stringify!`, `module_path!`, `include!`, `include_str!` and
`include_bin!`. It also models the two helpers they share. `topmost_expn_info`
walks the chain of expansion records back to the invocation the programmer
wrote, and stops below an `include!`. `res_rel_file` resolves an include path
against the file that holds the invocation.

Files:

- `wrappers.dfy` (`Wrappers`): `Option` and `Result`.
- `strings.dfy` (`Strings`): `connect` with `"::"` and splitting it back,
  decimal `to_str` and reading it back, and the last index of a character.
- `paths.dfy` (`Paths`): POSIX paths, `Path(s)`, `dir_path`, `push_many` and `res_rel_file`.
- `expansion.dfy` (`Expansion`): spans and expansion records, the walk and its lemmas.
- `source_util.dfy` (`SourceUtil`): the expansion context `ExtCtxt` and one method per expander.

Modelling choices:

- Expansion records form an arena `seq<ExpnInfo>`. A record's `parent` is the
  index of the record that produced its call site (`call_site.expn_info`).
  `WellFormed` requires every parent index to be smaller than the record's own
  index. So chains cannot have cycles, and the index is the walk's termination
  measure.
- `ExtCtxt` holds the records, the backtrace head, the function-name stack,
  the module-name stack and a `diagnostics` list. `span_err` appends to that
  list and the expander carries on. `span_fatal` ends the expansion with
  `Fatal(Some(sp), msg)`. The handler's span-less `fatal` ends it with
  `Fatal(None, msg)`. If `cx.backtrace()` is missing, the code's `unwrap()`
  fails; that is `Panic`.
- The collaborators are fields of the context holding functions:
  `lookup_char_pos`, `span_to_filename`, the argument checks of `ext::base`,
  the whole-file reads and the pretty-printer. The file reads stand in for
  the I/O. The column convention belongs to `lookup_char_pos` and is not fixed here.
- `func_depth()` is the length of the function-name stack, and
  `func_path_last()` is its last name. `func_path()` joins the names with `"::"`.
  These three live in `ext::base`, which is not part of this model.

Behaviour of the code worth noting (`src/libsyntax/ext/source_util.rs`):

- Relative include paths are put under the directory of the file holding
  the invocation span (line 213). Nothing is normalised. The comment at
  line 211 says "relative to the compilation unit", but the code does not
  do that.
- `funcpathfile!` outside any function still builds the full
  `file:line:col|` string, with an empty function path (lines 72-84).
- `func!` outside any function reports the non-fatal error and then ends
  fatally (lines 113-122). `func!` checks its arguments and reports errors
  under the name `function!`.
- The walk is recursive (line 197) and follows parents until it may stop.

## Model

| member | source | states |
|---|---|---|
| `Expansion.Topmost` | src/libsyntax/ext/source_util.rs:183-206 | the topmost record is at or before the start record, and the walk may stop there: it has no parent, or its parent's callee is `include` |
| `Expansion.Ancestry` | src/libsyntax/ext/source_util.rs:185-187 | the chain from a record to its root: starts at the record, each entry is followed by its parent, the last has no parent |
| `Expansion.TopmostOnChain` | src/libsyntax/ext/source_util.rs:183-206 | the topmost record is the start record or one of its ancestors; every record before it on the chain has a parent that is not `include`, so no inclusion boundary is crossed |
| `Expansion.TopmostUnique` | src/libsyntax/ext/source_util.rs:183-206 | a chain record is the topmost one if and only if the walk may stop there and may stop at no earlier record of the chain |
| `Expansion.TopmostIsSelf` | src/libsyntax/ext/source_util.rs:186-202 | the start record is returned itself if and only if it has no parent or its parent's callee is `include` |
| `Expansion.TopmostIdempotent` | src/libsyntax/ext/source_util.rs:183-206 | walking again from the topmost record returns it unchanged |
| `Expansion.TopmostWithoutInclude` | src/libsyntax/ext/source_util.rs:193-198 | when no ancestor of the start record is an `include` expansion, any number of ordinary macro layers lead to the root record, the outermost invocation |
| `Expansion.TopmostNearestIncludeExample` | src/libsyntax/ext/source_util.rs:193-198 | with two nested inclusions and a macro layer, the walk stops below the nearest inclusion |
| `Paths.FromStr` | src/libsyntax/ext/source_util.rs:213 | `Path(s)` is absolute exactly when `s` starts with '/', and its components are non-empty and hold no '/' |
| `Paths.ComponentsOfJoin` | src/libsyntax/ext/source_util.rs:213 | the components of the '/'-joined components of a path are exactly those components, with or without a leading '/' |
| `Paths.DirPath` | src/libsyntax/ext/source_util.rs:214 | `dir_path` keeps the absolute flag and drops exactly the last component; a path with no components is kept |
| `Paths.PushMany` | src/libsyntax/ext/source_util.rs:214 | `push_many` keeps the absolute flag and the old components, and the new ones follow in order |
| `Paths.ResRelFile` | src/libsyntax/ext/source_util.rs:210-218 | an absolute argument comes back unchanged; a relative one gives the directory components of the invocation's own file, then the argument's components, in order, absolute as that file name is |
| `Paths.ResRelFileIdempotent` | src/libsyntax/ext/source_util.rs:212-217 | against an absolute file name, resolving a resolved path changes nothing |
| `Paths.ResRelFileSibling` | src/libsyntax/ext/source_util.rs:212-214 | `b.inc` used in `/proj/src/a.rs` resolves to `/proj/src/b.inc` |
| `Strings.SplitJoinRoundTrip` | src/libsyntax/ext/source_util.rs:138 | joining a non-empty list of colon-free names with `"::"` and splitting gives back the same names in the same order |
| `Strings.NatToString` | src/libsyntax/ext/source_util.rs:81-82 | `to_str` of a number is a non-empty string of decimal digits without a leading zero |
| `Strings.NatToStringRoundTrip` | src/libsyntax/ext/source_util.rs:81-82 | reading the decimal rendering back gives the number |
| `SourceUtil.FuncPathFileRoundTrip` | src/libsyntax/ext/source_util.rs:78-84 | the string built from file name, line, column and function path gives back all four, whatever the file name holds |
| `SourceUtil.ByteLits` | src/libsyntax/ext/source_util.rs:173 | one `u8` literal per byte, same length and order, each at the invocation span |
| `SourceUtil.ByteLitsRoundTrip` | src/libsyntax/ext/source_util.rs:173 | the byte literals denote exactly the bytes read |
| `SourceUtil.ExtCtxt.SpanErr` | src/libsyntax/ext/source_util.rs:74-75 | a non-fatal error is appended to the diagnostics and nothing else changes |
| `SourceUtil.ExtCtxt.ExpandLine` | src/libsyntax/ext/source_util.rs:30-38 | the argument check runs first; then the line of the topmost record's call site, as an unsigned literal placed at that call site; a missing backtrace panics |
| `SourceUtil.ExtCtxt.ExpandCol` | src/libsyntax/ext/source_util.rs:41-48 | the same topmost record and call site as `line!`, reporting the column |
| `SourceUtil.ExtCtxt.ExpandFile` | src/libsyntax/ext/source_util.rs:53-61 | the same topmost record and call site as `line!`, reporting the file name as a string literal |
| `SourceUtil.ExtCtxt.ExpandFuncPathFile` | src/libsyntax/ext/source_util.rs:69-87 | uses the nearest record (the backtrace head), not the topmost; yields `file:line:col`, a bar and the function path, at the invocation span; at depth 0 it appends exactly one diagnostic and still yields the string |
| `SourceUtil.ExtCtxt.ExpandFunctionPath` | src/libsyntax/ext/source_util.rs:97-106 | the joined function path; at depth 0 one diagnostic is appended and the empty string is still returned |
| `SourceUtil.ExtCtxt.ExpandFunction` | src/libsyntax/ext/source_util.rs:110-125 | the innermost function name; at depth 0 one diagnostic is appended and the expansion then ends fatally |
| `SourceUtil.ExtCtxt.ExpandStringify` | src/libsyntax/ext/source_util.rs:128-132 | the printed tokens of this invocation, at its own span; never fails and does not look at the backtrace |
| `SourceUtil.ExtCtxt.ExpandMod` | src/libsyntax/ext/source_util.rs:134-139 | the module names joined by "::" at the invocation span; splitting it at "::" gives back the module names in stack order; an empty stack gives "" |
| `SourceUtil.ExtCtxt.ExpandInclude` | src/libsyntax/ext/source_util.rs:144-151 | the sub-parsed expression of the path resolved by `res_rel_file` against the invocation's span |
| `SourceUtil.ExtCtxt.ExpandIncludeStr` | src/libsyntax/ext/source_util.rs:154-166 | a successful read gives exactly the file's text as a string literal; a failed read ends fatally at the span with the read's message |
| `SourceUtil.ExtCtxt.ExpandIncludeBin` | src/libsyntax/ext/source_util.rs:168-180 | a successful read gives a vector of one `u8` literal per byte, in order, which decodes to the bytes read; a failed read ends fatally without a span |

## Left out

- File I/O (`io::read_whole_file_str`, `io::read_whole_file`): each read is a function from the resolved path to `Ok(content)` or `Err(message)`.
- The sub-parser of `include!` (`new_sub_parser_from_file`, `parse_expr`): the result is a `SubParsed` node naming the resolved file. What is parsed, and parse errors, are not modelled.
- The pretty-printer of `stringify!` (`pprust::tts_to_str`) is an uninterpreted function. Tokens are opaque.
- `lookup_char_pos` and `span_to_filename` are uninterpreted functions of the source map. No column convention is fixed.
- `check_zero_tts` and `get_single_str_from_tts` (`ext::base`) are uninterpreted checks. Each one either lets the expander go on or aborts it. Their messages and whether they report at the span are not modelled.
- The AST builder, `@` pointers, `to_managed` and the string interner (`str_of`): literals are a small datatype, and names are strings.
- Pushing and popping the function-name and module-name stacks and the backtrace happen in `ext::base`, which is not part of this model. The expanders only read these fields.
- `Paths.FromStr`: models the POSIX `Path(s)` conversion of `std::path`, which is not part of this model. It splits at '/' and drops empty runs.
- `Paths.PushMany`: does not split its arguments again at '/', as `std::path` does. Every argument here comes from `FromStr` and holds no '/', so the result is the same. For that reason `Paths.ResRelFile` requires an argument whose components are non-empty and hold no '/'.
- Only the callee's name is kept from `NameAndSpan`, and only `call_site` and the callee are kept from an expansion record.
