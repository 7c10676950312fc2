# binaryen-rs front-end bookkeeping, modelled in Dafny

binaryen-rs is a Rust binding to the C++ Binaryen library. Almost all of the
real work (the expression arena, validation, encoding, optimisation passes and
the Relooper structuring algorithm) happens in C++ behind `ffi::*` calls. This
project models the Rust-side logic around those calls and proves what it
promises:

- **Relooper front end** (`relooper.dfy`, module `RelooperBindings`). The
  `Relooper` class is bound to one `InnerModule` object. It hands out block
  ids 0, 1, 2, … in creation order. It requires every expression it is given
  to belong to its module, where "same module" means the same object
  (`Rc::ptr_eq`). It bounds-checks every id it looks up; an out-of-range id is
  the `IndexOutOfBounds` panic. `render` consumes it. The C++ relooper is the
  class `RawRelooper`, which only records the calls it receives. The
  invariant `Relooper.Valid` says three things. Block id `i` names the block
  made by the `i`-th block-creating foreign call. Every branch and the render
  entry use only blocks created before them. Rendering is the last call the
  C++ object ever gets.
- **C-string stashing** (`to_cstr.dfy`, module `ToCStr`). A `&CStr`, `&str`
  or `String` becomes a `Stash`: the storage that owns a NUL-terminated
  C string, plus a pointer into it. A pointer is `Null` or the bytes stored
  from its address on. `ReadCStr` scans those bytes up to the first NUL, as
  `CStr::from_ptr` does. This is how "the pointer reads back as the original
  text" is stated.
- **Names** (`name.dfy`, module `Names`): the three `From` conversions into
  `Name` and its `as_ptr`.
- **`wasm_opt` argument parsing** (`wasm_opt.dfy`, module `WasmOpt`).
  `parse_args` takes the argument vector as a parameter. `FlagForConfig` is an
  independent inverse, derived from what each level means. Round-trip lemmas
  relate the two.
- **Build-script classifications** (`build.dfy`, module `BuildScript`).
  `get_cpp_stdlib` and `get_debug` take the value of the `TARGET` or `DEBUG`
  environment variable as an `Option<string>`. `str::contains` is proved
  equal to "occurs at some index" (`HasSubstring`). The stdlib choice is
  stated in those terms.

`prelude.dfy` holds `byte`, `u32`, `Option` and `Result`. A Rust panic is
modelled as an `Err`/`Fail` value that carries its cause.

The Rust layer itself checks less than one might expect, and the model keeps
exactly its checks:

- Operands from another module are checked only by `debug_assert!`
  (src/relooper.rs:26, 32-33, 64-72, 91-94). The model makes these checks
  preconditions (see "Left out").
- Every branch is forwarded to C++ unchanged, a second unconditional branch
  from the same block included. The Rust layer does not reject it, and
  neither does the model.
- A `RelooperBlockId` is a plain `usize` (src/relooper.rs:8). An id obtained
  from another Relooper is accepted whenever it is below this Relooper's
  table length (src/relooper.rs:74-75, 95-96, 47). The model accepts it too:
  `BlockId` carries only the index.
- Reuse after `render` is not checked at run time. `render` takes `self` by
  value, so reuse cannot compile. The model expresses this with the ghost
  `consumed` flag, which every method requires to be false.

The usage text in `examples/wasm_opt.rs` lists `-O0, -O1, -O2, -O3, -Os, -Oz`.
The parser also accepts `-O4`, and the model follows the parser.

## Model

| member | source | states |
|---|---|---|
| `ToCStr.CString.AsPtr` | src/to_cstr.rs:37-43 | the pointer of a C string addresses its content followed by one NUL, and reading it back gives exactly the content |
| `ToCStr.ScanStopsAtTerminator` | src/to_cstr.rs:78-84 | reading a C string from NUL-free bytes followed by a NUL gives those bytes, whatever lies after the terminator |
| `ToCStr.CStringNew` | src/to_cstr.rs:46-49 | `CString::new` succeeds exactly when the bytes hold no NUL and then keeps them unchanged; otherwise the error names the first NUL's position |
| `ToCStr.ToCStrStash` | src/to_cstr.rs:37-62 | a `&CStr` is not copied: the storage is the argument and the pointer is its own. `&str`/`String` are copied into a new owned C string with the same bytes, and fail (the `unwrap` panic) exactly when they contain a NUL. In every success the pointer points into the storage and reads back as the original text |
| `ToCStr.StashCopy` | src/to_cstr.rs:46-62 | the shared body of the `&str` and `String` implementations. It succeeds exactly on NUL-free text. On success the storage is a new owned C string holding exactly the text, and the pointer points into it and reads back as the text. Otherwise the error is `CString::new`'s |
| `ToCStr.StrAndStringAgree` | src/to_cstr.rs:46-62 | the `&str` and `String` implementations give the same stash for the same text |
| `ToCStr.Stash.AsPtr` | src/to_cstr.rs:18-20 | `Stash::as_ptr` returns exactly the pointer stored in the stash |
| `ToCStr.StashKeepsPointer` | src/to_cstr.rs:12-20 | `Stash::as_ptr` returns the pointer the stash was built with |
| `ToCStr.ToCStrStashOption` | src/to_cstr.rs:64-72 | `None` gives storage `None` and a null pointer. `Some(s)` gives `Some` of `s`'s storage and `s`'s own pointer, fails exactly when converting `s` fails and then with that conversion's error, and its pointer is non-null and reads back as `s` |
| `Names.Name.AsPtr` | src/name.rs:7-9 | the pointer of a name addresses its C string and reads back as the name's bytes |
| `Names.NameFromString` | src/name.rs:13-15 | succeeds exactly when the string has no NUL (otherwise the panic names a NUL position), holding exactly the string's bytes |
| `Names.NameFromStr` | src/name.rs:19-21 | the same success condition and content as the `String` conversion, and the same result |
| `Names.NameFromCString` | src/name.rs:25-27 | wraps the given C string unchanged, never fails, and reads back as its content |
| `RelooperBindings.IntoRawOrNull` | src/relooper.rs:78-79 | an absent optional expression is passed on as a null pointer, a present one as its raw node |
| `RelooperBindings.LengthAsU32` | src/relooper.rs:104 | the `usize` to `u32` cast of the switch-index count keeps every length below 2^32 and wraps a longer one modulo 2^32 |
| `RelooperBindings.AppendCall` | src/relooper.rs:40-44 | appending a call that uses only created blocks to a live log keeps it well formed, extends the created-block list by exactly the block the call creates (if any), and disposes the relooper exactly when the call is the render |
| `RelooperBindings.RawRelooper.Create` | src/relooper.rs:19 | `RelooperCreate` yields a live C++ relooper that has received no calls |
| `RelooperBindings.RawRelooper.AddBlock` | src/relooper.rs:27 | `RelooperAddBlock` records the body it was given and the block handle it returned |
| `RelooperBindings.RawRelooper.AddBlockWithSwitch` | src/relooper.rs:34-36 | `RelooperAddBlockWithSwitch` records the body, the selector and the returned block handle |
| `RelooperBindings.RawRelooper.AddBranch` | src/relooper.rs:80 | `RelooperAddBranch` records both blocks, the condition pointer and the code pointer |
| `RelooperBindings.RawRelooper.AddBranchForSwitch` | src/relooper.rs:100-106 | `RelooperAddBranchForSwitch` records both blocks, the indices, their `u32` count and the code pointer |
| `RelooperBindings.RawRelooper.RenderAndDispose` | src/relooper.rs:49 | `RelooperRenderAndDispose` records the entry block, label helper and module, and frees the relooper |
| `RelooperBindings.Relooper.constructor` | src/relooper.rs:17-23 | a new Relooper has an empty block table, is bound to exactly the module object it was given, and owns a fresh C++ relooper |
| `RelooperBindings.Relooper.RegisterBlock` | src/relooper.rs:40-44 | returns the table length before the call; the table grows by exactly that block, with earlier entries unchanged |
| `RelooperBindings.Relooper.AddBlock` | src/relooper.rs:25-29 | requires the body to be from the Relooper's module; returns id = old table length; the table grows by one, keeping earlier entries; the new entry is the block the foreign call returned; the invariant is kept |
| `RelooperBindings.Relooper.AddBlockWithSwitch` | src/relooper.rs:31-38 | as `AddBlock`, requiring both the body and the selector to be from the Relooper's module |
| `RelooperBindings.Relooper.Render` | src/relooper.rs:46-55 | consumes the Relooper. An entry id at or beyond the table length panics before any foreign call. Otherwise the C++ relooper is rendered with that entry's block and freed, and the result belongs to the Relooper's module |
| `RelooperBindings.Relooper.AddBranch` | src/relooper.rs:57-82 | requires present condition and code to be from the Relooper's module. `from` and then `to` are bounds-checked, and an out-of-range id panics before any foreign call. On success exactly one branch is recorded between the looked-up blocks, with absent expressions as null pointers. The block table and module binding are unchanged |
| `RelooperBindings.Relooper.AddBranchForSwitch` | src/relooper.rs:84-108 | as `AddBranch`, with the case indices and their `u32` count in place of a condition |
| `RelooperBindings.Relooper.IsExprFromSameModule` | src/relooper.rs:110-112 | an expression is from the same module exactly when its module reference is the same object as the Relooper's (`Rc::ptr_eq`). Same object implies the same raw module handle |
| `RelooperBindings.SameModuleIsIdentity` | src/relooper.rs:110-112 | "same module" is object identity: a distinct module object with the same raw handle is not the same module |
| `WasmOpt.ConfigForFlag` | examples/wasm_opt.rs:20-57 | exactly the seven flags `-O0`…`-O4`, `-Os`, `-Oz` are accepted, and every accepted flag turns debug info on |
| `WasmOpt.ParseArgs` | examples/wasm_opt.rs:14-66 | fewer than four arguments or an unknown flag give `Err`. Otherwise the result is `Ok`: input path `args[2]`, output path `args[3]`, and the flag's configuration |
| `WasmOpt.LevelFlag` | examples/wasm_opt.rs:21-45 | `-ON` for N in 0..4 gives level N with shrink level 0 |
| `WasmOpt.FlagRoundTrip` | examples/wasm_opt.rs:21-55 | each accepted flag is the flag of the configuration it selects (so `-Os` is level 2 shrink 1, `-Oz` level 2 shrink 2) |
| `WasmOpt.ConfigRoundTrip` | examples/wasm_opt.rs:21-55 | each configuration that some flag names is selected by that flag |
| `WasmOpt.ParseIgnoresProgramNameAndExtras` | examples/wasm_opt.rs:58-65 | `args[0]` and everything after `args[3]` do not affect the result |
| `BuildScript.Contains` | binaryen-sys/build.rs:198 | `str::contains` holds exactly when the pattern occurs at some index |
| `BuildScript.GetCppStdlib` | binaryen-sys/build.rs:196-210 | `TARGET` unset gives `None`. Otherwise the first marker present decides: `msvc` gives `None`, `darwin` or `freebsd` give `"c++"`, `musl` gives `"static=stdc++"`, none gives `"stdc++"`. Each result holds exactly in its case |
| `BuildScript.MsvcWins` | binaryen-sys/build.rs:198-199 | example: `x86_64-pc-windows-msvc` and `msvc-darwin-musl` (which also names darwin and musl) both give `None`; the general rule is in `GetCppStdlib` |
| `BuildScript.DarwinTarget` | binaryen-sys/build.rs:200-201 | example: `x86_64-apple-darwin` links `c++` |
| `BuildScript.FreeBsdTarget` | binaryen-sys/build.rs:202-203 | example: `x86_64-unknown-freebsd` links `c++` |
| `BuildScript.MuslTarget` | binaryen-sys/build.rs:204-205 | example: `x86_64-unknown-linux-musl` links `static=stdc++` |
| `BuildScript.GnuTarget` | binaryen-sys/build.rs:206-207 | example: `x86_64-unknown-linux-gnu` links `stdc++` |
| `BuildScript.GetDebug` | binaryen-sys/build.rs:213-218 | true exactly when `DEBUG` is set to something other than `"false"` |
| `BuildScript.DebugValues` | binaryen-sys/build.rs:213-218 | the empty string, `"true"` and `"0"` enable debugging; `"false"` and an unset variable do not |

## Left out

- The Relooper structuring algorithm, the expression arena and everything else in C++. `RawRelooper` records the calls it receives. The handles it returns are opaque names with nothing proved about them, because the C++ source is not part of this model.
- RelooperBindings.Relooper.AddBlock: the `debug_assert!` same-module checks are modelled as preconditions. The same holds for `AddBlockWithSwitch`, `AddBranch` and `AddBranchForSwitch`. The model does not capture that a debug build panics on a foreign expression, or that a release build passes it through unchecked.
- Raw pointers, `Rc` reference counts, `Drop` and memory addresses. Module identity is object identity. Pointers are values (the bytes at the address), so whether a conversion allocated is shown only by the `Borrowed`/`Owned` tag of the storage.
- UTF-8 validity of `&str`/`String`. Text is a sequence of bytes.
- Ownership moves of `Expr` (`into_raw`) and `Relooper` (`render(self)`). The move of the Relooper is the ghost `consumed` flag.
- `src/lib.rs`, `src/tools.rs`, `binaryen-sys/Shim.cpp`, `binaryen-sys/wrapper.h`, `binaryen-sys/src/lib.rs` and the bindgen test. They are FFI forwarding, a stub, fuzz-module generation or build checks with no local logic. The types `Expr` and `InnerModule` are modelled from their use in `src/relooper.rs`, since their definitions are not part of this model.
- The rest of `binaryen-sys/build.rs` (cmake, git, bindgen, pass-catalog generation via the `regex`/`heck` crates, link directives). It is build I/O.
- `read_module`, `write_module`, `main` and `process::exit` in `examples/wasm_opt.rs`, and `examples/hello_world.rs`. These are file I/O and a plain sequence of API calls. `env::args()` and `env::var` are replaced by parameters.
- Concurrency. None of the modelled code is concurrent, and the global code-generation lock is not in these files.
