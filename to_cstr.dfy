/**
 * C-string stashing (src/to_cstr.rs): turning Rust strings into NUL-terminated
 * C strings for the foreign calls, together with the storage that keeps the
 * bytes alive while the pointer is in use.
 *
 * Memory is modelled by value: a pointer is either null or the run of bytes
 * found at its address, and reading a C string through it scans that run up
 * to the first NUL, as `CStr::from_ptr` does.
 */
module ToCStr {
  import opened Prelude

  const NUL: byte := 0

  predicate NulFree(s: seq<byte>) {
    forall i :: 0 <= i < |s| ==> s[i] != NUL
  }

  /** The bytes of a C string, without its terminator: no interior NUL. */
  type NulFreeBytes = s: seq<byte> | NulFree(s) witness []

  /** A C string (`CString` owned, `CStr` borrowed): its content; the terminator is implicit. */
  datatype CString = CString(content: NulFreeBytes) {

    /** The bytes laid out in memory: the content followed by one NUL. */
    function WithNul(): (b: seq<byte>)
      ensures |b| == |content| + 1 && b[|content|] == NUL
    {
      content + [NUL]
    }

    /** `CStr::as_ptr`: a pointer to the first byte; reading it back gives the content. */
    function AsPtr(): (p: CPtr)
      ensures p.PtrTo? && p.mem == WithNul()
      ensures ReadCStr(p) == Some(content)
    {
      ScanStopsAtTerminator(content, []);
      assert content + [NUL] + [] == content + [NUL];
      PtrTo(content + [NUL])
    }
  }

  /** A raw `*const c_char`: null, or the bytes stored from its address on. */
  datatype CPtr = Null | PtrTo(mem: seq<byte>)

  /** The bytes before the first NUL of `mem`, or `None` when `mem` holds no NUL. */
  function ScanToNul(mem: seq<byte>): Option<seq<byte>> {
    if mem == [] then None
    else if mem[0] == NUL then Some([])
    else match ScanToNul(mem[1..])
      case None => None
      case Some(rest) => Some([mem[0]] + rest)
  }

  /** `CStr::from_ptr`: the C string at `p`; `None` for a null pointer or an unterminated run. */
  function ReadCStr(p: CPtr): Option<seq<byte>> {
    match p
    case Null => None
    case PtrTo(mem) => ScanToNul(mem)
  }

  /** Scanning NUL-free bytes followed by a NUL yields exactly those bytes, whatever follows. */
  lemma {:induction false} ScanStopsAtTerminator(b: seq<byte>, rest: seq<byte>)
    requires NulFree(b)
    ensures ScanToNul(b + [NUL] + rest) == Some(b)
  {
    if b != [] {
      assert (b + [NUL] + rest)[1..] == b[1..] + [NUL] + rest;
      ScanStopsAtTerminator(b[1..], rest);
      assert [b[0]] + b[1..] == b;
    }
  }

  /** Rust's `NulError`: the position of the first NUL and the rejected bytes. */
  datatype NulError = NulError(position: nat, bytes: seq<byte>)

  /** The index of the first NUL in `s`, if any. */
  function FirstNul(s: seq<byte>): (r: Option<nat>)
    ensures r.None? <==> NulFree(s)
    ensures r.Some? ==> r.value < |s| && s[r.value] == NUL && NulFree(s[..r.value])
  {
    if s == [] then None
    else if s[0] == NUL then Some(0)
    else match FirstNul(s[1..])
      case None => None
      case Some(i) =>
        assert s[..i + 1] == [s[0]] + s[1..][..i];
        Some(i + 1)
  }

  /** `CString::new`: copies the bytes, refusing any that contain a NUL. */
  function CStringNew(bytes: seq<byte>): (r: Result<CString, NulError>)
    ensures r.Ok? <==> NulFree(bytes)
    ensures r.Ok? ==> r.value.content == bytes
    ensures r.Err? ==> r.error.bytes == bytes && r.error.position < |bytes|
                       && bytes[r.error.position] == NUL && NulFree(bytes[..r.error.position])
  {
    match FirstNul(bytes)
    case None => Ok(CString(bytes))
    case Some(i) => Err(NulError(i, bytes))
  }

  /** `Stash<T>`: the storage that owns the C string, and a pointer into it. */
  datatype Stash<T> = Stash(storage: T, ptr: CPtr) {
    /** `Stash::as_ptr`: the pointer the stash was built with. */
    function AsPtr(): (p: CPtr)
      ensures p == ptr
    {
      ptr
    }
  }

  /** The three `ToCStr` implementors: `&CStr`, `&str` and `String` (UTF-8 text as bytes). */
  datatype StrArg = CStrRef(cstr: CString) | StrSlice(text: seq<byte>) | OwnedString(text: seq<byte>) {
    /** The text the argument stands for. */
    function Text(): seq<byte> {
      if CStrRef? then cstr.content else text
    }
  }

  /** The storage a stash keeps: the borrowed `&CStr` itself, or a newly built `CString`. */
  datatype Storage = Borrowed(cstr: CString) | Owned(cstr: CString)

  /** `ToCStr::to_cstr_stash`; `Err` is the panic of `CString::new(..).unwrap()`. */
  function ToCStrStash(arg: StrArg): (r: Result<Stash<Storage>, NulError>)
    // a borrowed C string is not copied: the storage is the argument itself
    ensures arg.CStrRef? ==> r == Ok(Stash(Borrowed(arg.cstr), arg.cstr.AsPtr()))
    // text is copied into a new C string, which fails exactly when it holds a NUL
    ensures !arg.CStrRef? ==> (r.Ok? <==> NulFree(arg.text))
    ensures !arg.CStrRef? && r.Ok? ==> r.value.storage.Owned? && r.value.storage.cstr.content == arg.text
    ensures !arg.CStrRef? && r.Err? ==> r.error == CStringNew(arg.text).error
    // the pointer points into the storage and reads back as the original text
    ensures r.Ok? ==> r.value.AsPtr() == r.value.storage.cstr.AsPtr()
    ensures r.Ok? ==> ReadCStr(r.value.AsPtr()) == Some(arg.Text())
  {
    match arg
    case CStrRef(c) => Ok(Stash(Borrowed(c), c.AsPtr()))
    case StrSlice(s) => StashCopy(s)
    case OwnedString(s) => StashCopy(s)
  }

  /** The shared body of the `&str` and `String` implementations. */
  function StashCopy(text: seq<byte>): (r: Result<Stash<Storage>, NulError>)
    ensures r.Ok? <==> NulFree(text)
    ensures r.Ok? ==> r.value.storage.Owned? && r.value.storage.cstr.content == text
                      && r.value.AsPtr() == r.value.storage.cstr.AsPtr()
                      && ReadCStr(r.value.AsPtr()) == Some(text)
    ensures r.Err? ==> r.error == CStringNew(text).error
  {
    match CStringNew(text)
    case Err(e) => Err(e)
    case Ok(c) => Ok(Stash(Owned(c), c.AsPtr()))
  }

  /** `to_cstr_stash_option`: `None` becomes a null pointer, `Some(s)` the stash of `s`. */
  function ToCStrStashOption(name: Option<StrArg>): (r: Result<Stash<Option<Storage>>, NulError>)
    ensures name.None? ==> r == Ok(Stash(None, Null))
    ensures name.Some? ==> (r.Ok? <==> ToCStrStash(name.value).Ok?)
    ensures name.Some? && r.Err? ==> r.error == ToCStrStash(name.value).error
    ensures name.Some? && r.Ok? ==>
              r.value.storage == Some(ToCStrStash(name.value).value.storage)
              && r.value.AsPtr() == ToCStrStash(name.value).value.AsPtr()
    ensures r.Ok? ==> (r.value.AsPtr() == Null <==> name.None?)
    ensures name.Some? && r.Ok? ==> ReadCStr(r.value.AsPtr()) == Some(name.value.Text())
  {
    match name
    case Some(s) =>
      (match ToCStrStash(s)
       case Err(e) => Err(e)
       case Ok(Stash(storage, ptr)) => Ok(Stash(Some(storage), ptr)))
    case None => Ok(Stash(None, Null))
  }

  /** `Stash::new` followed by `Stash::as_ptr` gives back the stored pointer. */
  lemma StashKeepsPointer<T>(storage: T, ptr: CPtr)
    ensures Stash(storage, ptr).AsPtr() == ptr
  {
  }

  /** `&str` and `String` are converted alike. */
  lemma StrAndStringAgree(text: seq<byte>)
    ensures ToCStrStash(StrSlice(text)) == ToCStrStash(OwnedString(text))
  {
  }
}
