/**
 * `Name` (src/name.rs): a symbolic name handed to Binaryen, held as a C string.
 */
module Names {
  import opened Prelude
  import opened ToCStr

  /** `Name(CString)`. */
  datatype Name = Name(cstr: CString) {

    /** `Name::as_ptr`: points at the held C string, so it reads back as the name's bytes. */
    function AsPtr(): (p: CPtr)
      ensures p.PtrTo? && p == cstr.AsPtr()
      ensures ReadCStr(p) == Some(cstr.content)
    {
      cstr.AsPtr()
    }
  }

  /** `From<String> for Name`; `Err` is the panic of `CString::new(s).unwrap()`. */
  function NameFromString(s: seq<byte>): (r: Result<Name, NulError>)
    ensures r.Ok? <==> NulFree(s)
    ensures r.Ok? ==> r.value.cstr.content == s && ReadCStr(r.value.AsPtr()) == Some(s)
    ensures r.Err? ==> r.error.position < |s| && s[r.error.position] == NUL
  {
    match CStringNew(s)
    case Ok(c) => Ok(Name(c))
    case Err(e) => Err(e)
  }

  /** `From<&str> for Name`: the same conversion as for `String`. */
  function NameFromStr(s: seq<byte>): (r: Result<Name, NulError>)
    ensures r.Ok? <==> NulFree(s)
    ensures r.Ok? ==> r.value.cstr.content == s && ReadCStr(r.value.AsPtr()) == Some(s)
    ensures r == NameFromString(s)
  {
    match CStringNew(s)
    case Ok(c) => Ok(Name(c))
    case Err(e) => Err(e)
  }

  /** `From<CString> for Name`: wraps the C string unchanged and cannot fail. */
  function NameFromCString(c: CString): (n: Name)
    ensures n.cstr == c && ReadCStr(n.AsPtr()) == Some(c.content)
  {
    Name(c)
  }
}
