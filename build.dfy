/**
 * The two environment classifications of the build script (binaryen-sys/build.rs):
 * which C++ standard library to link for a target triple, and whether the
 * build is a debug build. The value of the environment variable is passed in.
 */
module BuildScript {
  import opened Prelude

  /** `p` occurs in `s` starting at index `i`. */
  ghost predicate OccursAt(s: string, p: string, i: nat) {
    i + |p| <= |s| && s[i..i + |p|] == p
  }

  /** The meaning of `str::contains`: `p` occurs somewhere in `s`. */
  ghost predicate HasSubstring(s: string, p: string) {
    exists i: nat :: OccursAt(s, p, i)
  }

  /** Removing the first character of `s` keeps every occurrence of `p` except one at index 0. */
  lemma {:induction false} HasSubstringInTail(s: string, p: string)
    requires s != [] && !OccursAt(s, p, 0)
    ensures HasSubstring(s, p) <==> HasSubstring(s[1..], p)
  {
    if HasSubstring(s, p) {
      var i: nat :| OccursAt(s, p, i);
      assert i > 0;
      assert s[1..][i - 1..i - 1 + |p|] == s[i..i + |p|];
      assert OccursAt(s[1..], p, i - 1);
    }
    if HasSubstring(s[1..], p) {
      var i: nat :| OccursAt(s[1..], p, i);
      assert s[1..][i..i + |p|] == s[i + 1..i + 1 + |p|];
      assert OccursAt(s, p, i + 1);
    }
  }

  /** `str::contains`. */
  function Contains(s: string, p: string): (r: bool)
    ensures r <==> HasSubstring(s, p)
    decreases |s|
  {
    if |p| <= |s| && s[..|p|] == p then
      assert OccursAt(s, p, 0);
      true
    else if s == [] then
      assert forall i: nat :: !OccursAt(s, p, i);
      false
    else
      HasSubstringInTail(s, p);
      Contains(s[1..], p)
  }

  const MSVC := "msvc"
  const DARWIN := "darwin"
  const FREEBSD := "freebsd"
  const MUSL := "musl"

  /**
   * `get_cpp_stdlib`, given the value of `TARGET`: the markers are tested in
   * order msvc, darwin, freebsd, musl and the first one present decides.
   */
  function GetCppStdlib(target: Option<string>): (r: Option<string>)
    ensures target.None? ==> r.None?
    ensures r.None? <==> target.None? || HasSubstring(target.value, MSVC)
    ensures r == Some("c++") <==>
              target.Some? && !HasSubstring(target.value, MSVC)
              && (HasSubstring(target.value, DARWIN) || HasSubstring(target.value, FREEBSD))
    ensures r == Some("static=stdc++") <==>
              target.Some? && !HasSubstring(target.value, MSVC) && !HasSubstring(target.value, DARWIN)
              && !HasSubstring(target.value, FREEBSD) && HasSubstring(target.value, MUSL)
    ensures r == Some("stdc++") <==>
              target.Some? && !HasSubstring(target.value, MSVC) && !HasSubstring(target.value, DARWIN)
              && !HasSubstring(target.value, FREEBSD) && !HasSubstring(target.value, MUSL)
  {
    match target
    case None => None
    case Some(t) =>
      if Contains(t, MSVC) then None
      else if Contains(t, DARWIN) then Some("c++")
      else if Contains(t, FREEBSD) then Some("c++")
      else if Contains(t, MUSL) then Some("static=stdc++")
      else Some("stdc++")
  }

  /** Examples: two MSVC triples, one also naming darwin and musl, link no C++ library. */
  lemma MsvcWins()
    ensures GetCppStdlib(Some("x86_64-pc-windows-msvc")) == None
    ensures GetCppStdlib(Some("msvc-darwin-musl")) == None
  {
    assert OccursAt("x86_64-pc-windows-msvc", MSVC, 18);
    assert OccursAt("msvc-darwin-musl", MSVC, 0);
  }

  /** Example: the Apple triple `x86_64-apple-darwin` links libc++. */
  lemma DarwinTarget()
    ensures GetCppStdlib(Some("x86_64-apple-darwin")) == Some("c++")
  {
    assert OccursAt("x86_64-apple-darwin", DARWIN, 13);
    MissingCharacter("x86_64-apple-darwin", MSVC, 0);
  }

  /** Example: the FreeBSD triple `x86_64-unknown-freebsd` links libc++. */
  lemma FreeBsdTarget()
    ensures GetCppStdlib(Some("x86_64-unknown-freebsd")) == Some("c++")
  {
    assert OccursAt("x86_64-unknown-freebsd", FREEBSD, 15);
    MissingCharacter("x86_64-unknown-freebsd", MSVC, 0);
    MissingCharacter("x86_64-unknown-freebsd", DARWIN, 1);
  }

  /** Example: the musl triple `x86_64-unknown-linux-musl` links libstdc++ statically. */
  lemma MuslTarget()
    ensures GetCppStdlib(Some("x86_64-unknown-linux-musl")) == Some("static=stdc++")
  {
    var t := "x86_64-unknown-linux-musl";
    assert OccursAt(t, MUSL, 21);
    MissingCharacter(t, MSVC, 3);
    MissingCharacter(t, DARWIN, 1);
    MissingCharacter(t, FREEBSD, 0);
  }

  /** Example: the GNU/Linux triple `x86_64-unknown-linux-gnu` links libstdc++ dynamically. */
  lemma GnuTarget()
    ensures GetCppStdlib(Some("x86_64-unknown-linux-gnu")) == Some("stdc++")
  {
    var t := "x86_64-unknown-linux-gnu";
    MissingCharacter(t, MSVC, 0);
    MissingCharacter(t, DARWIN, 0);
    MissingCharacter(t, FREEBSD, 0);
    MissingCharacter(t, MUSL, 0);
  }

  /** `p` cannot occur in `s` when one of its characters never does. */
  lemma MissingCharacter(s: string, p: string, j: nat)
    requires j < |p| && forall i :: 0 <= i < |s| ==> s[i] != p[j]
    ensures !HasSubstring(s, p)
  {
    forall i: nat ensures !OccursAt(s, p, i) {
      if i + |p| <= |s| {
        assert s[i..i + |p|][j] == s[i + j];
      }
    }
  }

  /** `get_debug`, given the value of `DEBUG`: a debug build unless unset or exactly "false". */
  function GetDebug(debug: Option<string>): (r: bool)
    ensures r == (debug != None && debug != Some("false"))
    ensures r ==> debug.Some?
  {
    match debug
    case Some(s) => s != "false"
    case None => false
  }

  /** Every value of `DEBUG` other than "false" turns debugging on, the empty string included. */
  lemma DebugValues()
    ensures GetDebug(Some("")) && GetDebug(Some("true")) && GetDebug(Some("0"))
    ensures !GetDebug(Some("false")) && !GetDebug(None)
  {
  }
}
