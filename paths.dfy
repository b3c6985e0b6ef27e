/**
 * The string and path helpers both scripts lean on: Python's `str.strip`,
 * `str.lower`, `str.endswith` with a tuple of suffixes, and the POSIX
 * behaviour of `os.path.basename`, `os.path.splitext` and `os.path.join`.
 */
module Paths {

  /** The characters Python's argument-less `str.strip()` removes, restricted to ASCII. */
  const Whitespace: set<char> :=
    {' ', '\t', '\n', '\r', '\U{0B}', '\U{0C}', '\U{1C}', '\U{1D}', '\U{1E}', '\U{1F}'}

  /** The nine input extensions both scripts accept (audio_enhancer.py:23, audio_normalizer.py:18). */
  const SupportedExtensions: seq<string> :=
    [".mp3", ".wav", ".ogg", ".flac", ".m4a", ".wma", ".aac", ".alac", ".aiff"]

  /** `r` occurs as a contiguous slice of `s`. */
  ghost predicate Infix(r: string, s: string) {
    exists i, j :: 0 <= i <= j <= |s| && s[i..j] == r
  }

  lemma InfixTransitive(a: string, b: string, c: string)
    requires Infix(a, b) && Infix(b, c)
    ensures Infix(a, c)
  {
    var i, j :| 0 <= i <= j <= |b| && b[i..j] == a;
    var k, l :| 0 <= k <= l <= |c| && c[k..l] == b;
    forall t | 0 <= t < |a|
      ensures c[k + i..k + j][t] == a[t]
    {
      assert a[t] == b[i + t] == c[k + i + t];
    }
    assert c[k + i..k + j] == a;
  }

  /**
   * `s.strip(cs)`: drops the longest prefix and then the longest suffix made of
   * characters in `cs`, so what is left neither starts nor ends with one.
   */
  function Strip(s: string, cs: set<char>): (r: string)
    ensures r != [] ==> r[0] !in cs && r[|r| - 1] !in cs
    decreases |s|
  {
    if s != [] && s[0] in cs then Strip(s[1..], cs)
    else if s != [] && s[|s| - 1] in cs then Strip(s[..|s| - 1], cs)
    else s
  }

  /**
   * What `strip` keeps is the slice `s[i..j]` left after removing characters of `cs`
   * from both ends: everything before `i` and from `j` on is in `cs`.
   */
  lemma {:induction false} StripSlice(s: string, cs: set<char>) returns (i: nat, j: nat)
    ensures i <= j <= |s| && Strip(s, cs) == s[i..j]
    ensures forall k :: 0 <= k < i ==> s[k] in cs
    ensures forall k :: j <= k < |s| ==> s[k] in cs
    decreases |s|
  {
    if s != [] && s[0] in cs {
      var i', j' := StripSlice(s[1..], cs);
      i, j := i' + 1, j' + 1;
      assert s[1..][i'..j'] == s[i..j];
      forall k | 0 <= k < i ensures s[k] in cs {
        if k > 0 { assert s[k] == s[1..][k - 1]; }
      }
      forall k | j <= k < |s| ensures s[k] in cs {
        assert s[k] == s[1..][k - 1];
      }
    } else if s != [] && s[|s| - 1] in cs {
      i, j := StripSlice(s[..|s| - 1], cs);
      assert s[..|s| - 1][i..j] == s[i..j];
      forall k | j <= k < |s| ensures s[k] in cs {
        if k < |s| - 1 { assert s[k] == s[..|s| - 1][k]; }
      }
    } else {
      i, j := 0, |s|;
    }
  }

  /** What `strip` keeps is a contiguous slice of its argument. */
  lemma StripIsInfix(s: string, cs: set<char>)
    ensures Infix(Strip(s, cs), s)
  {
    var i, j := StripSlice(s, cs);
  }

  /**
   * How both scripts clean a typed or dragged path:
   * `input().strip().strip('"').strip("'")` (audio_enhancer.py:108, audio_normalizer.py:92).
   */
  function CleanInput(raw: string): (path: string)
    ensures Infix(path, raw)
    ensures path != [] ==> path[0] != '\'' && path[|path| - 1] != '\''
  {
    var trimmed := Strip(raw, Whitespace);
    var unquoted := Strip(trimmed, {'"'});
    var path := Strip(unquoted, {'\''});
    StripIsInfix(raw, Whitespace);
    StripIsInfix(trimmed, {'"'});
    StripIsInfix(unquoted, {'\''});
    InfixTransitive(path, unquoted, trimmed);
    InfixTransitive(path, trimmed, raw);
    path
  }

  /** `c.lower()` for ASCII letters. */
  function LowerChar(c: char): char {
    if 'A' <= c <= 'Z' then (c as int + 32) as char else c
  }

  /** `s.lower()`, ASCII letters only. */
  function Lower(s: string): string {
    seq(|s|, i requires 0 <= i < |s| => LowerChar(s[i]))
  }

  /** The answer to a yes/no prompt as the scripts compare it: `input().strip().lower()`. */
  function Answer(line: string): string {
    Lower(Strip(line, Whitespace))
  }

  /**
   * A reply matches a lower-case letter exactly when, once stripped, it is that
   * letter in either case: "Y", " y " and "y\n" all read as "y"; "yes" does not.
   */
  lemma AnswerIsLetter(line: string, c: char)
    requires 'a' <= c <= 'z'
    ensures Answer(line) == [c] <==> Strip(line, Whitespace) in {[c], [(c as int - 32) as char]}
  {
    var t := Strip(line, Whitespace);
    var upper := (c as int - 32) as char;
    assert LowerChar(c) == c;
    assert LowerChar(upper) == c;
    if |t| == 1 {
      assert Lower(t) == [LowerChar(t[0])];
      if LowerChar(t[0]) == c {
        if 'A' <= t[0] <= 'Z' {
          assert t[0] as int + 32 == c as int;
          assert t[0] == upper;
        } else {
          assert t[0] == c;
        }
        assert t == [t[0]];
      }
    } else {
      assert |Lower(t)| != 1;
    }
  }

  predicate EndsWith(s: string, suffix: string) {
    |suffix| <= |s| && s[|s| - |suffix|..] == suffix
  }

  /** `path.lower().endswith(SUPPORTED_EXTENSIONS)`. */
  predicate HasSupportedExtension(path: string) {
    exists e :: e in SupportedExtensions && EndsWith(Lower(path), e)
  }

  /** `path.lower().endswith(".wav")`, the pass-through test of audio_normalizer.py:140. */
  predicate IsWav(path: string) {
    EndsWith(Lower(path), ".wav")
  }

  /** A path that ends with a supported name is itself supported, whatever precedes it. */
  lemma SupportedSuffix(prefix: string, name: string)
    requires HasSupportedExtension(name)
    ensures HasSupportedExtension(prefix + name)
  {
    var e :| e in SupportedExtensions && EndsWith(Lower(name), e);
    assert Lower(prefix + name) == Lower(prefix) + Lower(name);
    EndsWithExtends(Lower(prefix), Lower(name), e);
  }

  lemma EndsWithExtends(prefix: string, s: string, suffix: string)
    requires EndsWith(s, suffix)
    ensures EndsWith(prefix + s, suffix)
  {
    assert (prefix + s)[|prefix + s| - |suffix|..] == s[|s| - |suffix|..];
  }

  /** `os.path.basename` (POSIX): everything after the last '/'. */
  function BaseName(p: string): (r: string)
    ensures '/' !in r
    ensures |r| <= |p| && r == p[|p| - |r|..]
    ensures |r| < |p| ==> p[|p| - |r| - 1] == '/'
  {
    if p == [] || p[|p| - 1] == '/' then [] else BaseName(p[..|p| - 1]) + [p[|p| - 1]]
  }

  /** `os.path.join(a, b)` (POSIX): an absolute `b` wins; otherwise one '/' separates the parts. */
  function Join(a: string, b: string): (r: string)
    ensures EndsWith(r, b)
  {
    if |b| > 0 && b[0] == '/' then b
    else if a == [] || a[|a| - 1] == '/' then a + b
    else a + "/" + b
  }

  lemma BaseNameAfterSeparator(dir: string, name: string)
    requires dir == [] || dir[|dir| - 1] == '/'
    requires '/' !in name
    ensures BaseName(dir + name) == name
  {
    var whole := dir + name;
    assert whole[|dir|..] == name;
  }

  /** Joining a directory with a plain name and taking the basename gives the name back. */
  lemma {:induction false} BaseNameOfJoin(dir: string, name: string)
    requires name != [] && '/' !in name
    ensures BaseName(Join(dir, name)) == name
  {
    if dir == [] || dir[|dir| - 1] == '/' {
      BaseNameAfterSeparator(dir, name);
    } else {
      assert dir + "/" + name == (dir + "/") + name;
      BaseNameAfterSeparator(dir + "/", name);
    }
  }

  /** The extensions the scripts write carry no separator. */
  lemma NoSeparators()
    ensures '/' !in ".wav" && '/' !in ".mp3" && '/' !in "_Normalized.wav"
  {
  }

  /** Index of the last '.', or -1 when there is none. */
  function LastDot(s: string): (k: int)
    ensures -1 <= k < |s|
    ensures k >= 0 ==> s[k] == '.'
    ensures forall i :: k < i < |s| ==> s[i] != '.'
  {
    if s == [] then -1
    else if s[|s| - 1] == '.' then |s| - 1
    else LastDot(s[..|s| - 1])
  }

  /**
   * `os.path.splitext(name)[0]` for a name without separators: the text before the
   * last '.', unless only dots precede it (".mp3" and "..x" have no extension).
   */
  function Stem(name: string): (stem: string)
    ensures |stem| <= |name| && stem == name[..|stem|]
    ensures name != [] ==> stem != []
    ensures stem != name ==> name[|stem|] == '.' && '.' !in name[|stem| + 1..]
  {
    var k := LastDot(name);
    if k > 0 && exists i :: 0 <= i < k && name[i] != '.' then name[..k] else name
  }

  lemma LastDotOfAppend(base: string, ext: string)
    requires ext != [] && ext[0] == '.' && '.' !in ext[1..]
    ensures LastDot(base + ext) == |base|
    decreases |ext|
  {
    var s := base + ext;
    if |ext| > 1 {
      var init := ext[..|ext| - 1];
      assert s[..|s| - 1] == base + init;
      assert ext[|ext| - 1] in ext[1..];
      assert init[1..] == ext[1..|ext| - 1];
      LastDotOfAppend(base, init);
    }
  }

  /** Removing one extension: a stem with some character other than '.' survives `splitext`. */
  lemma {:induction false} StemOfAppend(base: string, ext: string)
    requires exists i :: 0 <= i < |base| && base[i] != '.'
    requires ext != [] && ext[0] == '.' && '.' !in ext[1..]
    ensures Stem(base + ext) == base
  {
    LastDotOfAppend(base, ext);
    var i :| 0 <= i < |base| && base[i] != '.';
    assert (base + ext)[i] == base[i];
    assert (base + ext)[..|base|] == base;
  }

  /** Renaming a plain name (`splitext(name)[0] + ext`) gives a plain, non-empty name. */
  lemma RenamedHasNoSeparator(name: string, ext: string)
    requires '/' !in name && '/' !in ext && ext != []
    ensures var renamed := Stem(name) + ext;
            renamed != [] && '/' !in renamed
  {
    var stem := Stem(name);
    forall c | c in stem ensures c != '/' {
      var i :| 0 <= i < |stem| && stem[i] == c;
      assert name[i] == c;
    }
  }

  /** Every supported extension is one '.' followed by a dot-free tail, with no separator. */
  lemma SupportedExtensionShape(e: string)
    requires e in SupportedExtensions
    ensures e != [] && e[0] == '.' && '.' !in e[1..] && '/' !in e
  {
  }
}
